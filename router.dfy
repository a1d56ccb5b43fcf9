/** The OpenApiRouter of falcon_openapi/router.py: it loads the document,
    derives the base path, resolves every operation to a handler class and
    method, and for each handler class and path passes the method map built
    for it to `set_default_responders` and adds a route for the instance. Importing the handler modules is modelled by a
    registry of the classes each file defines. */
module Router {
  import opened PyValue
  import opened PyStr
  import opened SpecSource

  /** What `__get_destination_info` returns: module, method, class and file.
      Method and class come from the document as they are, so they need not
      be strings. */
  datatype Destination = Destination(modName: string, responder: Value, cls: Value, file: string)

  /** The handler files the router can import: file -> class name -> the
      attribute names of an instance of that class. */
  type Registry = map<string, map<string, set<string>>>

  /** A handler instance the router created: class `cls` of the module loaded
      from `file`, created while routing `path`; `attrs` are its attributes. */
  datatype Instance = Instance(path: string, file: string, cls: string, attrs: set<string>)

  /** An entry of `openapi_map`: the grouping key, the instance and its
      method map (upper-cased HTTP method -> name of the bound method). */
  datatype Group = Group(key: string, instance: Instance, methodMap: map<string, string>)

  /** One `add_route(path, instance)` call, with the method map the router
      passed to `set_default_responders` just before it. Falcon builds its
      own map from the instance, and keeps only the last route added for a
      path template; neither is modelled. */
  datatype Route = Route(path: string, resource: Instance, methodMap: map<string, string>)

  /** `__get_destination_info(definition, fallback)`, the caller's directory
      given as `callerDir`. `operationId` is read right to left: the method,
      then the class, the rest being the module; otherwise the `x-falcon`
      block names module and class, and the method defaults to `on_<verb>`. */
  function GetDestinationInfo(definition: Value, fallback: string, callerDir: string): Result<Destination> {
    var hasOp :- ContainsStr(definition, "operationId");
    if hasOp then
      var op :- Index(definition, "operationId");
      FromOperationId(op, callerDir)
    else
      var hasX :- ContainsStr(definition, "x-falcon");
      if !hasX then Err(NoDestination)
      else
        var block :- Index(definition, "x-falcon");
        FromXFalcon(block, fallback, callerDir)
  }

  /** The `operationId` branch: pop the method, then the class; the rest is
      the module. */
  function FromOperationId(op: Value, callerDir: string): Result<Destination> {
    if !op.Str? then Err(AttributeError)            // no .split
    else
      var parts := Split(op.s, '.');
      if |parts| < 2 then Err(IndexError)           // pop from empty list
      else
        var modParts := parts[..|parts| - 2];
        Ok(Destination(Join(".", modParts), Str(parts[|parts| - 1]), Str(parts[|parts| - 2]),
                       callerDir + Join("/", modParts) + ".py"))
  }

  /** The `x-falcon` branch: module and class from the block, the method from
      it too or else `on_` and the lower-cased HTTP method. */
  function FromXFalcon(block: Value, fallback: string, callerDir: string): Result<Destination> {
    var m :- Index(block, "module");
    var c :- Index(block, "class");
    if !m.Str? then Err(AttributeError)           // no .split
    else
      var hasMethod :- ContainsStr(block, "method");
      var responder :- if hasMethod then Index(block, "method") else Ok(Str("on_" + Lower(fallback)));
      Ok(Destination(m.s, responder, c, callerDir + Join("/", Split(m.s, '.')) + ".py"))
  }

  /** The position of the group filed under `key`, if any. */
  function FindGroup(groups: seq<Group>, key: string): (r: Option<nat>)
    ensures r.Some? ==> r.value < |groups| && groups[r.value].key == key
    ensures r.None? <==> forall k :: 0 <= k < |groups| ==> groups[k].key != key
  {
    if groups == [] then None
    else if groups[0].key == key then Some(0)
    else
      var r := FindGroup(groups[1..], key);
      if r.None? then
        assert forall k :: 1 <= k < |groups| ==> groups[k].key == groups[1..][k - 1].key;
        None
      else Some(r.value + 1)
  }

  /** One pass of the inner loop of `__init__`: the operation `verb` of the
      route `path` is added to the group of its destination, the group being
      created (and its class instantiated) the first time its key is seen. An
      operation whose destination cannot be resolved is skipped; failures
      after that are not caught. */
  function AddOperation(groups: seq<Group>, path: string, verb: string, definition: Value,
                        registry: Registry, callerDir: string): Result<seq<Group>>
  {
    var dest := GetDestinationInfo(definition, verb, callerDir);
    if dest.Err? then Ok(groups)                                  // except: continue
    else
      var d := dest.value;
      if !d.cls.Str? then Err(TypeError)                          // dest_module + dest_class
      else
        var key := d.modName + d.cls.s;
        var found := FindGroup(groups, key);
        var groups' :-
          if found.Some? then Ok(groups)
          else if d.file !in registry then Err(FileNotFound(d.file))
          else if d.cls.s !in registry[d.file] then Err(AttributeError)
          else Ok(groups + [Group(key, Instance(path, d.file, d.cls.s, registry[d.file][d.cls.s]), map[])]);
        var g := if found.Some? then found.value else |groups|;
        var grp := groups'[g];
        if !d.responder.Str? then Err(TypeError)                  // getattr with a non-string name
        else if d.responder.s !in grp.instance.attrs then Err(AttributeError)
        else Ok(groups'[g := grp.(methodMap := grp.methodMap[Upper(verb) := d.responder.s])])
  }

  /** The inner loop of `__init__` from operation `i` on. */
  function GroupsFrom(methods: seq<Field>, i: nat, groups: seq<Group>, path: string,
                      registry: Registry, callerDir: string): Result<seq<Group>>
    requires i <= |methods|
    decreases |methods| - i
  {
    if i == |methods| then Ok(groups)
    else
      var groups' :- AddOperation(groups, path, methods[i].key, methods[i].val, registry, callerDir);
      GroupsFrom(methods, i + 1, groups', path, registry, callerDir)
  }

  /** The `add_route` calls for the groups of one path, in their order. */
  function RoutesOf(path: string, groups: seq<Group>): (r: seq<Route>)
    ensures |r| == |groups|
    ensures forall k :: 0 <= k < |r| ==> r[k] == Route(path, groups[k].instance, groups[k].methodMap)
  {
    seq(|groups|, k requires 0 <= k < |groups| => Route(path, groups[k].instance, groups[k].methodMap))
  }

  /** The outer loop of `__init__` from path `i` on, `routes` being the routes
      registered so far. */
  function RoutesFrom(paths: seq<Field>, i: nat, basePath: string, registry: Registry, callerDir: string,
                      routes: seq<Route>): Result<seq<Route>>
    requires i <= |paths|
    decreases |paths| - i
  {
    if i == |paths| then Ok(routes)
    else
      var p := paths[i];
      if !p.val.Obj? then Err(AttributeError)                     // http_methods.items()
      else
        var path := basePath + p.key;
        var groups :- GroupsFrom(p.val.fields, 0, [], path, registry, callerDir);
        RoutesFrom(paths, i + 1, basePath, registry, callerDir, routes + RoutesOf(path, groups))
  }

  /** The routes `__init__` registers for a loaded document, after `routes`. */
  function RoutesInto(doc: Value, basePath: string, registry: Registry, callerDir: string, routes: seq<Route>)
    : Result<seq<Route>>
  {
    var paths :- Index(doc, "paths");
    if !paths.Obj? then Err(AttributeError)
    else RoutesFrom(paths.fields, 0, basePath, registry, callerDir, routes)
  }

  /** The routes `__init__` registers for a loaded document. */
  function BuildRoutes(doc: Value, basePath: string, registry: Registry, callerDir: string): Result<seq<Route>> {
    RoutesInto(doc, basePath, registry, callerDir, [])
  }

  /** The document `__load_spec` loads: the first non-empty of `raw_json`,
      `raw_yaml` and `file_path`, the default file being `openapi-spec.yml`
      or else `openapi-spec.yaml` when none is given. A file is read as JSON
      or YAML by its ending; any other file leaves the document unassigned. */
  function LoadDoc(filePath: string, rawJson: string, rawYaml: string, env: Env): Result<Value> {
    var fp :-
      if filePath == "" && rawJson == "" && rawYaml == "" then
        if "openapi-spec.yml" in env.files then Ok("openapi-spec.yml")
        else if "openapi-spec.yaml" in env.files then Ok("openapi-spec.yaml")
        else Err(NoSpecFile(""))
      else Ok(filePath);
    if rawJson != "" then env.parseJson(rawJson)
    else if rawYaml != "" then env.parseYaml(rawYaml)
    else if fp !in env.files then Err(FileNotFound(fp))
    else if EndsWith(fp, "json") then env.parseJson(env.files[fp])
    else if EndsWith(fp, "yml") || EndsWith(fp, "yaml") then env.parseYaml(env.files[fp])
    else Err(SpecNotLoaded)
  }

  /** `__load_spec`: the document and its base path. */
  function LoadSpecOf(filePath: string, rawJson: string, rawYaml: string, env: Env): Result<(Value, string)> {
    var doc :- LoadDoc(filePath, rawJson, rawYaml, env);
    var path :- DeriveBasePath(doc, env.urlPath);
    Ok((doc, path))
  }

  /** `__load_spec`, step by step. */
  method LoadSpec(filePath: string, rawJson: string, rawYaml: string, env: Env) returns (r: Result<(Value, string)>)
    ensures r == LoadSpecOf(filePath, rawJson, rawYaml, env)
  {
    var loaded := LoadDoc(filePath, rawJson, rawYaml, env);
    if loaded.Err? {
      return Err(loaded.error);
    }
    var openapi := loaded.value;
    var path := "";
    var hasServers := ContainsStr(openapi, "servers");
    if hasServers.Err? {
      return Err(hasServers.error);
    }
    var servers := if hasServers.value then Index(openapi, "servers") else Ok(Null);
    if servers.Err? {
      return Err(servers.error);
    }
    if hasServers.value && servers.value.List? {
      var xs := servers.value.items;
      var i := 0;
      while i < |xs|
        invariant 0 <= i <= |xs|
        invariant ServersFrom(xs, i, path, env.urlPath) == ServersFrom(xs, 0, "", env.urlPath)
      {
        var hasUrl := ContainsStr(xs[i], "url");
        if hasUrl.Err? {
          return Err(hasUrl.error);
        }
        if hasUrl.value {
          var url := Index(xs[i], "url");
          if url.Err? {
            return Err(url.error);
          }
          var p := env.urlPath(url.value);
          if p.Err? {
            return Err(p.error);
          }
          path := p.value;
        }
        i := i + 1;
      }
    } else {
      var hasBase := ContainsStr(openapi, "basePath");
      if hasBase.Err? {
        return Err(hasBase.error);
      }
      if hasBase.value {
        var b := Index(openapi, "basePath");
        if b.Err? {
          return Err(b.error);
        }
        if b.value.Str? {
          path := b.value.s;
        }
      }
    }
    return Ok((openapi, path));
  }

  /** The operations of one path grouped by handler class, step by step. */
  method GroupOperations(methods: seq<Field>, path: string, registry: Registry, callerDir: string)
    returns (r: Result<seq<Group>>)
    ensures r == GroupsFrom(methods, 0, [], path, registry, callerDir)
  {
    var openapiMap: seq<Group> := [];
    var i := 0;
    while i < |methods|
      invariant 0 <= i <= |methods|
      invariant GroupsFrom(methods, i, openapiMap, path, registry, callerDir) == GroupsFrom(methods, 0, [], path, registry, callerDir)
    {
      var verb := methods[i].key;
      var dest := GetDestinationInfo(methods[i].val, verb, callerDir);
      if dest.Err? {
        i := i + 1;
        continue;
      }
      var d := dest.value;
      var httpMethod := Upper(verb);
      if !d.cls.Str? {
        return Err(TypeError);
      }
      var className := d.modName + d.cls.s;
      var found := FindGroup(openapiMap, className);
      if found.None? {
        if d.file !in registry {
          return Err(FileNotFound(d.file));
        }
        if d.cls.s !in registry[d.file] {
          return Err(AttributeError);
        }
        openapiMap := openapiMap + [Group(className, Instance(path, d.file, d.cls.s, registry[d.file][d.cls.s]), map[])];
      }
      var g := if found.Some? then found.value else |openapiMap| - 1;
      var grp := openapiMap[g];
      if !d.responder.Str? {
        return Err(TypeError);
      }
      if d.responder.s !in grp.instance.attrs {
        return Err(AttributeError);
      }
      openapiMap := openapiMap[g := grp.(methodMap := grp.methodMap[httpMethod := d.responder.s])];
      i := i + 1;
    }
    return Ok(openapiMap);
  }

  class OpenApiRouter {
    /** `self.openapi`. */
    var openapi: Value
    /** `self.base_path`. */
    var basePath: string
    /** The `add_route` calls made so far, in order. */
    var routes: seq<Route>

    /** A router with nothing loaded and no route. */
    constructor Empty()
      ensures openapi == Null && basePath == "" && routes == []
    {
      openapi := Null;
      basePath := "";
      routes := [];
    }

    /** The body of `__init__` after loading: one route per handler group of
        every path, at the base path followed by the path. */
    method AddRoutes(registry: Registry, callerDir: string) returns (err: Option<Error>)
      modifies this
      ensures openapi == old(openapi) && basePath == old(basePath)
      ensures var r := RoutesInto(openapi, basePath, registry, callerDir, old(routes));
        && (r.Ok? ==> err.None? && routes == r.value)
        && (r.Err? ==> err == Some(r.error))
    {
      var paths := Index(openapi, "paths");
      if paths.Err? {
        return Some(paths.error);
      }
      if !paths.value.Obj? {
        return Some(AttributeError);
      }
      var ps := paths.value.fields;
      ghost var routes0 := routes;
      var i := 0;
      while i < |ps|
        invariant 0 <= i <= |ps|
        invariant openapi == old(openapi) && basePath == old(basePath)
        invariant RoutesFrom(ps, i, basePath, registry, callerDir, routes) == RoutesFrom(ps, 0, basePath, registry, callerDir, routes0)
      {
        if !ps[i].val.Obj? {
          return Some(AttributeError);
        }
        var path := basePath + ps[i].key;
        var groups := GroupOperations(ps[i].val.fields, path, registry, callerDir);
        if groups.Err? {
          return Some(groups.error);
        }
        var j := 0;
        ghost var before := routes;
        while j < |groups.value|
          invariant 0 <= j <= |groups.value|
          invariant openapi == old(openapi) && basePath == old(basePath)
          invariant routes == before + RoutesOf(path, groups.value[..j])
        {
          var grp := groups.value[j];
          routes := routes + [Route(path, grp.instance, grp.methodMap)];
          j := j + 1;
        }
        assert groups.value[..j] == groups.value;
        i := i + 1;
      }
      return None;
    }

    /** `OpenApiRouter(file_path, raw_json, raw_yaml)`. */
    static method New(filePath: string, rawJson: string, rawYaml: string, env: Env, registry: Registry, callerDir: string)
      returns (r: Result<OpenApiRouter>)
      ensures var spec := LoadSpecOf(filePath, rawJson, rawYaml, env);
        && (spec.Err? ==> r == Err(spec.error))
        && (spec.Ok? ==>
              var built := BuildRoutes(spec.value.0, spec.value.1, registry, callerDir);
              && (built.Err? ==> r == Err(built.error))
              && (built.Ok? ==> r.Ok? && fresh(r.value) && r.value.openapi == spec.value.0
                                && r.value.basePath == spec.value.1 && r.value.routes == built.value))
    {
      var spec := LoadSpec(filePath, rawJson, rawYaml, env);
      if spec.Err? {
        return Err(spec.error);
      }
      var router := new OpenApiRouter.Empty();
      router.openapi := spec.value.0;
      router.basePath := spec.value.1;
      var err := router.AddRoutes(registry, callerDir);
      if err.Some? {
        return Err(err.value);
      }
      return Ok(router);
    }
  }
}
