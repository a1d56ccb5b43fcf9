/** The OpenApiValidator middleware of falcon_openapi/validator.py: at
    construction it files every parameter definition of the document under
    its path, its method and its name (compiling string patterns once); for
    each request, process_resource looks up the definitions of the matched
    route and checks the request's parameters against them. */
module Validator {
  import opened PyValue
  import opened PyStr
  import opened Validate
  import opened Checks
  import SpecSource
  import Loader

  /** The compiled rules, `self.spec`: path -> method -> the `request` dict
      (parameter name -> definition), which exists only once a parameter has
      been filed for that method. */
  type Rules = map<string, map<string, Option<seq<Field>>>>

  /** What process_resource does with a request: return, or raise. */
  datatype Verdict = Accepted | Refused(error: Error)

  /** `re.compile(pattern)`: a string becomes a compiled pattern, a compiled
      pattern is returned as it is, anything else is a TypeError. */
  function CompilePattern(p: Value): (r: Result<Value>)
    ensures r.Ok? <==> p.Str? || p.Regex?
    ensures r.Ok? ==> r.value.Regex? && NumOf(r.value).None?
    ensures p.Str? ==> r == Ok(Regex(p.s))
  {
    match p
    case Str(s) => Ok(Regex(s))
    case Regex(_) => Ok(p)
    case _ => Err(TypeError)
  }

  /** One entry of `definition['parameters']`: its name popped off, and
      `schema['pattern']` compiled when the schema has one. The result is the
      entry of the `request` dict, filed under the name. */
  function CompileParam(param: Value): Result<Field> {
    match param
    case Obj(fs) =>
      var name :- Index(param, "name");
      if !name.Str? then Err(TypeError)
      else
        var def := RemoveField(fs, "name");
        (match Lookup(def, "schema")
         case None => Ok(Field(name.s, Obj(def)))
         case Some(sch) =>
           var hasPattern :- ContainsStr(sch, "pattern");
           if !hasPattern then Ok(Field(name.s, Obj(def)))
           else
             var pat :- Index(sch, "pattern");
             var compiled :- CompilePattern(pat);
             Ok(Field(name.s, Obj(SetField(def, "schema", Obj(SetField(sch.fields, "pattern", compiled)))))))
    case List(_) => Err(TypeError)      // list.pop('name')
    case _ => Err(AttributeError)       // no .pop at all
  }

  /** The parameter loop of one method from entry `i` on, `req` being the
      `request` dict so far (None until the first parameter is filed). */
  function CompileParamsFrom(params: seq<Value>, i: nat, req: Option<seq<Field>>): Result<Option<seq<Field>>>
    requires i <= |params|
    decreases |params| - i
  {
    if i == |params| then Ok(req)
    else
      var f :- CompileParam(params[i]);
      var fs := if req.Some? then req.value else [];
      CompileParamsFrom(params, i + 1, Some(SetField(fs, f.key, f.val)))
  }

  /** One method of a path: `definition.get('parameters', {})`, iterated. */
  function CompileMethod(definition: Value, req: Option<seq<Field>>): Result<Option<seq<Field>>> {
    if !definition.Obj? then Err(AttributeError)
    else
      var params :- Iterate(GetOr(definition.fields, "parameters", Obj([])));
      CompileParamsFrom(params, 0, req)
  }

  /** The method loop of one path from entry `i` on. */
  function CompileMethodsFrom(methods: seq<Field>, i: nat, acc: map<string, Option<seq<Field>>>)
    : Result<map<string, Option<seq<Field>>>>
    requires i <= |methods|
    decreases |methods| - i
  {
    if i == |methods| then Ok(acc)
    else
      var m := methods[i];
      var start := if m.key in acc then acc[m.key] else None;
      var req :- CompileMethod(m.val, start);
      CompileMethodsFrom(methods, i + 1, acc[m.key := req])
  }

  /** The path loop from entry `i` on. */
  function CompilePathsFrom(paths: seq<Field>, i: nat, acc: Rules): Result<Rules>
    requires i <= |paths|
    decreases |paths| - i
  {
    if i == |paths| then Ok(acc)
    else
      var p := paths[i];
      var start := if p.key in acc then acc[p.key] else map[];
      if !p.val.Obj? then Err(AttributeError)       // methods.items()
      else
        var ms :- CompileMethodsFrom(p.val.fields, 0, start);
        CompilePathsFrom(paths, i + 1, acc[p.key := ms])
  }

  /** The rules the constructor compiles from a document into `rules`. */
  function CompileInto(doc: Value, rules: Rules): Result<Rules> {
    var paths :- Index(doc, "paths");
    if !paths.Obj? then Err(AttributeError)
    else CompilePathsFrom(paths.fields, 0, rules)
  }

  /** The rules compiled from a document. */
  function CompileRules(doc: Value): Result<Rules> {
    CompileInto(doc, map[])
  }

  /** Every filed definition is a dict. */
  predicate WellFormed(rules: Rules) {
    forall uri, verb :: uri in rules && verb in rules[uri] && rules[uri][verb].Some? ==>
      forall k :: 0 <= k < |rules[uri][verb].value| ==> rules[uri][verb].value[k].val.Obj?
  }

  /** is_required: `'required' in spec_def and spec_def['required']`. */
  predicate IsRequired(def: Value)
    requires def.Obj?
  {
    Truthy(GetOr(def.fields, "required", Bool(false)))
  }

  /** The definitions process_resource checks: `self.spec[uri][method]['request']`,
      each lookup defaulting to an empty dict. */
  function RequestDefs(rules: Rules, verb: string, uri: string): seq<Field> {
    var m := Lower(verb);
    if uri in rules && m in rules[uri] && rules[uri][m].Some? then rules[uri][m].value else []
  }

  /** The loop of process_resource from definition `i` on. */
  function DefsVerdict(defs: seq<Field>, i: nat, params: seq<Field>, matches: Matcher): Verdict
    requires i <= |defs|
    requires forall k :: 0 <= k < |defs| ==> defs[k].val.Obj?
    decreases |defs| - i
  {
    if i == |defs| then Accepted
    else
      var param := GetOr(params, defs[i].key, Null);
      if !Truthy(param) && IsRequired(defs[i].val) then Refused(ParamNotPassed)
      else if !Truthy(param) then DefsVerdict(defs, i + 1, params, matches)
      else
        var c := ValidateParam(param, defs[i].val, Null, matches);
        if c.result.Err? then Refused(c.result.error)
        else DefsVerdict(defs, i + 1, params, matches)
  }

  /** process_resource for a request with this method, route template and
      query parameters. */
  function ResourceVerdict(rules: Rules, verb: string, uri: string, params: seq<Field>, matches: Matcher): Verdict
    requires WellFormed(rules)
  {
    DefsVerdict(RequestDefs(rules, verb, uri), 0, params, matches)
  }

  /** The parameter loop of the constructor for one method. */
  method CompileParams(params: seq<Value>, req0: Option<seq<Field>>) returns (r: Result<Option<seq<Field>>>)
    ensures r == CompileParamsFrom(params, 0, req0)
  {
    var req := req0;
    var i := 0;
    while i < |params|
      invariant 0 <= i <= |params|
      invariant CompileParamsFrom(params, i, req) == CompileParamsFrom(params, 0, req0)
    {
      var f := CompileParam(params[i]);
      if f.Err? {
        return Err(f.error);
      }
      if req.None? {
        req := Some([]);
      }
      req := Some(SetField(req.value, f.value.key, f.value.val));
      i := i + 1;
    }
    return Ok(req);
  }

  /** The method loop of the constructor for one path. */
  method CompileMethods(methods: seq<Field>, acc0: map<string, Option<seq<Field>>>)
    returns (r: Result<map<string, Option<seq<Field>>>>)
    ensures r == CompileMethodsFrom(methods, 0, acc0)
  {
    var acc := acc0;
    var i := 0;
    while i < |methods|
      invariant 0 <= i <= |methods|
      invariant CompileMethodsFrom(methods, i, acc) == CompileMethodsFrom(methods, 0, acc0)
    {
      var verb := methods[i].key;
      var definition := methods[i].val;
      ghost var before := acc;
      if verb !in acc {
        acc := acc[verb := None];
      }
      if !definition.Obj? {
        return Err(AttributeError);
      }
      var params := Iterate(GetOr(definition.fields, "parameters", Obj([])));
      if params.Err? {
        return Err(params.error);
      }
      var req := CompileParams(params.value, acc[verb]);
      if req.Err? {
        return Err(req.error);
      }
      assert CompileMethod(definition, acc[verb]) == req;
      assert acc[verb := req.value] == before[verb := req.value];
      acc := acc[verb := req.value];
      i := i + 1;
    }
    return Ok(acc);
  }

  class OpenApiValidator {
    /** `self.openapi`, null until `__init__` has loaded the document. */
    var openapi: Loader.OpenApi?
    /** `self.spec`. */
    var spec: Rules

    /** A validator with no document and no rules yet. */
    constructor Empty()
      ensures openapi == null && spec == map[]
    {
      openapi := null;
      spec := map[];
    }

    /** The body of `__init__`: file every parameter of the document into
        `spec`, path by path. */
    method Compile(doc: Value) returns (err: Option<Error>)
      modifies this
      ensures openapi == old(openapi)
      ensures CompileInto(doc, old(spec)).Ok? ==> err.None? && spec == CompileInto(doc, old(spec)).value
      ensures CompileInto(doc, old(spec)).Err? ==> err == Some(CompileInto(doc, old(spec)).error)
    {
      var paths := Index(doc, "paths");
      if paths.Err? {
        return Some(paths.error);
      }
      if !paths.value.Obj? {
        return Some(AttributeError);
      }
      var ps := paths.value.fields;
      ghost var spec0 := spec;
      var i := 0;
      while i < |ps|
        invariant 0 <= i <= |ps|
        invariant openapi == old(openapi)
        invariant CompilePathsFrom(ps, i, spec) == CompilePathsFrom(ps, 0, spec0)
      {
        var uri := ps[i].key;
        var methods := ps[i].val;
        ghost var before := spec;
        if uri !in spec {
          spec := spec[uri := map[]];
        }
        if !methods.Obj? {
          return Some(AttributeError);
        }
        var ms := CompileMethods(methods.fields, spec[uri]);
        if ms.Err? {
          return Some(ms.error);
        }
        assert spec[uri := ms.value] == before[uri := ms.value];
        spec := spec[uri := ms.value];
        i := i + 1;
      }
      return None;
    }

    /** `OpenApiValidator(**kwargs)`: load the document as `OpenApi(**kwargs)`
        does (from a file in `appDir`), then compile its rules. */
    static method New(appDir: string, filePath: string, rawJson: string, rawYaml: string, rawDict: Value,
                      env: SpecSource.Env)
      returns (r: Result<OpenApiValidator>)
      ensures var o := Loader.Opened(appDir, filePath, rawJson, rawYaml, rawDict, env);
        && (o.Err? ==> r == Err(o.error))
        && (o.Ok? ==>
              var rules := CompileRules(o.value.0.spec);
              && (rules.Ok? <==> r.Ok?)
              && (r.Ok? ==> fresh(r.value) && fresh(r.value.openapi) && r.value.openapi.spec == o.value.0.spec
                            && r.value.openapi.basePath == o.value.1 && r.value.spec == rules.value)
              && (r.Err? ==> r.error == rules.error))
    {
      var api :- Loader.OpenApi.New(appDir, filePath, rawJson, rawYaml, rawDict, env);
      var v := new OpenApiValidator.Empty();
      v.openapi := api;
      var err := v.Compile(api.spec);
      if err.Some? {
        return Err(err.value);
      }
      return Ok(v);
    }

    /** process_resource: check the query parameters of a request routed to
        `uri` against the definitions filed for its verb. */
    method ProcessResource(verb: string, uri: string, params: seq<Field>, matches: Matcher) returns (v: Verdict)
      requires WellFormed(spec)
      ensures v == ResourceVerdict(spec, verb, uri, params, matches)
    {
      var defs := RequestDefs(spec, verb, uri);
      if defs == [] {
        return Accepted;
      }
      var i := 0;
      while i < |defs|
        invariant 0 <= i <= |defs|
        invariant DefsVerdict(defs, i, params, matches) == DefsVerdict(defs, 0, params, matches)
      {
        var param := GetOr(params, defs[i].key, Null);
        var required := IsRequired(defs[i].val);
        if !Truthy(param) && required {
          return Refused(ParamNotPassed);
        } else if Truthy(param) {
          var c := CheckParam(param, defs[i].val, Null, matches);
          if c.result.Err? {
            return Refused(c.result.error);
          }
        }
        i := i + 1;
      }
      return Accepted;
    }
  }
}
