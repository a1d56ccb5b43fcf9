/** The OpenApi loader of falcon_openapi/openapi.py: it picks the source of
    the document (raw JSON, raw YAML, a file, or a dict already parsed),
    falling back to `openapi-spec.yml` or `openapi-spec.yaml` in the app
    directory, loads it, and derives the base path. The app directory is
    given, as are the files and parsers (see `SpecSource.Env`). */
module Loader {
  import opened PyValue
  import opened PyStr
  import opened SpecSource

  /** What the source selection leaves behind: `self.file_path` (when it was
      set) and `self.spec`. */
  datatype Loaded = Loaded(filePath: Option<string>, spec: Value)

  /** The default file: `openapi-spec.yml` in the app directory, else
      `openapi-spec.yaml`, else FileNotFoundError naming the directory. */
  function DefaultFile(appDir: string, env: Env): Result<string> {
    if appDir + "openapi-spec.yml" in env.files then Ok(appDir + "openapi-spec.yml")
    else if appDir + "openapi-spec.yaml" in env.files then Ok(appDir + "openapi-spec.yaml")
    else Err(NoSpecFile(appDir))
  }

  /** No source argument is given (each is falsy). */
  predicate NoSource(filePath: string, rawJson: string, rawYaml: string, rawDict: Value) {
    filePath == "" && rawJson == "" && rawYaml == "" && !Truthy(rawDict)
  }

  /** The source selection of `__init__`: the first truthy of `raw_json`,
      `raw_yaml`, `file_path` and `raw_dict`. A file is read as JSON when its
      name ends with `json`, as YAML when it ends with `yml` or `yaml`; any
      other file leaves `self.spec` unset, and reading it raises
      AttributeError. */
  function LoadSource(appDir: string, filePath: string, rawJson: string, rawYaml: string, rawDict: Value, env: Env)
    : Result<Loaded>
  {
    var fp :- if NoSource(filePath, rawJson, rawYaml, rawDict) then DefaultFile(appDir, env) else Ok(filePath);
    if rawJson != "" then
      var d :- env.parseJson(rawJson);
      Ok(Loaded(None, d))
    else if rawYaml != "" then
      var d :- env.parseYaml(rawYaml);
      Ok(Loaded(None, d))
    else if fp != "" then
      var d :- FromFile(fp, env);
      Ok(Loaded(Some(fp), d))
    else Ok(Loaded(None, rawDict))      // only `raw_dict` is left, and it is truthy
  }

  /** Reading the document from file `fp`: JSON when the name ends with
      `json`, YAML when it ends with `yml` or `yaml`; any other name leaves
      `self.spec` unset, and reading it raises AttributeError. */
  function FromFile(fp: string, env: Env): Result<Value> {
    if fp !in env.files then Err(FileNotFound(fp))
    else if EndsWith(fp, "json") then env.parseJson(env.files[fp])
    else if EndsWith(fp, "yml") || EndsWith(fp, "yaml") then env.parseYaml(env.files[fp])
    else Err(AttributeError)
  }

  /** Everything `__init__` computes: the loaded document and the base path. */
  function Opened(appDir: string, filePath: string, rawJson: string, rawYaml: string, rawDict: Value, env: Env)
    : Result<(Loaded, string)>
  {
    var loaded :- LoadSource(appDir, filePath, rawJson, rawYaml, rawDict, env);
    var base :- DeriveBasePath(loaded.spec, env.urlPath);
    Ok((loaded, base))
  }

  class OpenApi {
    /** `self.app_dir`. */
    var appDir: string
    /** `self.file_path`, None while the attribute does not exist. */
    var filePath: Option<string>
    /** `self.spec`. */
    var spec: Value
    /** `self.base_path`. */
    var basePath: string

    /** An object before `__init__` has run. */
    constructor Empty()
      ensures appDir == "" && filePath.None? && spec == Null && basePath == ""
    {
      appDir := "";
      filePath := None;
      spec := Null;
      basePath := "";
    }

    /** The body of `__init__`, the app directory given. */
    method Init(appDir0: string, filePath0: string, rawJson: string, rawYaml: string, rawDict: Value, env: Env)
      returns (err: Option<Error>)
      modifies this
      ensures var r := Opened(appDir0, filePath0, rawJson, rawYaml, rawDict, env);
        && (r.Ok? ==>
              && err.None?
              && appDir == appDir0
              && filePath == (if r.value.0.filePath.Some? then r.value.0.filePath else old(filePath))
              && spec == r.value.0.spec
              && basePath == r.value.1)
        && (r.Err? ==> err == Some(r.error))
    {
      appDir := appDir0;
      err := SelectSource(filePath0, rawJson, rawYaml, rawDict, env);
      if err.None? {
        err := SetBasePath(env.urlPath);
      }
    }

    /** Lines 23-46 of `__init__`: the document is chosen and loaded into
        `spec`, and `filePath` is set when a file is read. */
    method SelectSource(filePath0: string, rawJson: string, rawYaml: string, rawDict: Value, env: Env)
      returns (err: Option<Error>)
      modifies this
      ensures appDir == old(appDir) && basePath == old(basePath)
      ensures var r := LoadSource(appDir, filePath0, rawJson, rawYaml, rawDict, env);
        && (r.Ok? ==>
              && err.None?
              && filePath == (if r.value.filePath.Some? then r.value.filePath else old(filePath))
              && spec == r.value.spec)
        && (r.Err? ==> err == Some(r.error))
    {
      var fp := filePath0;
      if NoSource(fp, rawJson, rawYaml, rawDict) {
        fp := appDir + "openapi-spec.yml";
        filePath := Some(fp);
        if fp !in env.files {
          fp := appDir + "openapi-spec.yaml";
          filePath := Some(fp);
          if fp !in env.files {
            return Some(NoSpecFile(appDir));
          }
        }
      }
      assert fp == (if NoSource(filePath0, rawJson, rawYaml, rawDict) then DefaultFile(appDir, env).value else filePath0);
      if rawJson != "" {
        var d := env.parseJson(rawJson);
        if d.Err? {
          return Some(d.error);
        }
        spec := d.value;
      } else if rawYaml != "" {
        var d := env.parseYaml(rawYaml);
        if d.Err? {
          return Some(d.error);
        }
        spec := d.value;
      } else if fp != "" {
        filePath := Some(fp);
        var d := ReadFile(fp, env);
        if d.Err? {
          return Some(d.error);
        }
        spec := d.value;
      } else {
        spec := rawDict;
      }
      return None;
    }

    /** Opening and parsing the file `self.file_path` names. */
    static method ReadFile(fp: string, env: Env) returns (d: Result<Value>)
      ensures d == FromFile(fp, env)
    {
      if fp !in env.files {
        return Err(FileNotFound(fp));
      }
      var text := env.files[fp];
      if EndsWith(fp, "json") {
        d := env.parseJson(text);
      } else if EndsWith(fp, "yml") || EndsWith(fp, "yaml") {
        d := env.parseYaml(text);
      } else {
        d := Err(AttributeError);      // self.spec was never set
      }
    }

    /** Lines 48-58 of `__init__`: `basePath` is derived from `spec`, the
        `servers` loop overwriting it once per entry with a `url`. */
    method SetBasePath(urlPath: Value -> Result<string>) returns (err: Option<Error>)
      modifies this
      ensures appDir == old(appDir) && filePath == old(filePath) && spec == old(spec)
      ensures var r := DeriveBasePath(spec, urlPath);
        && (r.Ok? ==> err.None? && basePath == r.value)
        && (r.Err? ==> err == Some(r.error))
    {
      basePath := "";
      var hasServers := ContainsStr(spec, "servers");
      if hasServers.Err? {
        return Some(hasServers.error);
      }
      var servers := if hasServers.value then Index(spec, "servers") else Ok(Null);
      if servers.Err? {
        return Some(servers.error);
      }
      if hasServers.value && servers.value.List? {
        var xs := servers.value.items;
        var i := 0;
        while i < |xs|
          invariant 0 <= i <= |xs|
          invariant appDir == old(appDir) && filePath == old(filePath) && spec == old(spec)
          invariant ServersFrom(xs, i, basePath, urlPath) == ServersFrom(xs, 0, "", urlPath)
        {
          var hasUrl := ContainsStr(xs[i], "url");
          if hasUrl.Err? {
            return Some(hasUrl.error);
          }
          if hasUrl.value {
            var url := Index(xs[i], "url");
            if url.Err? {
              return Some(url.error);
            }
            var p := urlPath(url.value);
            if p.Err? {
              return Some(p.error);
            }
            basePath := p.value;
          }
          i := i + 1;
        }
      } else {
        var hasBase := ContainsStr(spec, "basePath");
        if hasBase.Err? {
          return Some(hasBase.error);
        }
        if hasBase.value {
          var b := Index(spec, "basePath");
          if b.Err? {
            return Some(b.error);
          }
          if b.value.Str? {
            basePath := b.value.s;
          }
        }
      }
      return None;
    }

    /** `OpenApi(file_path, raw_json, raw_yaml, raw_dict)` called from a file in `appDir`. */
    static method New(appDir: string, filePath: string, rawJson: string, rawYaml: string, rawDict: Value, env: Env)
      returns (r: Result<OpenApi>)
      ensures var o := Opened(appDir, filePath, rawJson, rawYaml, rawDict, env);
        && (o.Err? ==> r == Err(o.error))
        && (o.Ok? ==> r.Ok? && fresh(r.value) && r.value.appDir == appDir && r.value.filePath == o.value.0.filePath
                      && r.value.spec == o.value.0.spec && r.value.basePath == o.value.1)
    {
      var api := new OpenApi.Empty();
      var err := api.Init(appDir, filePath, rawJson, rawYaml, rawDict, env);
      if err.Some? {
        return Err(err.value);
      }
      return Ok(api);
    }
  }
}
