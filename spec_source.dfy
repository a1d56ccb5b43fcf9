/** What both loaders of the document share: the environment they read
    (files on disk, the JSON and YAML parsers, urlparse) and the rule that
    derives the base path from a loaded document. */
module SpecSource {
  import opened PyValue

  /** The outside world a loader sees. `files` maps each existing path to its
      text; the parsers stand for json.loads / yaml.safe_load; `urlPath` is
      `urlparse(v).path`. */
  datatype Env = Env(
    files: map<string, string>,
    parseJson: string -> Result<Value>,
    parseYaml: string -> Result<Value>,
    urlPath: Value -> Result<string>)

  /** The `servers` loop from entry `i` on, `path` being the base path so far:
      every entry that has a `url` overwrites it. */
  function ServersFrom(servers: seq<Value>, i: nat, path: string, urlPath: Value -> Result<string>): Result<string>
    requires i <= |servers|
    decreases |servers| - i
  {
    if i == |servers| then Ok(path)
    else
      var hasUrl :- ContainsStr(servers[i], "url");
      if !hasUrl then ServersFrom(servers, i + 1, path, urlPath)
      else
        var url :- Index(servers[i], "url");
        var p :- urlPath(url);
        ServersFrom(servers, i + 1, p, urlPath)
  }

  /** The base path of a document: from `servers` when it is a list,
      otherwise `basePath` when it is a string, otherwise empty. */
  function DeriveBasePath(doc: Value, urlPath: Value -> Result<string>): Result<string> {
    var hasServers :- ContainsStr(doc, "servers");
    var servers :- if hasServers then Index(doc, "servers") else Ok(Null);
    if hasServers && servers.List? then ServersFrom(servers.items, 0, "", urlPath)
    else
      var hasBase :- ContainsStr(doc, "basePath");
      if !hasBase then Ok("")
      else
        var b :- Index(doc, "basePath");
        Ok(if b.Str? then b.s else "")
  }

  /** A `servers` entry that is a dict with a `url`. */
  predicate HasUrl(server: Value) {
    server.Obj? && "url" in Keys(server.fields)
  }

  /** The index of the last entry from `i` on that is a dict with a `url`. */
  function LastWithUrl(servers: seq<Value>, i: nat): (r: Option<nat>)
    requires i <= |servers|
    ensures r.Some? ==> i <= r.value < |servers| && HasUrl(servers[r.value])
    ensures r.Some? ==> forall k :: r.value < k < |servers| ==> !HasUrl(servers[k])
    ensures r.None? ==> forall k :: i <= k < |servers| ==> !HasUrl(servers[k])
    decreases |servers| - i
  {
    if i == |servers| then None
    else
      var later := LastWithUrl(servers, i + 1);
      if later.Some? then later
      else if HasUrl(servers[i]) then Some(i)
      else None
  }
}
