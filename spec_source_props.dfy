/** What the base-path rule gives, stated without its loop. */
module SpecSourceProps {
  import opened PyValue
  import opened SpecSource

  /** Over dict entries, the `servers` loop yields the path of the LAST entry
      with a `url`, or the path it started from when none has one. */
  lemma {:induction false} ServersLastFrom(servers: seq<Value>, i: nat, path: string, urlPath: Value -> Result<string>)
    requires i <= |servers|
    requires forall k :: 0 <= k < |servers| ==> servers[k].Obj?
    requires forall k :: 0 <= k < |servers| && HasUrl(servers[k]) ==> urlPath(Lookup(servers[k].fields, "url").value).Ok?
    ensures var last := LastWithUrl(servers, i);
      ServersFrom(servers, i, path, urlPath)
        == if last.None? then Ok(path) else urlPath(Lookup(servers[last.value].fields, "url").value)
    decreases |servers| - i
  {
    if i < |servers| {
      var s := servers[i];
      assert ContainsStr(s, "url") == Ok(HasUrl(s));
      if HasUrl(s) {
        var p := urlPath(Lookup(s.fields, "url").value);
        ServersLastFrom(servers, i + 1, p.value, urlPath);
      } else {
        ServersLastFrom(servers, i + 1, path, urlPath);
      }
    }
  }

  /** The `servers` loop from the start: the last `url` wins, and a list with
      no `url` at all yields the empty path. */
  lemma ServersLastWins(servers: seq<Value>, urlPath: Value -> Result<string>)
    requires forall k :: 0 <= k < |servers| ==> servers[k].Obj?
    requires forall k :: 0 <= k < |servers| && HasUrl(servers[k]) ==> urlPath(Lookup(servers[k].fields, "url").value).Ok?
    ensures var last := LastWithUrl(servers, 0);
      && (last.None? ==> ServersFrom(servers, 0, "", urlPath) == Ok(""))
      && (last.Some? ==> ServersFrom(servers, 0, "", urlPath) == urlPath(Lookup(servers[last.value].fields, "url").value))
  {
    ServersLastFrom(servers, 0, "", urlPath);
  }

  /** A document whose `servers` is a list of dicts none of which has a `url`
      (an empty list among them) gets the empty base path, whatever its
      `basePath` says. */
  lemma ServersBlockBasePath(doc: seq<Field>, servers: seq<Value>, urlPath: Value -> Result<string>)
    requires Lookup(doc, "servers") == Some(List(servers))
    requires forall k :: 0 <= k < |servers| ==> servers[k].Obj? && !HasUrl(servers[k])
    ensures DeriveBasePath(Obj(doc), urlPath) == Ok("")
  {
    ServersLastFrom(servers, 0, "", urlPath);
  }

  /** A document with a `servers` list whose last dict with a `url` has `url`
      u gets `urlparse(u).path` as its base path. */
  lemma ServersGiveBasePath(doc: seq<Field>, servers: seq<Value>, j: nat, u: Value, urlPath: Value -> Result<string>)
    requires Lookup(doc, "servers") == Some(List(servers))
    requires forall k :: 0 <= k < |servers| ==> servers[k].Obj?
    requires j < |servers| && Lookup(servers[j].fields, "url") == Some(u)
    requires forall k :: j < k < |servers| ==> !HasUrl(servers[k])
    requires forall k :: 0 <= k < |servers| && HasUrl(servers[k]) ==> urlPath(Lookup(servers[k].fields, "url").value).Ok?
    ensures DeriveBasePath(Obj(doc), urlPath) == urlPath(u)
  {
    ServersLastFrom(servers, 0, "", urlPath);
    var last := LastWithUrl(servers, 0);
    assert HasUrl(servers[j]);
    assert last.Some? && last.value == j by {
      if last.None? || last.value < j {
        assert false;
      }
    }
  }

  /** A dict without a `servers` list falls back to `basePath` when that is a
      string, and to the empty path otherwise. */
  lemma BasePathFallback(doc: seq<Field>, urlPath: Value -> Result<string>)
    requires Lookup(doc, "servers").None? || !Lookup(doc, "servers").value.List?
    ensures var b := Lookup(doc, "basePath");
      DeriveBasePath(Obj(doc), urlPath) == Ok(if b.Some? && b.value.Str? then b.value.s else "")
  {
  }

  /** A document that is not a dict: None or a number raises TypeError at
      `'servers' in`, while an empty list has neither key and gets the empty
      base path. */
  lemma NonDictDocument(urlPath: Value -> Result<string>)
    ensures DeriveBasePath(Null, urlPath) == Err(TypeError)
    ensures DeriveBasePath(Int(1), urlPath) == Err(TypeError)
    ensures DeriveBasePath(List([]), urlPath) == Ok("")
  {
  }
}
