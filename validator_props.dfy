/** What OpenApiValidator's compilation and process_resource promise, proved
    about the functions of `Validator`. */
module ValidatorProps {
  import opened PyValue
  import opened PyStr
  import opened Validate
  import opened Validator

  // ------------------------------------------------------------- compilation

  /** A compiled definition: the name is popped, every other key but `schema`
      is kept, a schema dict keeps every key but `pattern`, and a pattern
      string is replaced by its compiled form. A parameter without a name
      raises KeyError('name'). */
  lemma CompileParamShape(p: Value)
    ensures var r := CompileParam(p);
      && (r.Ok? ==>
            && p.Obj? && Lookup(p.fields, "name") == Some(Str(r.value.key))
            && r.value.val.Obj? && Lookup(r.value.val.fields, "name").None?
            && (forall k :: k != "name" && k != "schema" ==> Lookup(r.value.val.fields, k) == Lookup(p.fields, k)))
      && (r.Ok? && Lookup(p.fields, "schema").None? ==> Lookup(r.value.val.fields, "schema").None?)
      && (r.Ok? && Lookup(p.fields, "schema").Some? && Lookup(p.fields, "schema").value.Obj? ==>
            var sch := Lookup(p.fields, "schema").value.fields;
            var sch' := Lookup(r.value.val.fields, "schema");
            && sch'.Some? && sch'.value.Obj?
            && (forall k :: k != "pattern" ==> Lookup(sch'.value.fields, k) == Lookup(sch, k))
            && (Lookup(sch, "pattern").Some? ==> Lookup(sch'.value.fields, "pattern").value.Regex?)
            && (Lookup(sch, "pattern").Some? && Lookup(sch, "pattern").value.Str? ==>
                  Lookup(sch'.value.fields, "pattern") == Some(Regex(Lookup(sch, "pattern").value.s))))
      && (p.Obj? && Lookup(p.fields, "name").None? ==> r == Err(KeyError("name")))
      && (!p.Obj? ==> r.Err?)
  {
    assert "name" != "schema";
  }

  /** Compiling a pattern twice gives what compiling it once gave. */
  lemma CompilePatternOnce(p: Value)
    requires CompilePattern(p).Ok?
    ensures CompilePattern(CompilePattern(p).value) == CompilePattern(p)
  {
  }

  /** The parameter at `k` compiles to an entry filed under `n`. */
  predicate NamedAt(params: seq<Value>, k: int, n: string)
    requires 0 <= k < |params|
  {
    CompileParam(params[k]).Ok? && CompileParam(params[k]).value.key == n
  }

  /** ... and no later parameter is filed under `n`. */
  predicate LastNamed(params: seq<Value>, k: int, n: string)
    requires 0 <= k < |params|
  {
    NamedAt(params, k, n) && forall k' :: k < k' < |params| ==> !NamedAt(params, k', n)
  }

  /** The `request` dict, empty while it does not exist. */
  function Filed(req: Option<seq<Field>>): seq<Field> {
    if req.Some? then req.value else []
  }

  /** Every definition filed in a `request` dict is a dict. */
  predicate Dicts(req: Option<seq<Field>>) {
    forall k :: 0 <= k < |Filed(req)| ==> Filed(req)[k].val.Obj?
  }

  /** ... for every method of a path. */
  predicate MethodDicts(acc: map<string, Option<seq<Field>>>) {
    forall m :: m in acc ==> Dicts(acc[m])
  }

  /** One step of the parameter loop. */
  lemma CompileParamsStep(params: seq<Value>, i: nat, req: Option<seq<Field>>)
    requires i < |params|
    ensures var f := CompileParam(params[i]);
      && (f.Err? ==> CompileParamsFrom(params, i, req) == Err(f.error))
      && (f.Ok? ==> CompileParamsFrom(params, i, req) ==
                    CompileParamsFrom(params, i + 1, Some(SetField(Filed(req), f.value.key, f.value.val))))
  {
  }

  /** The parameter loop succeeds exactly when every parameter compiles. */
  lemma CompileParamsOk(params: seq<Value>, i: nat, req: Option<seq<Field>>)
    requires i <= |params|
    ensures CompileParamsFrom(params, i, req).Ok? <==> forall k :: i <= k < |params| ==> CompileParam(params[k]).Ok?
  {
    if CompileParamsFrom(params, i, req).Ok? {
      CompileParamsOkAll(params, i, req);
    } else {
      CompileParamsErrSome(params, i, req);
    }
  }

  /** A successful parameter loop compiled every parameter. */
  lemma {:induction false} CompileParamsOkAll(params: seq<Value>, i: nat, req: Option<seq<Field>>)
    requires i <= |params|
    requires CompileParamsFrom(params, i, req).Ok?
    ensures forall k :: i <= k < |params| ==> CompileParam(params[k]).Ok?
    decreases |params| - i
  {
    if i < |params| {
      CompileParamsStep(params, i, req);
      var f := CompileParam(params[i]);
      assert f.Ok?;
      CompileParamsOkAll(params, i + 1, Some(SetField(Filed(req), f.value.key, f.value.val)));
      forall k | i <= k < |params|
        ensures CompileParam(params[k]).Ok?
      {
        if k == i {
          assert CompileParam(params[k]) == f;
        }
      }
    }
  }

  /** A failed parameter loop met a parameter that does not compile. */
  lemma {:induction false} CompileParamsErrSome(params: seq<Value>, i: nat, req: Option<seq<Field>>)
    requires i <= |params|
    requires CompileParamsFrom(params, i, req).Err?
    ensures exists k :: i <= k < |params| && CompileParam(params[k]).Err?
    decreases |params| - i
  {
    assert i < |params|;
    CompileParamsStep(params, i, req);
    var f := CompileParam(params[i]);
    if f.Ok? {
      CompileParamsErrSome(params, i + 1, Some(SetField(Filed(req), f.value.key, f.value.val)));
    }
  }

  /** After a successful parameter loop the `request` dict exists exactly
      when it did already or a parameter was seen. */
  lemma {:induction false} CompileParamsCreates(params: seq<Value>, i: nat, req: Option<seq<Field>>)
    requires i <= |params|
    requires CompileParamsFrom(params, i, req).Ok?
    ensures CompileParamsFrom(params, i, req).value.Some? <==> req.Some? || i < |params|
    decreases |params| - i
  {
    if i < |params| {
      var f := CompileParam(params[i]);
      var req' := Some(SetField(Filed(req), f.value.key, f.value.val));
      assert CompileParamsFrom(params, i, req) == CompileParamsFrom(params, i + 1, req');
      CompileParamsCreates(params, i + 1, req');
    }
  }

  /** Under each name the parameter loop files the definition of the last
      parameter of that name; a name no parameter has keeps what it had. */
  lemma {:induction false} CompileParamsLastWins(params: seq<Value>, i: nat, req: Option<seq<Field>>)
    requires i <= |params|
    requires CompileParamsFrom(params, i, req).Ok?
    ensures var r := CompileParamsFrom(params, i, req).value;
      && (forall n, k :: i <= k < |params| && LastNamed(params, k, n) ==>
            Lookup(Filed(r), n) == Some(CompileParam(params[k]).value.val))
      && (forall n :: (forall k :: i <= k < |params| ==> !NamedAt(params, k, n)) ==>
            Lookup(Filed(r), n) == Lookup(Filed(req), n))
    decreases |params| - i
  {
    if i < |params| {
      var f := CompileParam(params[i]).value;
      var req' := Some(SetField(Filed(req), f.key, f.val));
      assert CompileParamsFrom(params, i, req) == CompileParamsFrom(params, i + 1, req');
      CompileParamsLastWins(params, i + 1, req');
      var r := CompileParamsFrom(params, i, req).value;
      forall n, k | i <= k < |params| && LastNamed(params, k, n)
        ensures Lookup(Filed(r), n) == Some(CompileParam(params[k]).value.val)
      {
        if k == i {
          assert forall k' :: i + 1 <= k' < |params| ==> !NamedAt(params, k', n);
          assert Lookup(Filed(req'), n) == Some(f.val);
        }
      }
      forall n | forall k :: i <= k < |params| ==> !NamedAt(params, k, n)
        ensures Lookup(Filed(r), n) == Lookup(Filed(req), n)
      {
        assert !NamedAt(params, i, n);
        assert Lookup(Filed(req'), n) == Lookup(Filed(req), n);
      }
    }
  }

  /** Every definition the parameter loop files is a dict. */
  lemma {:induction false} CompileParamsDicts(params: seq<Value>, i: nat, req: Option<seq<Field>>)
    requires i <= |params| && Dicts(req)
    ensures var r := CompileParamsFrom(params, i, req);
      r.Ok? ==> Dicts(r.value)
    decreases |params| - i
  {
    if i < |params| {
      var f := CompileParam(params[i]);
      if f.Ok? {
        CompileParamShape(params[i]);
        SetFieldEntries(Filed(req), f.value.key, f.value.val);
        var req' := Some(SetField(Filed(req), f.value.key, f.value.val));
        assert CompileParamsFrom(params, i, req) == CompileParamsFrom(params, i + 1, req');
        CompileParamsDicts(params, i + 1, req');
      }
    }
  }

  /** The methods of a path: every method key gets an entry, and what was
      there stays well formed. */
  lemma {:induction false} CompileMethodsFiles(methods: seq<Field>, i: nat, acc: map<string, Option<seq<Field>>>)
    requires i <= |methods| && MethodDicts(acc)
    ensures var r := CompileMethodsFrom(methods, i, acc);
      r.Ok? ==> r.value.Keys == acc.Keys + (set k | i <= k < |methods| :: methods[k].key) && MethodDicts(r.value)
    decreases |methods| - i
  {
    if i < |methods| {
      var m := methods[i];
      var start := if m.key in acc then acc[m.key] else None;
      var req := CompileMethod(m.val, start);
      if req.Ok? {
        var ps := Iterate(GetOr(m.val.fields, "parameters", Obj([])));
        assert req == CompileParamsFrom(ps.value, 0, start);
        CompileParamsDicts(ps.value, 0, start);
        var acc' := acc[m.key := req.value];
        assert MethodDicts(acc');
        CompileMethodsFiles(methods, i + 1, acc');
        var r := CompileMethodsFrom(methods, i, acc);
        if r.Ok? {
          assert (set k | i <= k < |methods| :: methods[k].key) ==
                 {m.key} + set k | i + 1 <= k < |methods| :: methods[k].key;
        }
      }
    }
  }

  /** The paths of a document: every path key gets an entry, and the rules
      stay well formed. */
  lemma {:induction false} CompilePathsFiles(paths: seq<Field>, i: nat, acc: Rules)
    requires i <= |paths| && WellFormed(acc)
    ensures var r := CompilePathsFrom(paths, i, acc);
      r.Ok? ==> r.value.Keys == acc.Keys + (set k | i <= k < |paths| :: paths[k].key) && WellFormed(r.value)
    decreases |paths| - i
  {
    if i < |paths| {
      var p := paths[i];
      var start := if p.key in acc then acc[p.key] else map[];
      if p.val.Obj? {
        assert MethodDicts(start);
        CompileMethodsFiles(p.val.fields, 0, start);
        var ms := CompileMethodsFrom(p.val.fields, 0, start);
        if ms.Ok? {
          var acc': Rules := acc[p.key := ms.value];
          forall uri: string, verb: string | uri in acc' && verb in acc'[uri] && acc'[uri][verb].Some?
            ensures forall k :: 0 <= k < |acc'[uri][verb].value| ==> acc'[uri][verb].value[k].val.Obj?
          {
            if uri == p.key {
              assert Dicts(ms.value[verb]) && Filed(ms.value[verb]) == acc'[uri][verb].value;
            } else {
              assert acc'[uri] == acc[uri];
            }
          }
          CompilePathsFiles(paths, i + 1, acc[p.key := ms.value]);
          var r := CompilePathsFrom(paths, i, acc);
          if r.Ok? {
            assert (set k | i <= k < |paths| :: paths[k].key) ==
                   {p.key} + set k | i + 1 <= k < |paths| :: paths[k].key;
          }
        }
      }
    }
  }

  /** Compiling a document files every path under `paths`, leaves only
      dicts as definitions, and fails on a document without `paths`. */
  lemma CompileRulesFiles(doc: Value)
    ensures var r := CompileRules(doc);
      && (r.Ok? ==>
            && doc.Obj? && Lookup(doc.fields, "paths").Some? && Lookup(doc.fields, "paths").value.Obj?
            && r.value.Keys == Keys(Lookup(doc.fields, "paths").value.fields)
            && WellFormed(r.value))
      && (doc.Obj? && Lookup(doc.fields, "paths").None? ==> r == Err(KeyError("paths")))
  {
    var paths := Index(doc, "paths");
    if paths.Ok? && paths.value.Obj? {
      var ps := paths.value.fields;
      CompilePathsFiles(ps, 0, map[]);
      assert (set k | 0 <= k < |ps| :: ps[k].key) == Keys(ps);
    }
  }

  /** The constructor's result satisfies what process_resource needs. */
  lemma NewIsWellFormed(doc: Value)
    requires CompileRules(doc).Ok?
    ensures WellFormed(CompileRules(doc).value)
  {
    CompileRulesFiles(doc);
  }

  // --------------------------------------------------------- process_resource

  /** With no definitions for the route and method, every request passes. */
  lemma NoRulesNoOp(rules: Rules, verb: string, uri: string, params: seq<Field>, matches: Matcher)
    requires WellFormed(rules)
    requires uri !in rules || Lower(verb) !in rules[uri] || rules[uri][Lower(verb)] == None
             || rules[uri][Lower(verb)] == Some([])
    ensures ResourceVerdict(rules, verb, uri, params, matches) == Accepted
  {
  }

  /** The method is matched case-insensitively: it is lower-cased before the
      lookup. */
  lemma MethodLowerCased(rules: Rules, verb: string, uri: string)
    ensures RequestDefs(rules, verb, uri) == RequestDefs(rules, Lower(verb), uri)
  {
    assert Lower(Lower(verb)) == Lower(verb);
  }

  /** Definition `k` is one process_resource acts on: its parameter is
      present (truthy) or it is required. */
  predicate Acts(defs: seq<Field>, k: int, params: seq<Field>)
    requires 0 <= k < |defs| && defs[k].val.Obj?
  {
    Truthy(GetOr(params, defs[k].key, Null)) || IsRequired(defs[k].val)
  }

  /** A request passes exactly when every definition's parameter is absent
      (or falsy) and optional. */
  lemma {:induction false} DefsVerdictAccepted(defs: seq<Field>, i: nat, params: seq<Field>, matches: Matcher)
    requires i <= |defs|
    requires forall k :: 0 <= k < |defs| ==> defs[k].val.Obj?
    ensures DefsVerdict(defs, i, params, matches) == Accepted <==>
      forall k :: i <= k < |defs| ==> !Acts(defs, k, params)
    decreases |defs| - i
  {
    if i < |defs| {
      DefsVerdictAccepted(defs, i + 1, params, matches);
      var param := GetOr(params, defs[i].key, Null);
      if Truthy(param) {
        assert ValidateParam(param, defs[i].val, Null, matches).result == Err(AttributeError);
        assert DefsVerdict(defs, i, params, matches) == Refused(AttributeError);
        assert Acts(defs, i, params);
      } else if IsRequired(defs[i].val) {
        assert DefsVerdict(defs, i, params, matches) == Refused(ParamNotPassed);
        assert Acts(defs, i, params);
      } else {
        assert !Acts(defs, i, params);
        assert DefsVerdict(defs, i, params, matches) == DefsVerdict(defs, i + 1, params, matches);
      }
    }
  }

  /** The first definition acted on decides: a missing required parameter
      raises 'Param not passed', a present one the AttributeError of
      validate_param called without a schema. */
  lemma {:induction false} DefsVerdictFirstActed(defs: seq<Field>, i: nat, j: nat, params: seq<Field>, matches: Matcher)
    requires i <= j < |defs|
    requires forall k :: 0 <= k < |defs| ==> defs[k].val.Obj?
    requires Acts(defs, j, params) && forall k :: i <= k < j ==> !Acts(defs, k, params)
    ensures DefsVerdict(defs, i, params, matches) ==
      if Truthy(GetOr(params, defs[j].key, Null)) then Refused(AttributeError) else Refused(ParamNotPassed)
    decreases j - i
  {
    if i < j {
      assert !Acts(defs, i, params);
      DefsVerdictFirstActed(defs, i + 1, j, params, matches);
    } else {
      var param := GetOr(params, defs[i].key, Null);
      if Truthy(param) {
        assert ValidateParam(param, defs[i].val, Null, matches).result == Err(AttributeError);
      }
    }
  }

  /** process_resource refuses a request that omits (or sends falsy) the
      first required parameter, when nothing before it is sent. */
  lemma RequiredMissingRefused(rules: Rules, verb: string, uri: string, params: seq<Field>, matches: Matcher, j: nat)
    requires WellFormed(rules)
    requires j < |RequestDefs(rules, verb, uri)|
    requires var defs := RequestDefs(rules, verb, uri);
      && IsRequired(defs[j].val) && !Truthy(GetOr(params, defs[j].key, Null))
      && forall k :: 0 <= k < j ==> !Truthy(GetOr(params, defs[k].key, Null)) && !IsRequired(defs[k].val)
    ensures ResourceVerdict(rules, verb, uri, params, matches) == Refused(ParamNotPassed)
  {
    var defs := RequestDefs(rules, verb, uri);
    DefsVerdictFirstActed(defs, 0, j, params, matches);
  }

  /** Optional parameters that are absent are skipped. */
  lemma OptionalAbsentSkipped(rules: Rules, verb: string, uri: string, params: seq<Field>, matches: Matcher)
    requires WellFormed(rules)
    requires var defs := RequestDefs(rules, verb, uri);
      forall k :: 0 <= k < |defs| ==> !IsRequired(defs[k].val) && Lookup(params, defs[k].key).None?
    ensures ResourceVerdict(rules, verb, uri, params, matches) == Accepted
  {
    var defs := RequestDefs(rules, verb, uri);
    DefsVerdictAccepted(defs, 0, params, matches);
  }

  /** is_required as the source's tests pin it down. */
  lemma IsRequiredExamples()
    ensures !IsRequired(Obj([]))
    ensures !IsRequired(Obj([Field("required", Bool(false))]))
    ensures IsRequired(Obj([Field("required", Bool(true))]))
  {
  }
}
