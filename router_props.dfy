/** What OpenApiRouter promises, proved about the functions of `Router`. */
module RouterProps {
  import opened PyValue
  import opened PyStr
  import opened SpecSource
  import opened Router

  // ------------------------------------------------------ destination parsing

  /** A module path with its dots turned into slashes. */
  function Slashed(m: string): (r: string)
    ensures |r| == |m|
  {
    seq(|m|, k requires 0 <= k < |m| => if m[k] == '.' then '/' else m[k])
  }

  /** Joining dot-free pieces with dots and then slashing the dots joins them
      with slashes. */
  lemma {:induction false} SlashedJoin(parts: seq<string>)
    requires forall k :: 0 <= k < |parts| ==> '.' !in parts[k]
    ensures Slashed(Join(".", parts)) == Join("/", parts)
  {
    if |parts| > 1 {
      SlashedJoin(parts[1..]);
      var head := parts[0];
      var tail := Join(".", parts[1..]);
      assert Join(".", parts) == head + "." + tail;
      assert Join("/", parts) == head + "/" + Join("/", parts[1..]);
      var s := head + "." + tail;
      forall k | 0 <= k < |s|
        ensures Slashed(s)[k] == (head + "/" + Slashed(tail))[k]
      {
        if k < |head| {
          assert s[k] == head[k] && head[k] != '.';
        } else if k > |head| {
          assert s[k] == tail[k - |head| - 1];
        }
      }
    } else if |parts| == 1 {
      assert Join(".", parts) == parts[0];
      assert forall k :: 0 <= k < |parts[0]| ==> parts[0][k] != '.';
    }
  }

  /** The file of an `x-falcon` module: its dotted path, split and joined
      with slashes. */
  lemma ModuleFile(m: string)
    ensures Join("/", Split(m, '.')) == Slashed(m)
  {
    var parts := Split(m, '.');
    JoinSplit(m, '.');
    SlashedJoin(parts);
  }

  /** Whatever names the destination, its file is the caller's directory,
      the module path with slashes for dots, and `.py`. */
  lemma DestinationFile(definition: Value, fallback: string, callerDir: string)
    ensures var r := GetDestinationInfo(definition, fallback, callerDir);
      r.Ok? ==> r.value.file == callerDir + Slashed(r.value.modName) + ".py"
  {
    var r := GetDestinationInfo(definition, fallback, callerDir);
    if r.Ok? {
      if ContainsStr(definition, "operationId") == Ok(true) {
        var parts := Split(Index(definition, "operationId").value.s, '.');
        SlashedJoin(parts[..|parts| - 2]);
      } else {
        ModuleFile(r.value.modName);
      }
    }
  }

  /** A dict with an `operationId` is resolved by that entry alone. */
  lemma OperationIdBranch(fs: seq<Field>, fallback: string, callerDir: string)
    requires "operationId" in Keys(fs)
    ensures GetDestinationInfo(Obj(fs), fallback, callerDir) ==
            FromOperationId(Lookup(fs, "operationId").value, callerDir)
  {
  }

  /** An `operationId` made of dot-free pieces, at least two of them: the last
      piece names the method, the one before it the class, and the rest,
      joined by dots, the module, read from the file those pieces name. */
  lemma OperationIdParsed(fs: seq<Field>, parts: seq<string>, fallback: string, callerDir: string)
    requires |parts| >= 2 && forall k :: 0 <= k < |parts| ==> '.' !in parts[k]
    requires Lookup(fs, "operationId") == Some(Str(Join(".", parts)))
    ensures var n := |parts|;
      GetDestinationInfo(Obj(fs), fallback, callerDir) ==
        Ok(Destination(Join(".", parts[..n - 2]), Str(parts[n - 1]), Str(parts[n - 2]),
                       callerDir + Join("/", parts[..n - 2]) + ".py"))
  {
    OperationIdBranch(fs, fallback, callerDir);
    SplitJoin(parts, '.');
  }

  /** The pieces of `"a.b.C.m"`. */
  lemma ExamplePieces()
    ensures Join(".", ["a", "b", "C", "m"]) == "a.b.C.m"
    ensures ["a", "b", "C", "m"][..2] == ["a", "b"]
    ensures Join(".", ["a", "b"]) == "a.b" && Join("/", ["a", "b"]) == "a/b"
  {
    var parts := ["a", "b", "C", "m"];
    assert parts[1..] == ["b", "C", "m"] && parts[1..][1..] == ["C", "m"] && parts[1..][1..][1..] == ["m"];
    assert Join(".", ["C", "m"]) == "C.m";
    assert Join(".", ["b", "C", "m"]) == "b.C.m";
    assert ["a", "b"][1..] == ["b"];
  }

  /** `"a.b.C.m"` routes to method `m` of class `C` of module `a.b`, loaded
      from `a/b.py` under the caller's directory. */
  lemma OperationIdExample(fs: seq<Field>, id: string, callerDir: string, fallback: string)
    requires id == "a.b.C.m" && Lookup(fs, "operationId") == Some(Str(id))
    ensures GetDestinationInfo(Obj(fs), fallback, callerDir) ==
            Ok(Destination("a.b", Str("m"), Str("C"), callerDir + "a/b.py"))
  {
    var parts := ["a", "b", "C", "m"];
    ExamplePieces();
    OperationIdParsed(fs, parts, fallback, callerDir);
    assert callerDir + "a/b" + ".py" == callerDir + "a/b.py";
  }

  /** An `operationId` without a dot fails on the second pop, so the
      operation is skipped. */
  lemma OneSegmentFails(fs: seq<Field>, id: string, fallback: string, callerDir: string)
    requires Lookup(fs, "operationId") == Some(Str(id)) && '.' !in id
    ensures GetDestinationInfo(Obj(fs), fallback, callerDir) == Err(IndexError)
  {
    SplitPlain(id, '.');
  }

  /** When both are given, `operationId` decides and `x-falcon` is ignored. */
  lemma OperationIdWins(fs: seq<Field>, fallback: string, callerDir: string)
    requires "operationId" in Keys(fs)
    ensures GetDestinationInfo(Obj(fs), fallback, callerDir) ==
            GetDestinationInfo(Obj(RemoveField(fs, "x-falcon")), fallback, callerDir)
  {
    var fs' := RemoveField(fs, "x-falcon");
    assert Lookup(fs', "operationId") == Lookup(fs, "operationId");
    OperationIdBranch(fs, fallback, callerDir);
    OperationIdBranch(fs', fallback, callerDir);
  }

  /** An `x-falcon` block names the module and class; the method is the
      block's `method` if it has one, else `on_` and the lower-cased HTTP
      method. */
  lemma XFalconResolved(fs: seq<Field>, block: seq<Field>, m: string, fallback: string, callerDir: string)
    requires "operationId" !in Keys(fs)
    requires Lookup(fs, "x-falcon") == Some(Obj(block))
    requires Lookup(block, "module") == Some(Str(m)) && "class" in Keys(block)
    ensures var r := GetDestinationInfo(Obj(fs), fallback, callerDir);
      && r.Ok?
      && r.value.modName == m
      && r.value.cls == Lookup(block, "class").value
      && r.value.responder == (if "method" in Keys(block) then Lookup(block, "method").value
                               else Str("on_" + Lower(fallback)))
      && r.value.file == callerDir + Slashed(m) + ".py"
  {
    ModuleFile(m);
  }

  /** A definition with neither `operationId` nor `x-falcon` has no
      destination. */
  lemma NoMechanismFails(fs: seq<Field>, fallback: string, callerDir: string)
    requires "operationId" !in Keys(fs) && "x-falcon" !in Keys(fs)
    ensures GetDestinationInfo(Obj(fs), fallback, callerDir) == Err(NoDestination)
  {
  }

  // ------------------------------------------------------------- grouping

  /** The operations whose destination resolves, in their order. */
  function Resolvable(ms: seq<Field>, callerDir: string): (r: seq<Field>)
    ensures forall k :: 0 <= k < |r| ==> r[k] in ms && GetDestinationInfo(r[k].val, r[k].key, callerDir).Ok?
  {
    if ms == [] then []
    else if GetDestinationInfo(ms[0].val, ms[0].key, callerDir).Ok? then [ms[0]] + Resolvable(ms[1..], callerDir)
    else Resolvable(ms[1..], callerDir)
  }

  /** The grouping loop from entry `i` on is the loop over the entries from `i` on. */
  lemma {:induction false} GroupsFromSuffix(ms: seq<Field>, i: nat, g: seq<Group>, path: string,
                                            registry: Registry, callerDir: string)
    requires i <= |ms|
    ensures GroupsFrom(ms, i, g, path, registry, callerDir) == GroupsFrom(ms[i..], 0, g, path, registry, callerDir)
    decreases |ms| - i
  {
    if i < |ms| {
      var s := ms[i..];
      assert s[0] == ms[i];
      var step := AddOperation(g, path, ms[i].key, ms[i].val, registry, callerDir);
      if step.Ok? {
        GroupsFromSuffix(ms, i + 1, step.value, path, registry, callerDir);
        GroupsFromSuffix(s, 1, step.value, path, registry, callerDir);
        assert s[1..] == ms[i + 1..];
      }
    }
  }

  /** Operations whose destination cannot be resolved are skipped without a
      trace: grouping all operations is grouping the resolvable ones alone. */
  lemma {:induction false} SkipsUnresolvable(ms: seq<Field>, i: nat, g: seq<Group>, path: string,
                                             registry: Registry, callerDir: string)
    requires i <= |ms|
    ensures GroupsFrom(ms, i, g, path, registry, callerDir) ==
            GroupsFrom(Resolvable(ms[i..], callerDir), 0, g, path, registry, callerDir)
    decreases |ms| - i
  {
    var s := ms[i..];
    if i == |ms| {
      assert s == [];
    } else {
      assert s[0] == ms[i] && s[1..] == ms[i + 1..];
      var rest := Resolvable(ms[i + 1..], callerDir);
      if GetDestinationInfo(ms[i].val, ms[i].key, callerDir).Err? {
        assert Resolvable(s, callerDir) == rest;
        SkipsUnresolvable(ms, i + 1, g, path, registry, callerDir);
      } else {
        assert Resolvable(s, callerDir) == [ms[i]] + rest;
        var step := AddOperation(g, path, ms[i].key, ms[i].val, registry, callerDir);
        if step.Ok? {
          SkipsUnresolvable(ms, i + 1, step.value, path, registry, callerDir);
          GroupsFromSuffix([ms[i]] + rest, 1, step.value, path, registry, callerDir);
          assert ([ms[i]] + rest)[1..] == rest;
        }
      }
    }
  }

  /** No two groups share a key: one instance per key. */
  predicate DistinctKeys(groups: seq<Group>) {
    forall a, b :: 0 <= a < b < |groups| ==> groups[a].key != groups[b].key
  }

  /** Every method-map key is upper-case. */
  predicate UpperKeys(groups: seq<Group>) {
    forall k, m :: 0 <= k < |groups| && m in groups[k].methodMap ==> m == Upper(m)
  }

  /** Every instance was created for `path`. */
  predicate InstancesFor(groups: seq<Group>, path: string) {
    forall k :: 0 <= k < |groups| ==> groups[k].instance.path == path
  }

  /** The groups of the cache hold together. */
  predicate GoodGroups(groups: seq<Group>, path: string) {
    DistinctKeys(groups) && UpperKeys(groups) && InstancesFor(groups, path)
  }

  /** `later` keeps every group of `earlier` in place, with its key, its
      instance and its methods. */
  predicate Extends(earlier: seq<Group>, later: seq<Group>) {
    |earlier| <= |later| &&
    forall k :: 0 <= k < |earlier| ==>
      && later[k].key == earlier[k].key
      && later[k].instance == earlier[k].instance
      && earlier[k].methodMap.Keys <= later[k].methodMap.Keys
  }

  /** The group filed under `key` maps the HTTP method `verb`. */
  predicate Lands(groups: seq<Group>, key: string, verb: string) {
    exists k :: 0 <= k < |groups| && groups[k].key == key && Upper(verb) in groups[k].methodMap
  }

  /** The group filed under `key` holds `inst`. */
  predicate Holds(groups: seq<Group>, key: string, inst: Instance) {
    exists k :: 0 <= k < |groups| && groups[k].key == key && groups[k].instance == inst
  }

  /** The grouping key of a destination whose class is a string. */
  function KeyOf(d: Destination): string
    requires d.cls.Str?
  {
    d.modName + d.cls.s
  }

  /** The instance created for a destination. */
  function InstanceOf(d: Destination, path: string, registry: Registry): Instance
    requires d.cls.Str? && d.file in registry && d.cls.s in registry[d.file]
  {
    Instance(path, d.file, d.cls.s, registry[d.file][d.cls.s])
  }

  /** One operation: the cache keeps holding together and only grows; an
      unresolvable operation changes nothing; a resolved one lands in the
      group of its key, which is created, with an instance of its own class,
      only when the key is new. */
  lemma AddOperationGroups(g: seq<Group>, path: string, verb: string, definition: Value,
                           registry: Registry, callerDir: string)
    requires GoodGroups(g, path)
    ensures var dest := GetDestinationInfo(definition, verb, callerDir);
      var r := AddOperation(g, path, verb, definition, registry, callerDir);
      && (dest.Err? ==> r == Ok(g))
      && (r.Ok? ==> GoodGroups(r.value, path) && Extends(g, r.value) && |r.value| <= |g| + 1)
      && (dest.Ok? && r.Ok? ==>
            && dest.value.cls.Str?
            && Lands(r.value, KeyOf(dest.value), verb)
            && (|r.value| == |g| + 1 <==> FindGroup(g, KeyOf(dest.value)).None?)
            && (|r.value| == |g| + 1 ==>
                  dest.value.file in registry && dest.value.cls.s in registry[dest.value.file]
                  && r.value[|g|].key == KeyOf(dest.value)
                  && r.value[|g|].instance == InstanceOf(dest.value, path, registry)))
  {
    var dest := GetDestinationInfo(definition, verb, callerDir);
    var r := AddOperation(g, path, verb, definition, registry, callerDir);
    if dest.Ok? && r.Ok? {
      var d := dest.value;
      var key := KeyOf(d);
      var found := FindGroup(g, key);
      var g' := if found.Some? then g else g + [Group(key, InstanceOf(d, path, registry), map[])];
      var at := if found.Some? then found.value else |g|;
      var grp := g'[at];
      assert r.value == g'[at := grp.(methodMap := grp.methodMap[Upper(verb) := d.responder.s])];
      UpperIsUpper(verb);
      assert r.value[at].key == key && Upper(verb) in r.value[at].methodMap;
    }
  }

  /** Extending is transitive. */
  lemma ExtendsTrans(a: seq<Group>, b: seq<Group>, c: seq<Group>)
    requires Extends(a, b) && Extends(b, c)
    ensures Extends(a, c)
  {
  }

  /** What extends a cache keeps every landing of it. */
  lemma ExtendsKeepsLands(a: seq<Group>, b: seq<Group>, key: string, verb: string)
    requires Extends(a, b) && Lands(a, key, verb)
    ensures Lands(b, key, verb)
  {
    var k :| 0 <= k < |a| && a[k].key == key && Upper(verb) in a[k].methodMap;
    assert b[k].key == key && Upper(verb) in b[k].methodMap;
  }

  /** What extends a cache keeps every instance of it. */
  lemma ExtendsKeepsHolds(a: seq<Group>, b: seq<Group>, key: string, inst: Instance)
    requires Extends(a, b) && Holds(a, key, inst)
    ensures Holds(b, key, inst)
  {
    var k :| 0 <= k < |a| && a[k].key == key && a[k].instance == inst;
    assert b[k].key == key && b[k].instance == inst;
  }

  /** The whole loop over the operations of a path: the cache holds together,
      keeps what it had, and every resolved operation lands, under its
      upper-cased method, in the group of its key. */
  lemma {:induction false} GroupsFromGroups(ms: seq<Field>, i: nat, g: seq<Group>, path: string,
                                            registry: Registry, callerDir: string)
    requires i <= |ms| && GoodGroups(g, path)
    ensures var r := GroupsFrom(ms, i, g, path, registry, callerDir);
      r.Ok? ==>
        && GoodGroups(r.value, path)
        && Extends(g, r.value)
        && forall j :: i <= j < |ms| && GetDestinationInfo(ms[j].val, ms[j].key, callerDir).Ok? ==>
             var d := GetDestinationInfo(ms[j].val, ms[j].key, callerDir).value;
             d.cls.Str? && Lands(r.value, KeyOf(d), ms[j].key)
    decreases |ms| - i
  {
    var r := GroupsFrom(ms, i, g, path, registry, callerDir);
    if i < |ms| && r.Ok? {
      AddOperationGroups(g, path, ms[i].key, ms[i].val, registry, callerDir);
      var g' := AddOperation(g, path, ms[i].key, ms[i].val, registry, callerDir).value;
      assert r == GroupsFrom(ms, i + 1, g', path, registry, callerDir);
      GroupsFromGroups(ms, i + 1, g', path, registry, callerDir);
      ExtendsTrans(g, g', r.value);
      forall j | i <= j < |ms| && GetDestinationInfo(ms[j].val, ms[j].key, callerDir).Ok?
        ensures var d := GetDestinationInfo(ms[j].val, ms[j].key, callerDir).value;
          d.cls.Str? && Lands(r.value, KeyOf(d), ms[j].key)
      {
        if j == i {
          var d := GetDestinationInfo(ms[i].val, ms[i].key, callerDir).value;
          ExtendsKeepsLands(g', r.value, KeyOf(d), ms[i].key);
        }
      }
    }
  }

  /** The operation resolves to a destination filed under `key`. */
  predicate ResolvesTo(m: Field, key: string, callerDir: string) {
    var d := GetDestinationInfo(m.val, m.key, callerDir);
    d.Ok? && d.value.cls.Str? && KeyOf(d.value) == key
  }

  /** The instance of a group is created once, for the first operation that
      resolves to its key; later operations with the same key, whatever their
      own module and class, get methods of that instance. */
  lemma {:induction false} FirstInstanceKept(ms: seq<Field>, i: nat, j: nat, g: seq<Group>, path: string,
                                             registry: Registry, callerDir: string)
    requires i <= j < |ms| && GoodGroups(g, path)
    requires GetDestinationInfo(ms[j].val, ms[j].key, callerDir).Ok?
    requires var d := GetDestinationInfo(ms[j].val, ms[j].key, callerDir).value;
      && d.cls.Str?
      && FindGroup(g, KeyOf(d)).None?
      && forall j' :: i <= j' < j ==> !ResolvesTo(ms[j'], KeyOf(d), callerDir)
    ensures var d := GetDestinationInfo(ms[j].val, ms[j].key, callerDir).value;
      var r := GroupsFrom(ms, i, g, path, registry, callerDir);
      r.Ok? ==> d.file in registry && d.cls.s in registry[d.file] && Holds(r.value, KeyOf(d), InstanceOf(d, path, registry))
    decreases j - i
  {
    var d := GetDestinationInfo(ms[j].val, ms[j].key, callerDir).value;
    var key := KeyOf(d);
    var r := GroupsFrom(ms, i, g, path, registry, callerDir);
    if r.Ok? {
      AddOperationGroups(g, path, ms[i].key, ms[i].val, registry, callerDir);
      var g' := AddOperation(g, path, ms[i].key, ms[i].val, registry, callerDir).value;
      assert r == GroupsFrom(ms, i + 1, g', path, registry, callerDir);
      if i == j {
        assert |g'| == |g| + 1;
        assert Holds(g', key, InstanceOf(d, path, registry)) by {
          assert g'[|g|].key == key && g'[|g|].instance == InstanceOf(d, path, registry);
        }
        GroupsFromGroups(ms, i + 1, g', path, registry, callerDir);
        ExtendsKeepsHolds(g', r.value, key, InstanceOf(d, path, registry));
      } else {
        assert !ResolvesTo(ms[i], key, callerDir);
        forall k | 0 <= k < |g'|
          ensures g'[k].key != key
        {
          if k >= |g| {
            assert k == |g|;
          }
        }
        FirstInstanceKept(ms, i + 1, j, g', path, registry, callerDir);
      }
    }
  }

  // ------------------------------------------------------------ method maps

  /** The method name an operation asks for, when it resolves to one. */
  function ResponderOf(m: Field, callerDir: string): string {
    var d := GetDestinationInfo(m.val, m.key, callerDir);
    if d.Ok? && d.value.responder.Str? then d.value.responder.s else ""
  }

  /** Operation `m` binds the upper-case HTTP method `verb` in the group
      filed under `key`. */
  predicate Binds(m: Field, key: string, verb: string, callerDir: string) {
    ResolvesTo(m, key, callerDir) && Upper(m.key) == verb
  }

  /** No operation after `j` binds `verb` under `key`. */
  predicate LastBinds(ms: seq<Field>, j: nat, key: string, verb: string, callerDir: string) {
    forall j' :: j < j' < |ms| ==> !Binds(ms[j'], key, verb, callerDir)
  }

  /** The method map of the group filed under `key` after operation `m`. */
  function MapAfter(m: Field, key: string, callerDir: string, methods: map<string, string>): map<string, string> {
    if ResolvesTo(m, key, callerDir) then methods[Upper(m.key) := ResponderOf(m, callerDir)] else methods
  }

  /** The method map of the group filed under `key` after operations `i..`,
      starting from `methods`: a reference definition that follows one key
      alone, independently of the cache. */
  function MapFrom(ms: seq<Field>, i: nat, key: string, callerDir: string, methods: map<string, string>)
    : map<string, string>
    requires i <= |ms|
    decreases |ms| - i
  {
    if i == |ms| then methods else MapFrom(ms, i + 1, key, callerDir, MapAfter(ms[i], key, callerDir, methods))
  }

  /** The method map group `k` of `g` starts from: its own, or an empty one
      for a group not yet created. */
  function MapOf(g: seq<Group>, k: nat): map<string, string> {
    if k < |g| then g[k].methodMap else map[]
  }

  /** One operation changes the method map of the group of its own key
      only, and there sets its upper-cased method to its method name. */
  lemma AddOperationMaps(g: seq<Group>, path: string, m: Field, registry: Registry, callerDir: string)
    requires GoodGroups(g, path)
    ensures var r := AddOperation(g, path, m.key, m.val, registry, callerDir);
      r.Ok? ==> forall k :: 0 <= k < |r.value| ==> r.value[k].methodMap == MapAfter(m, r.value[k].key, callerDir, MapOf(g, k))
  {
    var dest := GetDestinationInfo(m.val, m.key, callerDir);
    var r := AddOperation(g, path, m.key, m.val, registry, callerDir);
    if dest.Ok? && r.Ok? {
      AddOperationGroups(g, path, m.key, m.val, registry, callerDir);
      var d := dest.value;
      var key := KeyOf(d);
      var found := FindGroup(g, key);
      var g' := if found.Some? then g else g + [Group(key, InstanceOf(d, path, registry), map[])];
      var at := if found.Some? then found.value else |g|;
      var grp := g'[at];
      assert r.value == g'[at := grp.(methodMap := grp.methodMap[Upper(m.key) := d.responder.s])];
      forall k | 0 <= k < |r.value|
        ensures r.value[k].methodMap == MapAfter(m, r.value[k].key, callerDir, MapOf(g, k))
      {
        if k == at {
          assert ResolvesTo(m, r.value[k].key, callerDir);
        } else {
          assert k < |g| && r.value[k] == g[k];
          assert g[k].key != key;
        }
      }
    }
  }

  /** The loop over the operations of a path: every group's method map is
      the reference map of its key, started from what the group held. */
  lemma {:induction false} GroupsFromMaps(ms: seq<Field>, i: nat, g: seq<Group>, path: string,
                                          registry: Registry, callerDir: string)
    requires i <= |ms| && GoodGroups(g, path)
    ensures var r := GroupsFrom(ms, i, g, path, registry, callerDir);
      r.Ok? ==> forall k :: 0 <= k < |r.value| ==> r.value[k].methodMap == MapFrom(ms, i, r.value[k].key, callerDir, MapOf(g, k))
    decreases |ms| - i
  {
    var r := GroupsFrom(ms, i, g, path, registry, callerDir);
    if i < |ms| && r.Ok? {
      AddOperationGroups(g, path, ms[i].key, ms[i].val, registry, callerDir);
      AddOperationMaps(g, path, ms[i], registry, callerDir);
      var g' := AddOperation(g, path, ms[i].key, ms[i].val, registry, callerDir).value;
      assert r == GroupsFrom(ms, i + 1, g', path, registry, callerDir);
      GroupsFromGroups(ms, i + 1, g', path, registry, callerDir);
      GroupsFromMaps(ms, i + 1, g', path, registry, callerDir);
      forall k | 0 <= k < |r.value|
        ensures r.value[k].methodMap == MapFrom(ms, i, r.value[k].key, callerDir, MapOf(g, k))
      {
        var key := r.value[k].key;
        if k < |g'| {
          assert g'[k].key == key;
        } else {
          assert MapOf(g', k) == MapOf(g, k) == map[];
          assert !ResolvesTo(ms[i], key, callerDir);
        }
      }
    }
  }

  /** What the reference map holds: `verb` is bound exactly when it was
      bound before or some operation binds it, and then to the method name of
      the last operation that does. */
  lemma {:induction false} MapFromBinds(ms: seq<Field>, i: nat, key: string, callerDir: string,
                                        methods: map<string, string>, verb: string)
    requires i <= |ms|
    ensures var r := MapFrom(ms, i, key, callerDir, methods);
      && (verb in r <==> verb in methods || exists j :: i <= j < |ms| && Binds(ms[j], key, verb, callerDir))
      && (forall j :: i <= j < |ms| && Binds(ms[j], key, verb, callerDir) && LastBinds(ms, j, key, verb, callerDir) ==>
            r[verb] == ResponderOf(ms[j], callerDir))
      && ((forall j :: i <= j < |ms| ==> !Binds(ms[j], key, verb, callerDir)) && verb in methods ==>
            r[verb] == methods[verb])
    decreases |ms| - i
  {
    if i < |ms| {
      var methods' := MapAfter(ms[i], key, callerDir, methods);
      MapFromBinds(ms, i + 1, key, callerDir, methods', verb);
      var r := MapFrom(ms, i, key, callerDir, methods);
      assert r == MapFrom(ms, i + 1, key, callerDir, methods');
      if Binds(ms[i], key, verb, callerDir) && LastBinds(ms, i, key, verb, callerDir) {
        assert r[verb] == methods'[verb];
      }
    }
  }

  /** The method maps of the groups of one path: group `k` maps `verb`
      exactly when some operation of the path resolves to its key under that
      upper-cased method, and maps it to the method name of the last such
      operation. */
  lemma PathMethods(ms: seq<Field>, path: string, registry: Registry, callerDir: string, k: nat, verb: string)
    requires GroupsFrom(ms, 0, [], path, registry, callerDir).Ok?
    requires k < |GroupsFrom(ms, 0, [], path, registry, callerDir).value|
    ensures var gs := GroupsFrom(ms, 0, [], path, registry, callerDir).value;
      && (verb in gs[k].methodMap <==> exists j :: 0 <= j < |ms| && Binds(ms[j], gs[k].key, verb, callerDir))
      && forall j :: 0 <= j < |ms| && Binds(ms[j], gs[k].key, verb, callerDir) && LastBinds(ms, j, gs[k].key, verb, callerDir) ==>
           gs[k].methodMap[verb] == ResponderOf(ms[j], callerDir)
  {
    var gs := GroupsFrom(ms, 0, [], path, registry, callerDir).value;
    GroupsFromMaps(ms, 0, [], path, registry, callerDir);
    MapFromBinds(ms, 0, gs[k].key, callerDir, map[], verb);
  }

  /** A three-piece `operationId` `m.C.f`: module `m`, read from `m.py`. */
  lemma OperationIdThreePieces(fs: seq<Field>, m: string, c: string, f: string, fallback: string, callerDir: string)
    requires '.' !in m && '.' !in c && '.' !in f
    requires Lookup(fs, "operationId") == Some(Str(m + "." + c + "." + f))
    ensures GetDestinationInfo(Obj(fs), fallback, callerDir) == Ok(Destination(m, Str(f), Str(c), callerDir + m + ".py"))
  {
    var parts := [m, c, f];
    assert parts[1..] == [c, f] && parts[1..][1..] == [f] && parts[..1] == [m];
    assert Join(".", [f]) == f;
    assert Join(".", [c, f]) == c + "." + f;
    assert Join(".", parts) == m + "." + Join(".", [c, f]);
    assert m + "." + (c + "." + f) == m + "." + c + "." + f;
    OperationIdParsed(fs, parts, fallback, callerDir);
  }

  /** An operation whose key is new: its class is instantiated, and the new
      group maps its upper-cased HTTP method to its method. */
  lemma AddToNewGroup(g: seq<Group>, path: string, verb: string, definition: Value,
                      registry: Registry, callerDir: string, d: Destination)
    requires GetDestinationInfo(definition, verb, callerDir) == Ok(d)
    requires d.cls.Str? && d.responder.Str? && FindGroup(g, KeyOf(d)).None?
    requires d.file in registry && d.cls.s in registry[d.file] && d.responder.s in registry[d.file][d.cls.s]
    ensures AddOperation(g, path, verb, definition, registry, callerDir) ==
            Ok(g + [Group(KeyOf(d), InstanceOf(d, path, registry), map[Upper(verb) := d.responder.s])])
  {
    var grp := Group(KeyOf(d), InstanceOf(d, path, registry), map[]);
    var g' := g + [grp];
    assert g'[|g|] == grp;
    assert grp.methodMap[Upper(verb) := d.responder.s] == map[Upper(verb) := d.responder.s];
    assert g'[|g| := grp.(methodMap := map[Upper(verb) := d.responder.s])] ==
           g + [Group(KeyOf(d), InstanceOf(d, path, registry), map[Upper(verb) := d.responder.s])];
  }

  /** An operation whose key is already cached: its method is looked up on
      the cached instance and added to that group's method map. */
  lemma AddToCachedGroup(g: seq<Group>, path: string, verb: string, definition: Value,
                         registry: Registry, callerDir: string, d: Destination, at: nat)
    requires GetDestinationInfo(definition, verb, callerDir) == Ok(d)
    requires d.cls.Str? && d.responder.Str? && FindGroup(g, KeyOf(d)) == Some(at)
    requires d.responder.s in g[at].instance.attrs
    ensures AddOperation(g, path, verb, definition, registry, callerDir) ==
            Ok(g[at := g[at].(methodMap := g[at].methodMap[Upper(verb) := d.responder.s])])
  {
  }

  /** Two operations in a row. */
  lemma GroupsOfTwo(m1: Field, m2: Field, path: string, registry: Registry, callerDir: string,
                    g1: seq<Group>, g2: seq<Group>)
    requires AddOperation([], path, m1.key, m1.val, registry, callerDir) == Ok(g1)
    requires AddOperation(g1, path, m2.key, m2.val, registry, callerDir) == Ok(g2)
    ensures GroupsFrom([m1, m2], 0, [], path, registry, callerDir) == Ok(g2)
  {
    assert GroupsFrom([m1, m2], 1, g1, path, registry, callerDir) == Ok(g2);
  }

  /** The grouping key has no separator, so two operations `m1.c1.f1` and
      `m2.c2.f2` whose module and class run together into the same key share
      one group: the second is served by the instance of `c1` from `m1.py`,
      and `m2.py` is never imported. */
  lemma KeyCollision(fs1: seq<Field>, fs2: seq<Field>, v1: string, v2: string,
                     m1: string, c1: string, f1: string, m2: string, c2: string, f2: string,
                     path: string, callerDir: string, registry: Registry)
    requires '.' !in m1 && '.' !in c1 && '.' !in f1 && '.' !in m2 && '.' !in c2 && '.' !in f2
    requires Lookup(fs1, "operationId") == Some(Str(m1 + "." + c1 + "." + f1))
    requires Lookup(fs2, "operationId") == Some(Str(m2 + "." + c2 + "." + f2))
    requires m1 + c1 == m2 + c2
    requires callerDir + m1 + ".py" in registry && c1 in registry[callerDir + m1 + ".py"]
    requires f1 in registry[callerDir + m1 + ".py"][c1] && f2 in registry[callerDir + m1 + ".py"][c1]
    ensures var inst := Instance(path, callerDir + m1 + ".py", c1, registry[callerDir + m1 + ".py"][c1]);
      GroupsFrom([Field(v1, Obj(fs1)), Field(v2, Obj(fs2))], 0, [], path, registry, callerDir) ==
      Ok([Group(m1 + c1, inst, map[Upper(v1) := f1][Upper(v2) := f2])])
  {
    OperationIdThreePieces(fs1, m1, c1, f1, v1, callerDir);
    OperationIdThreePieces(fs2, m2, c2, f2, v2, callerDir);
    var d1 := Destination(m1, Str(f1), Str(c1), callerDir + m1 + ".py");
    var d2 := Destination(m2, Str(f2), Str(c2), callerDir + m2 + ".py");
    var inst := Instance(path, callerDir + m1 + ".py", c1, registry[callerDir + m1 + ".py"][c1]);
    AddToNewGroup([], path, v1, Obj(fs1), registry, callerDir, d1);
    var g1 := [Group(m1 + c1, inst, map[Upper(v1) := f1])];
    assert [] + g1 == g1;
    assert FindGroup(g1, KeyOf(d2)) == Some(0);
    AddToCachedGroup(g1, path, v2, Obj(fs2), registry, callerDir, d2, 0);
    var g2 := [Group(m1 + c1, inst, map[Upper(v1) := f1][Upper(v2) := f2])];
    assert g1[0 := g1[0].(methodMap := g1[0].methodMap[Upper(v2) := f2])] == g2;
    GroupsOfTwo(Field(v1, Obj(fs1)), Field(v2, Obj(fs2)), path, registry, callerDir, g1, g2);
  }

  // ---------------------------------------------------------------- routes

  /** The route table maps the HTTP method `verb` at `path`. */
  predicate Routed(routes: seq<Route>, path: string, verb: string) {
    exists k :: 0 <= k < |routes| && routes[k].path == path && Upper(verb) in routes[k].methodMap
  }

  /** The routes of one path carry the landings of its groups. */
  lemma RoutesOfLands(path: string, groups: seq<Group>, key: string, verb: string)
    requires Lands(groups, key, verb)
    ensures Routed(RoutesOf(path, groups), path, verb)
  {
    var k :| 0 <= k < |groups| && groups[k].key == key && Upper(verb) in groups[k].methodMap;
    assert RoutesOf(path, groups)[k].path == path;
  }

  /** A longer table keeps every route of a shorter one. */
  lemma RoutedKept(routes: seq<Route>, more: seq<Route>, path: string, verb: string)
    requires routes <= more && Routed(routes, path, verb)
    ensures Routed(more, path, verb)
  {
    var k :| 0 <= k < |routes| && routes[k].path == path && Upper(verb) in routes[k].methodMap;
    assert more[k] == routes[k];
  }

  /** The path loop of `__init__`: it only appends routes; each new route sits
      at the base path followed by one of the document's paths, holds an
      instance created for that route, and maps upper-case methods only; and
      every resolvable operation of every path is routed. */
  lemma {:induction false} RoutesFromRoutes(paths: seq<Field>, i: nat, basePath: string, registry: Registry,
                                            callerDir: string, routes: seq<Route>)
    requires i <= |paths|
    ensures var r := RoutesFrom(paths, i, basePath, registry, callerDir, routes);
      r.Ok? ==>
        && routes <= r.value
        && (forall k :: |routes| <= k < |r.value| ==>
              && (exists j :: i <= j < |paths| && r.value[k].path == basePath + paths[j].key)
              && r.value[k].resource.path == r.value[k].path
              && forall m :: m in r.value[k].methodMap ==> m == Upper(m))
        && (forall j, o :: i <= j < |paths| && paths[j].val.Obj? && 0 <= o < |paths[j].val.fields|
                           && GetDestinationInfo(paths[j].val.fields[o].val, paths[j].val.fields[o].key, callerDir).Ok? ==>
              Routed(r.value, basePath + paths[j].key, paths[j].val.fields[o].key))
    decreases |paths| - i
  {
    var r := RoutesFrom(paths, i, basePath, registry, callerDir, routes);
    if i < |paths| && r.Ok? {
      var p := paths[i];
      var path := basePath + p.key;
      var groups := GroupsFrom(p.val.fields, 0, [], path, registry, callerDir).value;
      GroupsFromGroups(p.val.fields, 0, [], path, registry, callerDir);
      var routes' := routes + RoutesOf(path, groups);
      assert r == RoutesFrom(paths, i + 1, basePath, registry, callerDir, routes');
      RoutesFromRoutes(paths, i + 1, basePath, registry, callerDir, routes');
      forall k | |routes| <= k < |r.value|
        ensures && (exists j :: i <= j < |paths| && r.value[k].path == basePath + paths[j].key)
                && r.value[k].resource.path == r.value[k].path
                && forall m :: m in r.value[k].methodMap ==> m == Upper(m)
      {
        if k < |routes'| {
          assert r.value[k] == routes'[k] == RoutesOf(path, groups)[k - |routes|];
          assert r.value[k].path == basePath + paths[i].key;
        }
      }
      forall j, o | i <= j < |paths| && paths[j].val.Obj? && 0 <= o < |paths[j].val.fields|
                    && GetDestinationInfo(paths[j].val.fields[o].val, paths[j].val.fields[o].key, callerDir).Ok?
        ensures Routed(r.value, basePath + paths[j].key, paths[j].val.fields[o].key)
      {
        if j == i {
          var op := p.val.fields[o];
          var d := GetDestinationInfo(op.val, op.key, callerDir).value;
          RoutesOfLands(path, groups, KeyOf(d), op.key);
          var k :| 0 <= k < |RoutesOf(path, groups)| && RoutesOf(path, groups)[k].path == path
                   && Upper(op.key) in RoutesOf(path, groups)[k].methodMap;
          assert routes'[|routes| + k] == RoutesOf(path, groups)[k];
          assert Routed(routes', path, op.key);
          RoutedKept(routes', r.value, path, op.key);
        }
      }
    }
  }

  /** `rs` sits in `routes` from position `o` on. */
  predicate Block(routes: seq<Route>, o: nat, rs: seq<Route>) {
    o + |rs| <= |routes| && routes[o..o + |rs|] == rs
  }

  /** The route records of path `j` are the groups of its operations, one
      record per group in group order, side by side in the table; so each
      record's method map is the one `PathMethods` describes. */
  lemma {:induction false} RoutesFromPath(paths: seq<Field>, i: nat, basePath: string, registry: Registry,
                                          callerDir: string, routes: seq<Route>, j: nat)
    requires i <= j < |paths|
    requires RoutesFrom(paths, i, basePath, registry, callerDir, routes).Ok?
    ensures paths[j].val.Obj?
    ensures GroupsFrom(paths[j].val.fields, 0, [], basePath + paths[j].key, registry, callerDir).Ok?
    ensures var gs := GroupsFrom(paths[j].val.fields, 0, [], basePath + paths[j].key, registry, callerDir).value;
      var r := RoutesFrom(paths, i, basePath, registry, callerDir, routes).value;
      exists o :: |routes| <= o && Block(r, o, RoutesOf(basePath + paths[j].key, gs))
    decreases |paths| - i
  {
    var r := RoutesFrom(paths, i, basePath, registry, callerDir, routes);
    var path := basePath + paths[i].key;
    var groups := GroupsFrom(paths[i].val.fields, 0, [], path, registry, callerDir).value;
    var routes' := routes + RoutesOf(path, groups);
    assert r == RoutesFrom(paths, i + 1, basePath, registry, callerDir, routes');
    if j == i {
      RoutesFromRoutes(paths, i + 1, basePath, registry, callerDir, routes');
      assert r.value[|routes|..|routes| + |groups|] == routes'[|routes|..] == RoutesOf(path, groups);
      assert Block(r.value, |routes|, RoutesOf(path, groups));
    } else {
      RoutesFromPath(paths, i + 1, basePath, registry, callerDir, routes', j);
    }
  }

  /** The route table after the path loop: record `k` of path `j` sits at
      the base path followed by path `j`, and maps `verb` exactly when some
      operation of that path resolves to the record's group under that
      upper-cased method, to the method name of the last such operation. */
  lemma RouteMethods(paths: seq<Field>, basePath: string, registry: Registry, callerDir: string,
                     routes: seq<Route>, j: nat, k: nat, verb: string)
    requires j < |paths| && RoutesFrom(paths, 0, basePath, registry, callerDir, routes).Ok?
    requires paths[j].val.Obj? && GroupsFrom(paths[j].val.fields, 0, [], basePath + paths[j].key, registry, callerDir).Ok?
    requires k < |GroupsFrom(paths[j].val.fields, 0, [], basePath + paths[j].key, registry, callerDir).value|
    ensures var ms := paths[j].val.fields;
      var path := basePath + paths[j].key;
      var gs := GroupsFrom(ms, 0, [], path, registry, callerDir).value;
      var r := RoutesFrom(paths, 0, basePath, registry, callerDir, routes).value;
      var rt := RoutesOf(path, gs)[k];
      && (exists o :: |routes| <= o && Block(r, o, RoutesOf(path, gs)))
      && rt.path == path
      && (verb in rt.methodMap <==> exists j' :: 0 <= j' < |ms| && Binds(ms[j'], gs[k].key, verb, callerDir))
      && forall j' :: 0 <= j' < |ms| && Binds(ms[j'], gs[k].key, verb, callerDir) && LastBinds(ms, j', gs[k].key, verb, callerDir) ==>
           rt.methodMap[verb] == ResponderOf(ms[j'], callerDir)
  {
    RoutesFromPath(paths, 0, basePath, registry, callerDir, routes, j);
    PathMethods(paths[j].val.fields, basePath + paths[j].key, registry, callerDir, k, verb);
  }
}
