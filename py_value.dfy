/** Python's view of a parsed OpenAPI document: the values json.loads and
    yaml.safe_load produce, the two kinds the validator adds (decimal numbers
    and compiled regular expressions), and the handful of Python operations the
    core applies to them (`in`, `[]`, `.get`, truthiness, `==`). */
module PyValue {

  /** A document value. `Obj` keeps the fields in insertion order, as a Python
      dict does; `Regex` is a compiled pattern, remembered by its source. */
  datatype Value =
    | Null
    | Bool(b: bool)
    | Int(i: int)
    | Flt(f: real)
    | Dec(d: real)
    | Str(s: string)
    | List(items: seq<Value>)
    | Obj(fields: seq<Field>)
    | Regex(source: string)

  datatype Field = Field(key: string, val: Value)

  datatype Option<+T> = None | Some(value: T)

  /** Every exception the core raises or lets escape. */
  datatype Error =
    // raised by validator.py itself
    | ParamNotPassed      // 'Param not passed'
    | SchemaNeeded        // 'schema or spec_def needed'
    | UnknownType         // 'unknown type'
    | NotAStr             // 'Not a str'
    | TooShort            // 'too short'
    | TooLong             // 'too long'
    | NoMatch             // 'does not match regex'
    | NotAnInteger        // 'not an integer'
    | NotANumber          // 'Not a number'
    | TooBig              // 'too big'
    | TooSmall            // 'too small'
    | NotMultipleOf       // 'not multipleOf'
    | NotABool            // 'not a bool'
    | NotInEnum           // 'param not in enum'
    | NotAList            // 'not a list'
    | NotAnObject         // 'not an object'
    | UnknownProperty     // 'unknown property'
    // raised by router.py / openapi.py
    | NoDestination       // ValueError: no operationId or x-falcon
    | NoSpecFile(dir: string)   // neither default spec file exists; the message names `dir`
    | FileNotFound(path: string)
    | ParseError          // the JSON or YAML parser refused the text
    | SpecNotLoaded       // UnboundLocalError: router.py never assigned the document
    // raised by the Python runtime
    | KeyError(key: string)
    | TypeError
    | AttributeError
    | IndexError
    | ArithmeticError     // ZeroDivisionError, decimal.InvalidOperation

  datatype Result<+T> = Ok(value: T) | Err(error: Error) {
    predicate IsFailure() { Err? }
    function PropagateFailure<U>(): Result<U> requires Err? { Err(error) }
    function Extract(): T requires Ok? { value }
  }

  /** The keys of a dict, as a set. */
  function Keys(fs: seq<Field>): set<string> {
    set k | 0 <= k < |fs| :: fs[k].key
  }

  /** `d.get(k)`: the value filed under `k` (the first entry with that key). */
  function Lookup(fs: seq<Field>, k: string): (r: Option<Value>)
    ensures r.Some? <==> k in Keys(fs)
  {
    if fs == [] then None
    else if fs[0].key == k then Some(fs[0].val)
    else
      var r := Lookup(fs[1..], k);
      assert Keys(fs) == {fs[0].key} + Keys(fs[1..]) by {
        forall x | x in Keys(fs) ensures x in {fs[0].key} + Keys(fs[1..]) {
          var j :| 0 <= j < |fs| && fs[j].key == x;
          if j > 0 { assert fs[1..][j - 1].key == x; }
        }
      }
      r
  }

  /** `d.get(k, default)` on a dict. */
  function GetOr(fs: seq<Field>, k: string, default: Value): Value {
    match Lookup(fs, k)
    case Some(v) => v
    case None => default
  }

  /** `d[k] = v`: an existing key keeps its position and gets the new value,
      a new key is appended. */
  function SetField(fs: seq<Field>, k: string, v: Value): (r: seq<Field>)
    ensures Lookup(r, k) == Some(v)
    ensures forall j :: j != k ==> Lookup(r, j) == Lookup(fs, j)
    ensures Keys(r) == Keys(fs) + {k}
    ensures |r| == if k in Keys(fs) then |fs| else |fs| + 1
  {
    if fs == [] then [Field(k, v)]
    else
      assert Keys(fs) == {fs[0].key} + Keys(fs[1..]) by {
        forall x | x in Keys(fs) ensures x in {fs[0].key} + Keys(fs[1..]) {
          var j :| 0 <= j < |fs| && fs[j].key == x;
          if j > 0 { assert fs[1..][j - 1].key == x; }
        }
      }
      if fs[0].key == k then
        var r := [Field(k, v)] + fs[1..];
        assert r[1..] == fs[1..];
        assert Keys(r) == {k} + Keys(fs[1..]) by {
          forall x | x in Keys(r) ensures x in {k} + Keys(fs[1..]) {
            var j :| 0 <= j < |r| && r[j].key == x;
            if j > 0 { assert r[j] == fs[1..][j - 1]; }
          }
          assert r[0].key == k;
          forall x | x in Keys(fs[1..]) ensures x in Keys(r) {
            var j :| 0 <= j < |fs[1..]| && fs[1..][j].key == x;
            assert r[j + 1] == fs[1..][j];
          }
        }
        r
      else
        var t := SetField(fs[1..], k, v);
        var r := [fs[0]] + t;
        assert r[1..] == t;
        assert Keys(r) == {fs[0].key} + Keys(t) by {
          forall x | x in Keys(r) ensures x in {fs[0].key} + Keys(t) {
            var j :| 0 <= j < |r| && r[j].key == x;
            if j > 0 { assert r[j] == t[j - 1]; }
          }
          assert r[0] == fs[0];
          forall x | x in Keys(t) ensures x in Keys(r) {
            var j :| 0 <= j < |t| && t[j].key == x;
            assert r[j + 1] == t[j];
          }
        }
        r
  }

  /** The keys of a non-empty dict: its first key and the keys of the rest. */
  lemma KeysCons(fs: seq<Field>)
    requires fs != []
    ensures Keys(fs) == {fs[0].key} + Keys(fs[1..])
  {
    forall x | x in Keys(fs) ensures x in {fs[0].key} + Keys(fs[1..]) {
      var j :| 0 <= j < |fs| && fs[j].key == x;
      if j > 0 { assert fs[1..][j - 1].key == x; }
    }
  }

  /** The first entry filed under a key is the one `d[k]` finds. */
  lemma {:induction false} LookupFirst(fs: seq<Field>, j: nat)
    requires j < |fs| && forall i :: 0 <= i < j ==> fs[i].key != fs[j].key
    ensures Lookup(fs, fs[j].key) == Some(fs[j].val)
  {
    if j > 0 {
      LookupFirst(fs[1..], j - 1);
    }
  }

  /** The keys of a dict with one more entry at the end. */
  lemma KeysAppend(fs: seq<Field>, f: Field)
    ensures Keys(fs + [f]) == Keys(fs) + {f.key}
  {
    var t := fs + [f];
    forall x | x in Keys(t) ensures x in Keys(fs) + {f.key} {
      var k :| 0 <= k < |t| && t[k].key == x;
      if k < |fs| { assert fs[k].key == x; }
    }
    forall x | x in Keys(fs) ensures x in Keys(t) {
      var k :| 0 <= k < |fs| && fs[k].key == x;
      assert t[k].key == x;
    }
    assert t[|fs|].key == f.key;
  }

  /** Looking up in a dict with one more entry at the end. */
  lemma {:induction false} LookupAppend(fs: seq<Field>, f: Field, k: string)
    ensures Lookup(fs + [f], k) ==
      if k in Keys(fs) then Lookup(fs, k) else if f.key == k then Some(f.val) else None
  {
    if fs == [] {
      assert [] + [f] == [f];
    } else {
      KeysCons(fs);
      assert (fs + [f])[1..] == fs[1..] + [f];
      LookupAppend(fs[1..], f, k);
    }
  }

  /** Storing under a new key appends the entry. */
  lemma {:induction false} SetFieldAppends(fs: seq<Field>, k: string, v: Value)
    requires k !in Keys(fs)
    ensures SetField(fs, k, v) == fs + [Field(k, v)]
  {
    if fs != [] {
      KeysCons(fs);
      SetFieldAppends(fs[1..], k, v);
      assert [fs[0]] + (fs[1..] + [Field(k, v)]) == fs + [Field(k, v)];
    }
  }

  /** Storing under a key the value it already holds changes nothing. */
  lemma {:induction false} SetFieldSame(fs: seq<Field>, k: string, v: Value)
    requires Lookup(fs, k) == Some(v)
    ensures SetField(fs, k, v) == fs
  {
    if fs[0].key == k {
      assert [Field(k, v)] + fs[1..] == fs;
    } else {
      SetFieldSame(fs[1..], k, v);
      assert [fs[0]] + fs[1..] == fs;
    }
  }

  /** Every entry after `d[k] = v` is the new one or an entry from before. */
  lemma {:induction false} SetFieldEntries(fs: seq<Field>, k: string, v: Value)
    ensures forall j :: 0 <= j < |SetField(fs, k, v)| ==> SetField(fs, k, v)[j] == Field(k, v) || SetField(fs, k, v)[j] in fs
  {
    if fs != [] && fs[0].key != k {
      SetFieldEntries(fs[1..], k, v);
      var t := SetField(fs[1..], k, v);
      assert SetField(fs, k, v) == [fs[0]] + t;
      forall j | 0 <= j < |SetField(fs, k, v)| ensures SetField(fs, k, v)[j] == Field(k, v) || SetField(fs, k, v)[j] in fs {
        if j > 0 {
          assert SetField(fs, k, v)[j] == t[j - 1];
          if t[j - 1] in fs[1..] {
            var i :| 0 <= i < |fs[1..]| && fs[1..][i] == t[j - 1];
            assert fs[i + 1] == t[j - 1];
          }
        }
      }
    } else if fs != [] {
      var r := SetField(fs, k, v);
      forall j | 0 <= j < |r| ensures r[j] == Field(k, v) || r[j] in fs {
        if j > 0 { assert r[j] == fs[j]; }
      }
    }
  }

  /** `d.pop(k)` without its result: every entry filed under `k` goes. */
  function RemoveField(fs: seq<Field>, k: string): (r: seq<Field>)
    ensures Lookup(r, k) == None
    ensures forall j :: j != k ==> Lookup(r, j) == Lookup(fs, j)
  {
    if fs == [] then []
    else if fs[0].key == k then RemoveField(fs[1..], k)
    else [fs[0]] + RemoveField(fs[1..], k)
  }

  /** Python truthiness: `bool(v)`. */
  predicate Truthy(v: Value) {
    match v
    case Null => false
    case Bool(b) => b
    case Int(i) => i != 0
    case Flt(f) => f != 0.0
    case Dec(d) => d != 0.0
    case Str(s) => s != []
    case List(xs) => xs != []
    case Obj(fs) => fs != []
    case Regex(_) => true
  }

  /** The number a value stands for in arithmetic and comparisons; `bool` is
      a subclass of `int` in Python, so True and False are 1 and 0. */
  function NumOf(v: Value): Option<real> {
    match v
    case Bool(b) => Some(if b then 1.0 else 0.0)
    case Int(i) => Some(i as real)
    case Flt(f) => Some(f)
    case Dec(d) => Some(d)
    case _ => None
  }

  /** Python `a == b`: numbers compare by value across int, float, Decimal and
      bool; lists element by element; dicts by key and value, regardless of
      order (their keys are unique); other kinds never equal each other. */
  predicate PyEq(a: Value, b: Value)
    decreases a
  {
    if NumOf(a).Some? || NumOf(b).Some? then NumOf(a) == NumOf(b)
    else
      match a
      case Str(x) => b == Str(x)
      case Null => b == Null
      case Regex(x) => b == Regex(x)
      case List(xs) =>
        b.List? && |xs| == |b.items| &&
        forall k :: 0 <= k < |xs| ==> PyEq(xs[k], b.items[k])
      case Obj(fs) =>
        b.Obj? && |fs| == |b.fields| &&
        forall k :: 0 <= k < |fs| ==>
          var w := Lookup(b.fields, fs[k].key); w.Some? && PyEq(fs[k].val, w.value)
      case _ => false
  }

  /** Python hashability: only lists and dicts may not be dict keys. */
  predicate Hashable(v: Value) {
    !v.List? && !v.Obj?
  }

  /** Python `x in container`. */
  function Contains(container: Value, x: Value): (r: Result<bool>)
    ensures container.List? ==> r == Ok(exists e :: e in container.items && PyEq(x, e))
    ensures container.Obj? && x.Str? ==> r == Ok(x.s in Keys(container.fields))
  {
    match container
    case List(xs) => Ok(exists e :: e in xs && PyEq(x, e))
    case Obj(fs) =>
      if !Hashable(x) then Err(TypeError)      // unhashable type
      else Ok(x.Str? && x.s in Keys(fs))       // only a str equals a str key
    case Str(s) =>
      if x.Str? then Ok(IsSubstring(x.s, s))
      else Err(TypeError)                      // 'in <string>' requires string
    case _ => Err(TypeError)                   // argument is not iterable
  }

  /** Python `k in container` for a string `k`: in a list only the equal
      string matches, in a dict the key, in a string a substring. */
  function ContainsStr(container: Value, k: string): Result<bool> {
    match container
    case List(xs) => Ok(Str(k) in xs)
    case Obj(fs) => Ok(k in Keys(fs))
    case Str(s) => Ok(IsSubstring(k, s))
    case _ => Err(TypeError)
  }

  /** ContainsStr is `in` with a string on the left. */
  lemma ContainsStrAgrees(container: Value, k: string)
    ensures ContainsStr(container, k) == Contains(container, Str(k))
  {
    if container.List? {
      assert (exists e :: e in container.items && PyEq(Str(k), e)) <==> Str(k) in container.items;
    }
  }

  predicate IsSubstring(needle: string, hay: string) {
    exists k :: 0 <= k <= |hay| && needle <= hay[k..]
  }

  /** Python `container[key]` with a string key. */
  function Index(container: Value, key: string): (r: Result<Value>)
    ensures r.Ok? <==> container.Obj? && key in Keys(container.fields)
    ensures r.Ok? ==> Lookup(container.fields, key) == Some(r.value)
  {
    match container
    case Obj(fs) =>
      (match Lookup(fs, key)
       case Some(v) => Ok(v)
       case None => Err(KeyError(key)))
    case _ => Err(TypeError)   // list and str indices must be integers; others are not subscriptable
  }

  /** Python `for x in v`: the items of a list, the keys of a dict, the
      characters of a string. */
  function Iterate(v: Value): (r: Result<seq<Value>>)
    ensures v.List? ==> r == Ok(v.items)
  {
    match v
    case List(xs) => Ok(xs)
    case Obj(fs) => Ok(seq(|fs|, k requires 0 <= k < |fs| => Str(fs[k].key)))
    case Str(s) => Ok(seq(|s|, k requires 0 <= k < |s| => Str([s[k]])))
    case _ => Err(TypeError)
  }
}
