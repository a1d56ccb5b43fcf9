/** What the checks of validator.py promise, proved about the functions of
    `Validate`. */
module ValidateProps {
  import opened PyValue
  import opened Validate

  /** A dict literal with one entry. */
  function D1(k: string, v: Value): Value { Obj([Field(k, v)]) }

  /** A dict literal with two entries. */
  function D2(k1: string, v1: Value, k2: string, v2: Value): Value { Obj([Field(k1, v1), Field(k2, v2)]) }

  // ---------------------------------------------------------------- strings

  /** The length bounds of validate_string are inclusive, its pattern must
      match somewhere in the value, its enum is checked last, and an accepted
      value comes back unchanged. Keywords are taken to be of the kinds the
      document format gives them. */
  lemma StringAccepts(param: Value, schema: Value, matches: Matcher)
    requires schema.Obj?
    requires Kw(schema, "minLength").None? || NumOf(Kw(schema, "minLength").value).Some?
    requires Kw(schema, "maxLength").None? || NumOf(Kw(schema, "maxLength").value).Some?
    requires Kw(schema, "pattern").None? || Kw(schema, "pattern").value.Regex?
    requires Kw(schema, "enum").None? || Kw(schema, "enum").value.List?
    ensures var r := ValidateString(param, schema, matches);
      && (r.Ok? <==>
           && param.Str?
           && (Kw(schema, "minLength").Some? ==> NumOf(Kw(schema, "minLength").value).value <= |param.s| as real)
           && (Kw(schema, "maxLength").Some? ==> |param.s| as real <= NumOf(Kw(schema, "maxLength").value).value)
           && (Kw(schema, "pattern").Some? ==> matches(Kw(schema, "pattern").value.source, param.s))
           && (Kw(schema, "enum").Some? ==> exists e :: e in Kw(schema, "enum").value.items && PyEq(param, e)))
      && (r.Ok? ==> r.value == param)
      && (!param.Str? ==> r == Err(NotAStr))
  {
  }

  /** The pattern compiled from "^[a-z]+$" is searched, so a value it does
      not match is refused, with a too-short check that passes first. */
  lemma StringRefusesUnmatched(matches: Matcher)
    requires !matches("^[a-z]+$", "FooBar")
    ensures ValidateString(Str("FooBar"), D1("pattern", Regex("^[a-z]+$")), matches) == Err(NoMatch)
    ensures ValidateString(Str("FooBar"), D1("minLength", Int(10)), matches) == Err(TooShort)
    ensures ValidateString(Str("FooBar"), D1("maxLength", Int(3)), matches) == Err(TooLong)
    ensures ValidateString(Int(1), Obj([]), matches) == Err(NotAStr)
  {
  }

  // ---------------------------------------------------------------- numbers

  /** validate_number dispatches on the value's own kind: a float against a
      non-integer type stays a float (a Decimal under `double`), an int under
      `float` or `double` is converted, a plain int stays an int, a float
      against `integer` and anything that is not an int or a float (a bool,
      a Decimal, a string) are refused. No conversion changes the number. */
  lemma NumberDispatch(param: Value, schema: Value)
    requires schema.Obj?
    ensures var c := ValidateNumber(param, schema);
      var fmt := Kw(schema, "format");
      && (c.result.Ok? ==> IsNumber(c.result.value) && NumOf(c.result.value) == NumOf(param))
      && (param.Flt? && Kw(schema, "type") != Some(Str("integer")) && c.result.Ok? ==>
            c.result.value == if fmt == Some(Str("double")) then Dec(param.f) else param)
      && (param.Int? && fmt == Some(Str("float")) && c.result.Ok? ==> c.result.value == Flt(param.i as real))
      && (param.Int? && fmt == Some(Str("double")) && c.result.Ok? ==> c.result.value == Dec(param.i as real))
      && (param.Int? && fmt != Some(Str("float")) && fmt != Some(Str("double")) && c.result.Ok? ==>
            c.result.value == param)
      && (param.Flt? && Kw(schema, "type") == Some(Str("integer")) ==> c.result == Err(NotAnInteger))
      && (!param.Int? && !param.Flt? ==> c.result == Err(NotANumber))
  {
  }

  /** The numeric round trips the source's tests pin down. */
  lemma NumberExamples()
    ensures ValidateNumber(Int(10), Obj([])).result == Ok(Int(10))
    ensures ValidateNumber(Flt(10.0), Obj([])).result == Ok(Flt(10.0))
    ensures ValidateNumber(Int(10), D1("format", Str("float"))).result == Ok(Flt(10.0))
    ensures ValidateNumber(Int(10), D1("format", Str("double"))).result == Ok(Dec(10.0))
    ensures ValidateNumber(Str("hello"), D1("format", Str("double"))).result == Err(NotANumber)
    ensures ValidateNumber(Bool(true), Obj([])).result == Err(NotANumber)
  {
  }

  /** Only bounds the schema lacks are defaulted; a bound it states is kept. */
  lemma DefaultBoundsKeepExplicit(schema: Value)
    requires schema.Obj?
    ensures WithDefaultBounds(schema).Obj?
    ensures Kw(schema, "minimum").Some? ==> Kw(WithDefaultBounds(schema), "minimum") == Kw(schema, "minimum")
    ensures Kw(schema, "maximum").Some? ==> Kw(WithDefaultBounds(schema), "maximum") == Kw(schema, "maximum")
    ensures Kw(schema, "format") == Some(Str("int32")) ==>
      Kw(WithDefaultBounds(schema), "minimum").Some? && Kw(WithDefaultBounds(schema), "maximum").Some?
    ensures Kw(schema, "format") != Some(Str("int32")) && Kw(schema, "format") != Some(Str("int64")) ==>
      WithDefaultBounds(schema) == schema
    ensures WithDefaultBounds(WithDefaultBounds(schema)) == WithDefaultBounds(schema)
  {
    var fmt := Kw(schema, "format");
    var s1 := if Kw(schema, "minimum").None? && fmt == Some(Str("int32"))
              then Obj(SetField(schema.fields, "minimum", Int(INT32_MIN))) else schema;
    var s2 := if Kw(s1, "maximum").None? && fmt == Some(Str("int32"))
              then Obj(SetField(s1.fields, "maximum", Int(INT32_MAX))) else s1;
    var s3 := if Kw(s2, "minimum").None? && fmt == Some(Str("int64"))
              then Obj(SetField(s2.fields, "minimum", Int(INT64_MIN))) else s2;
    assert Kw(s3, "format") == fmt;
    assert Kw(WithDefaultBounds(schema), "format") == fmt;
  }

  /** Keywords and formats that differ only in the middle. */
  lemma DistinctWords()
    ensures "maximum" != "minimum" && "int32" != "int64"
    ensures "number" != "string" && "int32" != "float"
  {
    assert "maximum"[1] != "minimum"[1];
    assert "int32"[3] != "int64"[3];
    assert "number"[0] != "string"[0];
    assert "int32"[0] != "float"[0];
  }

  /** Storing both bounds in a dict that has neither appends them, the
      minimum first. */
  lemma BoundsAppended(fs: seq<Field>, lo: int, hi: int)
    requires "minimum" !in Keys(fs) && "maximum" !in Keys(fs)
    ensures Lookup(SetField(fs, "minimum", Int(lo)), "maximum") == None
    ensures SetField(SetField(fs, "minimum", Int(lo)), "maximum", Int(hi))
         == fs + [Field("minimum", Int(lo)), Field("maximum", Int(hi))]
  {
    var m := Field("minimum", Int(lo));
    var fs1 := fs + [m];
    SetFieldAppends(fs, "minimum", Int(lo));
    DistinctWords();
    LookupAppend(fs, m, "maximum");
    KeysAppend(fs, m);
    SetFieldAppends(fs1, "maximum", Int(hi));
    assert fs1 + [Field("maximum", Int(hi))] == fs + [m, Field("maximum", Int(hi))];
  }

  /** The schema validate_int leaves behind for a schema with an `int32`
      format and no bounds: the int32 bounds appended. */
  lemma Int32DefaultsAppended(fs: seq<Field>)
    requires Lookup(fs, "format") == Some(Str("int32"))
    requires "minimum" !in Keys(fs) && "maximum" !in Keys(fs)
    ensures WithDefaultBounds(Obj(fs)) ==
      Obj(fs + [Field("minimum", Int(INT32_MIN)), Field("maximum", Int(INT32_MAX))])
  {
    BoundsAppended(fs, INT32_MIN, INT32_MAX);
    assert Lookup(fs, "minimum") == None;
    assert Str("int32") != Str("int64") by { DistinctWords(); }
  }

  /** The schema validate_int leaves behind for a schema with an `int64`
      format and no bounds: the int64 bounds appended. */
  lemma Int64DefaultsAppended(fs: seq<Field>)
    requires Lookup(fs, "format") == Some(Str("int64"))
    requires "minimum" !in Keys(fs) && "maximum" !in Keys(fs)
    ensures WithDefaultBounds(Obj(fs)) ==
      Obj(fs + [Field("minimum", Int(INT64_MIN)), Field("maximum", Int(INT64_MAX))])
  {
    BoundsAppended(fs, INT64_MIN, INT64_MAX);
    assert Lookup(fs, "minimum") == None;
    assert Lookup(fs, "maximum") == None;
    assert Str("int64") != Str("int32") by { DistinctWords(); }
  }

  /** The range check against a schema whose only numeric keywords are the
      two bounds. */
  lemma BoundedRange(x: Value, fs: seq<Field>, lo: int, hi: int)
    requires IsNumber(x)
    requires "maximum" !in Keys(fs) && "minimum" !in Keys(fs)
    requires "exclusiveMinimum" !in Keys(fs) && "exclusiveMaximum" !in Keys(fs) && "multipleOf" !in Keys(fs)
    ensures var s := Obj(fs + [Field("minimum", Int(lo)), Field("maximum", Int(hi))]);
      ValidateMinMaxMult(x, s) ==
        if RealOf(x) > hi as real then Err(TooBig) else if RealOf(x) < lo as real then Err(TooSmall) else Ok(x)
  {
    var fs1 := fs + [Field("minimum", Int(lo))];
    var fs2 := fs1 + [Field("maximum", Int(hi))];
    assert fs2 == fs + [Field("minimum", Int(lo)), Field("maximum", Int(hi))];
    DistinctWords();
    forall k | k in ["maximum", "minimum", "exclusiveMinimum", "exclusiveMaximum", "multipleOf"]
      ensures Lookup(fs2, k) == if k == "maximum" then Some(Int(hi)) else if k == "minimum" then Some(Int(lo)) else None
    {
      LookupAppend(fs, Field("minimum", Int(lo)), k);
      LookupAppend(fs1, Field("maximum", Int(hi)), k);
    }
  }

  /** Under `int32` with no bound of its own an int passes exactly when it is
      in [INT32_MIN, INT32_MAX]; the too-big check comes first. */
  lemma Int32Range(x: int)
    ensures var r := ValidateNumber(Int(x), D1("format", Str("int32"))).result;
      && (r.Ok? <==> INT32_MIN <= x <= INT32_MAX)
      && (x > INT32_MAX ==> r == Err(TooBig))
      && (x < INT32_MIN ==> r == Err(TooSmall))
  {
    var fs := [Field("format", Str("int32"))];
    Int32DefaultsAppended(fs);
    BoundedRange(Int(x), fs, INT32_MIN, INT32_MAX);
    var s := WithDefaultBounds(D1("format", Str("int32")));
    assert Kw(s, "enum").None?;
  }

  /** Under `int64` with no bound of its own an int passes exactly when it is
      in [INT64_MIN, INT64_MAX]. */
  lemma Int64Range(x: int)
    ensures var r := ValidateNumber(Int(x), D1("format", Str("int64"))).result;
      && (r.Ok? <==> INT64_MIN <= x <= INT64_MAX)
      && (x > INT64_MAX ==> r == Err(TooBig))
      && (x < INT64_MIN ==> r == Err(TooSmall))
  {
    var fs := [Field("format", Str("int64"))];
    Int64DefaultsAppended(fs);
    BoundedRange(Int(x), fs, INT64_MIN, INT64_MAX);
    var s := WithDefaultBounds(D1("format", Str("int64")));
    assert Kw(s, "enum").None?;
  }

  /** INT32_MAX + 10 is refused under `int32` and accepted under `int64`;
      the minima are one above the two's-complement minima. */
  lemma IntFormatExamples()
    ensures ValidateNumber(Int(INT32_MAX + 10), D1("format", Str("int32"))).result == Err(TooBig)
    ensures ValidateNumber(Int(INT32_MAX + 10), D1("format", Str("int64"))).result.Ok?
    ensures ValidateNumber(Int(-2147483648), D1("format", Str("int32"))).result == Err(TooSmall)
    ensures ValidateNumber(Int(-9223372036854775808), D1("format", Str("int64"))).result == Err(TooSmall)
  {
    Int32Range(INT32_MAX + 10);
    Int64Range(INT32_MAX + 10);
    Int32Range(-2147483648);
    Int64Range(-9223372036854775808);
  }

  /** The order of validate_min_max_mult: maximum first, then minimum, then
      multipleOf; an accepted value comes back unchanged. The bounds are
      taken to be numeric and the divisor a non-zero number of a kind `%`
      accepts with the value. */
  lemma MinMaxMultOrder(param: Value, schema: Value)
    requires IsNumber(param) && schema.Obj?
    requires Kw(schema, "maximum").None? || NumOf(Kw(schema, "maximum").value).Some?
    requires Kw(schema, "minimum").None? || NumOf(Kw(schema, "minimum").value).Some?
    requires Kw(schema, "multipleOf").None? || RemainderIsZero(param, Kw(schema, "multipleOf").value).Ok?
    ensures var r := ValidateMinMaxMult(param, schema);
      var x := RealOf(param);
      var exMax := Truthy(GetOr(schema.fields, "exclusiveMaximum", Bool(false)));
      var exMin := Truthy(GetOr(schema.fields, "exclusiveMinimum", Bool(false)));
      var tooBig := Kw(schema, "maximum").Some? &&
        (var m := NumOf(Kw(schema, "maximum").value).value; if exMax then x >= m else x > m);
      var tooSmall := Kw(schema, "minimum").Some? &&
        (var m := NumOf(Kw(schema, "minimum").value).value; if exMin then x <= m else x < m);
      var notMult := Kw(schema, "multipleOf").Some? &&
        !RemainderIsZero(param, Kw(schema, "multipleOf").value).value;
      && (r == Err(TooBig) <==> tooBig)
      && (r == Err(TooSmall) <==> !tooBig && tooSmall)
      && (r == Err(NotMultipleOf) <==> !tooBig && !tooSmall && notMult)
      && (r.Ok? <==> !tooBig && !tooSmall && !notMult)
      && (r.Ok? ==> r.value == param)
  {
  }

  /** The exclusive flags make the bound itself fail; without them the
      bound itself passes (the source's tests). */
  lemma MinMaxExamples()
    ensures ValidateMinMaxMult(Int(4), D2("minimum", Int(4), "exclusiveMinimum", Bool(true))) == Err(TooSmall)
    ensures ValidateMinMaxMult(Int(4), D1("minimum", Int(4))) == Ok(Int(4))
    ensures ValidateMinMaxMult(Int(4), D2("maximum", Int(4), "exclusiveMaximum", Bool(true))) == Err(TooBig)
    ensures ValidateMinMaxMult(Int(8), D1("multipleOf", Int(5))) == Err(NotMultipleOf)
    ensures ValidateMinMaxMult(Int(10), D1("multipleOf", Int(5))) == Ok(Int(10))
  {
    assert IsIntegral(10.0 / 5.0);
    assert !IsIntegral(8.0 / 5.0) by { assert (8.0 / 5.0).Floor == 1; }
  }

  // --------------------------------------------------------- booleans, enums

  /** validate_boolean accepts exactly the two booleans. */
  lemma BooleanExact(param: Value)
    ensures ValidateBoolean(param).Ok? <==> param == Bool(true) || param == Bool(false)
    ensures ValidateBoolean(Null) == Err(NotABool)
    ensures ValidateBoolean(Int(0)) == Err(NotABool)
    ensures ValidateBoolean(Str("")) == Err(NotABool)
  {
  }

  /** validate_enum over a list fails exactly when the value equals no member
      under Python's `==`, which identifies numbers across kinds. */
  lemma EnumMembership(param: Value, schema: Value)
    requires schema.Obj? && Kw(schema, "enum").Some? && Kw(schema, "enum").value.List?
    ensures ValidateEnum(param, schema) == Ok(param) <==>
      exists e :: e in Kw(schema, "enum").value.items && PyEq(param, e)
    ensures ValidateEnum(param, schema) != Ok(param) ==> ValidateEnum(param, schema) == Err(NotInEnum)
  {
  }

  /** Decimal(1) is in [1.0, 2.0]; Decimal(3) is not. */
  lemma EnumExamples()
    ensures ValidateEnum(Dec(1.0), D1("enum", List([Flt(1.0), Flt(2.0)]))) == Ok(Dec(1.0))
    ensures ValidateEnum(Dec(3.0), D1("enum", List([Flt(1.0), Flt(2.0)]))) == Err(NotInEnum)
    ensures ValidateEnum(Str("baz"), D1("enum", List([Str("foo"), Str("bar")]))) == Err(NotInEnum)
  {
    var es := [Flt(1.0), Flt(2.0)];
    assert Flt(1.0) in es && PyEq(Dec(1.0), Flt(1.0));
    assert forall e :: e in es ==> !PyEq(Dec(3.0), e);
    var ss := [Str("foo"), Str("bar")];
    assert forall e :: e in ss ==> !PyEq(Str("baz"), e);
  }

  // ------------------------------------------------------------ validate_param

  /** Called as process_resource calls it, with a spec_def and no schema,
      validate_param fails before it looks at the value. */
  lemma ParamWithoutSchemaFails(param: Value, specDef: Value, matches: Matcher)
    ensures ValidateParam(param, specDef, Null, matches).result == Err(AttributeError)
  {
  }

  /** The type comes from the `schema` argument even when `spec_def` supplies
      the schema the checks run against: a string type in spec_def's schema
      is ignored in favour of the integer type of the argument. */
  lemma TypeReadFromSchemaArgument(matches: Matcher)
    ensures ValidateParam(Str("abc"), D1("schema", D1("type", Str("string"))),
                          D1("type", Str("integer")), matches).result == Err(NotANumber)
    ensures ValidateParam(Str("abc"), Null, Obj([]), matches).result == Err(SchemaNeeded)
  {
  }

  /** With a spec_def whose `schema` is not a dict, validate_param still
      dispatches on the type of its schema argument and runs that check until
      it touches the schema: a boolean is checked as usual, a number fails at
      `schema.get`, a string or list passes only while the keywords it looks
      for are not found in the schema, and a dict never passes. */
  lemma LooseSchema(param: Value, specDef: Value, schema: Value, matches: Matcher)
    requires schema.Obj? && specDef.Obj? && specDef.fields != []
    requires !GetOr(specDef.fields, "schema", Obj([])).Obj?
    ensures var w := GetOr(specDef.fields, "schema", Obj([]));
      var c := ValidateParam(param, specDef, schema, matches);
      var t := Kw(schema, "type");
      && c.schema == w
      && (c.result.Ok? ==> c.result.value == param)
      && (t == Some(Str("boolean")) ==> (c.result.Ok? <==> param.Bool?))
      && (t == Some(Str("string")) ==>
            (c.result.Ok? <==> param.Str? && ContainsStr(w, "minLength") == Ok(false) && ContainsStr(w, "maxLength") == Ok(false)
                                && ContainsStr(w, "pattern") == Ok(false) && ContainsStr(w, "enum") == Ok(false)))
      && (t == Some(Str("integer")) || t == Some(Str("number")) ==> c.result == Err(AttributeError))
      && (t == Some(Str("array")) ==>
            (c.result.Ok? <==> param.List? && ContainsStr(w, "items").Ok? && (param.items == [] || !ContainsStr(w, "items").value)))
      && (t == Some(Str("object")) ==> c.result.Err?)
  {
    var w := GetOr(specDef.fields, "schema", Obj([]));
    var keys := ["minLength", "maxLength", "pattern", "enum"];
    assert ValidateParam(param, specDef, schema, matches) == Checked(DispatchLoose(param, Kw(schema, "type"), w), w);
    if Kw(schema, "type") == Some(Str("string")) && param.Str? {
      assert keys[0] == "minLength" && keys[1] == "maxLength" && keys[2] == "pattern" && keys[3] == "enum";
    }
  }

  /** A boolean passes against a spec_def whose `schema` is None, an unknown
      type still raises 'unknown type', and an integer type fails at
      `schema.get`. */
  lemma LooseSchemaExamples(matches: Matcher)
    ensures ValidateParam(Bool(true), D1("schema", Null), D1("type", Str("boolean")), matches).result == Ok(Bool(true))
    ensures ValidateParam(Bool(true), D1("schema", Null), D1("type", Str("uuid")), matches).result == Err(UnknownType)
    ensures ValidateParam(Int(1), D1("schema", Null), D1("type", Str("integer")), matches).result == Err(AttributeError)
  {
  }

  /** A string schema is never written to. */
  lemma StringSchemaUnchanged(param: Value, schema: Value, matches: Matcher)
    requires schema.Obj? && Kw(schema, "type") == Some(Str("string"))
    ensures ValidateParam(param, Null, schema, matches).schema == schema
  {
  }

  // ------------------------------------------------------------------ arrays

  /** The element loop keeps one result per element, in order. */
  lemma {:induction false} ItemsFromLength(param: Value, i: nat, done: seq<Value>, items: Value, matches: Matcher)
    requires param.List? && i <= |param.items|
    ensures var c := ItemsFrom(param, i, done, items, matches);
      c.result.Ok? ==> c.result.value.List? && |c.result.value.items| == |done| + |param.items| - i
                       && c.result.value.items[..|done|] == done
    decreases |param.items| - i
  {
    if i < |param.items| {
      var c := ValidateParam(param.items[i], Null, items, matches);
      if c.result.Ok? {
        ItemsFromLength(param, i + 1, done + [c.result.value], c.schema, matches);
        var r := ItemsFrom(param, i + 1, done + [c.result.value], c.schema, matches);
        if r.result.Ok? {
          assert r.result.value.items[..|done|] == (r.result.value.items[..|done| + 1])[..|done|];
        }
      }
    }
  }

  /** validate_array keeps the length of the list it accepts. */
  lemma ArrayKeepsLength(param: Value, schema: Value, matches: Matcher)
    requires schema.Obj?
    ensures var c := ValidateArray(param, schema, matches);
      c.result.Ok? ==> param.List? && c.result.value.List? && |c.result.value.items| == |param.items|
    ensures !param.List? ==> ValidateArray(param, schema, matches).result == Err(NotAList)
    ensures Kw(schema, "items").None? ==> ValidateArray(param, schema, matches) == Checked(if param.List? then Ok(param) else Err(NotAList), schema)
  {
    if param.List? && Kw(schema, "items").Some? {
      ItemsFromLength(param, 0, [], Kw(schema, "items").value, matches);
    }
  }

  /** When validating an element leaves the item schema as it was, the loop
      accepts exactly when every element is accepted, and puts each element's
      checked value in its place. */
  lemma {:induction false} ItemsFromStable(param: Value, i: nat, done: seq<Value>, items: Value, matches: Matcher)
    requires param.List? && i <= |param.items|
    requires forall k :: i <= k < |param.items| ==> ValidateParam(param.items[k], Null, items, matches).schema == items
    ensures var c := ItemsFrom(param, i, done, items, matches);
      && (c.result.Ok? <==> forall k :: i <= k < |param.items| ==> ValidateParam(param.items[k], Null, items, matches).result.Ok?)
      && (c.result.Ok? ==>
            c.result.value.List? && |c.result.value.items| == |done| + |param.items| - i &&
            (forall k :: 0 <= k < |done| ==> c.result.value.items[k] == done[k]) &&
            forall k :: i <= k < |param.items| ==>
              ValidateParam(param.items[k], Null, items, matches).result == Ok(c.result.value.items[|done| + k - i]))
    decreases |param.items| - i
  {
    if i < |param.items| {
      var c := ValidateParam(param.items[i], Null, items, matches);
      if c.result.Ok? {
        ItemsFromStable(param, i + 1, done + [c.result.value], items, matches);
      }
    }
  }

  /** An array of strings is validated element by element. */
  lemma StringArrayElementwise(param: Value, schema: Value, matches: Matcher)
    requires param.List? && schema.Obj?
    requires Kw(schema, "items").Some? && Kw(schema, "items").value.Obj?
    requires Kw(Kw(schema, "items").value, "type") == Some(Str("string"))
    ensures var c := ValidateArray(param, schema, matches);
      var s := Kw(schema, "items").value;
      && (c.result.Ok? <==> forall k :: 0 <= k < |param.items| ==> ValidateParam(param.items[k], Null, s, matches).result.Ok?)
      && (c.result.Ok? ==> c.result.value == param)
  {
    var s := Kw(schema, "items").value;
    forall k | 0 <= k < |param.items|
      ensures ValidateParam(param.items[k], Null, s, matches).schema == s
    {
      StringSchemaUnchanged(param.items[k], s, matches);
    }
    ItemsFromStable(param, 0, [], s, matches);
    var c := ItemsFrom(param, 0, [], s, matches);
    if c.result.Ok? {
      var out := c.result.value.items;
      forall k | 0 <= k < |param.items| ensures out[k] == param.items[k] {
        assert ValidateParam(param.items[k], Null, s, matches).result == Ok(out[k]);
      }
      assert out == param.items;
    }
  }

  /** Integer items: [1, 2] passes and [1, 2.1] fails. */
  lemma IntegerArrayExamples(matches: Matcher)
    ensures ValidateArray(List([Int(1), Int(2)]), D1("items", D1("type", Str("integer"))), matches).result
            == Ok(List([Int(1), Int(2)]))
    ensures ValidateArray(List([Int(1), Flt(2.1)]), D1("items", D1("type", Str("integer"))), matches).result
            == Err(NotAnInteger)
  {
    var s := D1("type", Str("integer"));
    var a := List([Int(1), Int(2)]);
    assert ValidateParam(Int(1), Null, s, matches) == Checked(Ok(Int(1)), s);
    assert ValidateParam(Int(2), Null, s, matches) == Checked(Ok(Int(2)), s);
    assert [Int(1)] + [Int(2)] == [Int(1), Int(2)];
    assert ItemsFrom(a, 2, [Int(1), Int(2)], s, matches).result == Ok(List([Int(1), Int(2)]));
    assert ItemsFrom(a, 1, [Int(1)], s, matches).result == Ok(List([Int(1), Int(2)]));
    assert [] + [Int(1)] == [Int(1)];
    assert ItemsFrom(a, 0, [], s, matches).result == Ok(List([Int(1), Int(2)]));
    var b := List([Int(1), Flt(2.1)]);
    assert ValidateParam(Flt(2.1), Null, s, matches).result == Err(NotAnInteger);
    assert ItemsFrom(b, 1, [Int(1)], s, matches).result == Err(NotAnInteger);
  }

  /** The bounds validate_int writes into the item schema stay there for the
      later elements: under `type: number, format: int32` the float 3e9 alone
      passes, but after the int 1 it is refused. */
  lemma DefaultBoundsPersistAcrossElements(matches: Matcher)
    ensures ValidateArray(List([Flt(3000000000.0)]),
                          D1("items", D2("type", Str("number"), "format", Str("int32"))), matches).result.Ok?
    ensures ValidateArray(List([Int(1), Flt(3000000000.0)]),
                          D1("items", D2("type", Str("number"), "format", Str("int32"))), matches).result == Err(TooBig)
  {
    var s := Obj(NumberInt32());
    assert s == D2("type", Str("number"), "format", Str("int32"));
    NumberInt32Facts(matches);
    assert [] + [Flt(3000000000.0)] == [Flt(3000000000.0)];
    assert ItemsFrom(List([Flt(3000000000.0)]), 0, [], s, matches).result.Ok?;
    assert [] + [Int(1)] == [Int(1)];
    assert ItemsFrom(List([Int(1), Flt(3000000000.0)]), 0, [], s, matches).result == Err(TooBig);
  }

  /** The item schema of the example above, before and after validate_int. */
  function NumberInt32(): seq<Field> {
    [Field("type", Str("number")), Field("format", Str("int32"))]
  }

  function NumberInt32Bounded(): Value {
    Obj(NumberInt32() + [Field("minimum", Int(INT32_MIN)), Field("maximum", Int(INT32_MAX))])
  }

  /** The three validations the example above is made of. */
  lemma NumberInt32Facts(matches: Matcher)
    ensures ValidateParam(Flt(3000000000.0), Null, Obj(NumberInt32()), matches).result.Ok?
    ensures ValidateParam(Int(1), Null, Obj(NumberInt32()), matches) == Checked(Ok(Int(1)), NumberInt32Bounded())
    ensures ValidateParam(Flt(3000000000.0), Null, NumberInt32Bounded(), matches).result == Err(TooBig)
  {
    var fs := NumberInt32();
    assert Lookup(fs, "minimum").None? && Lookup(fs, "maximum").None? && Lookup(fs, "multipleOf").None?;
    assert Lookup(fs, "exclusiveMinimum").None? && Lookup(fs, "exclusiveMaximum").None?;
    assert Lookup(fs, "enum").None?;
    IntGetsBounds(Int(1), fs, matches);
    FloatAgainstInt32(Flt(3000000000.0), fs, matches);
  }

  /** A schema of type `number` and format `int32` with no bound, divisor or
      enum of its own. */
  predicate BareInt32(fs: seq<Field>) {
    && Lookup(fs, "type") == Some(Str("number"))
    && Lookup(fs, "format") == Some(Str("int32"))
    && "minimum" !in Keys(fs) && "maximum" !in Keys(fs) && "multipleOf" !in Keys(fs)
    && "exclusiveMinimum" !in Keys(fs) && "exclusiveMaximum" !in Keys(fs) && "enum" !in Keys(fs)
  }

  /** Validating an int against such a schema checks it against the int32
      range and hands back the schema with the int32 bounds appended. */
  lemma IntGetsBounds(x: Value, fs: seq<Field>, matches: Matcher)
    requires x.Int? && BareInt32(fs)
    ensures var s' := Obj(fs + [Field("minimum", Int(INT32_MIN)), Field("maximum", Int(INT32_MAX))]);
      ValidateParam(x, Null, Obj(fs), matches) ==
        Checked(if INT32_MIN <= x.i <= INT32_MAX then Ok(x) else if x.i > INT32_MAX then Err(TooBig) else Err(TooSmall), s')
  {
    DistinctWords();
    Int32DefaultsAppended(fs);
    BoundedRange(x, fs, INT32_MIN, INT32_MAX);
    var fs1 := fs + [Field("minimum", Int(INT32_MIN))];
    LookupAppend(fs, Field("minimum", Int(INT32_MIN)), "enum");
    LookupAppend(fs1, Field("maximum", Int(INT32_MAX)), "enum");
    var s' := Obj(fs + [Field("minimum", Int(INT32_MIN)), Field("maximum", Int(INT32_MAX))]);
    assert fs1 + [Field("maximum", Int(INT32_MAX))] == s'.fields;
    var r := if INT32_MIN <= x.i <= INT32_MAX then Ok(x) else if x.i > INT32_MAX then Err(TooBig) else Err(TooSmall);
    assert ValidateInt(x, Obj(fs)) == Checked(r, s');
    assert Kw(s', "enum").None?;
    IntNumber(x, Obj(fs));
    NumberParam(x, Obj(fs), matches);
  }

  /** validate_param on a schema of type `number` is validate_number. */
  lemma NumberParam(param: Value, schema: Value, matches: Matcher)
    requires schema.Obj? && Kw(schema, "type") == Some(Str("number"))
    ensures ValidateParam(param, Null, schema, matches) == ValidateNumber(param, schema)
  {
    assert Str("number") != Str("string") by { DistinctWords(); }
    assert schema.fields != [];
    NoSpecDef(param, schema, matches);
  }

  /** Without a spec_def, validate_param dispatches on the schema it is given. */
  lemma NoSpecDef(param: Value, schema: Value, matches: Matcher)
    requires schema.Obj? && schema.fields != []
    ensures ValidateParam(param, Null, schema, matches) == Dispatch(param, Kw(schema, "type"), schema, matches)
  {
  }

  /** validate_number on an int whose format asks for no conversion is
      validate_int followed by the enum check against the updated schema. */
  lemma IntNumber(x: Value, schema: Value)
    requires x.Int? && schema.Obj?
    requires Kw(schema, "format") != Some(Str("float")) && Kw(schema, "format") != Some(Str("double"))
    ensures var c := ValidateInt(x, schema);
      ValidateNumber(x, schema) == Checked(if c.result.Ok? then ValidateEnum(x, c.schema) else c.result, c.schema)
  {
  }

  /** A float checked against such a schema once the bounds are in it. */
  lemma FloatAgainstInt32(x: Value, fs: seq<Field>, matches: Matcher)
    requires x.Flt? && BareInt32(fs)
    ensures ValidateParam(x, Null, Obj(fs), matches).result == Ok(x)
    ensures var s' := Obj(fs + [Field("minimum", Int(INT32_MIN)), Field("maximum", Int(INT32_MAX))]);
      ValidateParam(x, Null, s', matches).result ==
        if x.f > INT32_MAX as real then Err(TooBig) else if x.f < INT32_MIN as real then Err(TooSmall) else Ok(x)
  {
    DistinctWords();
    BoundedRange(x, fs, INT32_MIN, INT32_MAX);
    var fs1 := fs + [Field("minimum", Int(INT32_MIN))];
    var s' := Obj(fs + [Field("minimum", Int(INT32_MIN)), Field("maximum", Int(INT32_MAX))]);
    assert fs1 + [Field("maximum", Int(INT32_MAX))] == s'.fields;
    forall k | k in ["type", "format", "enum"] ensures Lookup(s'.fields, k) == Lookup(fs, k) {
      LookupAppend(fs, Field("minimum", Int(INT32_MIN)), k);
      LookupAppend(fs1, Field("maximum", Int(INT32_MAX)), k);
    }
    NumberParam(x, Obj(fs), matches);
    NumberParam(x, s', matches);
  }

  // ----------------------------------------------------------------- objects

  /** The keys done so far, one entry more. */
  lemma KeysSoFar(param: Value, i: nat, done: seq<Field>, v: Value)
    requires param.Obj? && i < |param.fields|
    requires |done| == i && forall k :: 0 <= k < i ==> done[k].key == param.fields[k].key
    ensures var done' := done + [Field(param.fields[i].key, v)];
      |done'| == i + 1 && forall k :: 0 <= k < i + 1 ==> done'[k].key == param.fields[k].key
  {
  }

  /** The entry loop keeps every key, in order. */
  lemma {:induction false} FieldsFromKeys(param: Value, i: nat, done: seq<Field>, schema: Value,
                                          propsIn: bool, strict: bool, addl: Value, matches: Matcher)
    requires param.Obj? && i <= |param.fields| && schema.Obj?
    requires |done| == i && forall k :: 0 <= k < i ==> done[k].key == param.fields[k].key
    ensures var c := FieldsFrom(param, i, done, schema, propsIn, strict, addl, matches);
      c.result.Ok? ==>
        && c.result.value.Obj? && |c.result.value.fields| == |param.fields|
        && (forall k :: 0 <= k < |param.fields| ==> c.result.value.fields[k].key == param.fields[k].key)
    decreases |param.fields| - i
  {
    if i < |param.fields| {
      var f := param.fields[i];
      var props := GetOr(schema.fields, "properties", Null);
      var inProps := if propsIn then Contains(props, Str(f.key)) else Ok(false);
      if inProps.Ok? {
        if inProps.value && props.Obj? {
          FieldsFromDeclaredStep(param, i, done, schema, propsIn, strict, addl, matches);
          var c := ValidateParam(f.val, Null, GetOr(props.fields, f.key, Null), matches);
          var schema' := Obj(SetField(schema.fields, "properties", Obj(SetField(props.fields, f.key, c.schema))));
          if c.result.Ok? {
            KeysSoFar(param, i, done, c.result.value);
            FieldsFromKeys(param, i + 1, done + [Field(f.key, c.result.value)], schema', propsIn, strict, addl, matches);
          }
        } else if !inProps.value {
          FieldsFromOtherStep(param, i, done, schema, propsIn, strict, addl, matches);
          if strict {
            var c := ValidateParam(f.val, Null, addl, matches);
            var schema' := Obj(SetField(schema.fields, "additionalProperties", c.schema));
            if c.result.Ok? {
              KeysSoFar(param, i, done, c.result.value);
              FieldsFromKeys(param, i + 1, done + [Field(f.key, c.result.value)], schema', propsIn, strict, c.schema, matches);
            }
          } else if Truthy(addl) {
            KeysSoFar(param, i, done, f.val);
            FieldsFromKeys(param, i + 1, done + [f], schema, propsIn, strict, addl, matches);
          }
        }
      }
    }
  }

  /** validate_object keeps every key of the dict it accepts, in order. */
  lemma ObjectKeepsKeys(param: Value, schema: Value, matches: Matcher)
    requires schema.Obj?
    ensures var c := ValidateObject(param, schema, matches);
      c.result.Ok? ==>
        && param.Obj? && c.result.value.Obj? && |c.result.value.fields| == |param.fields|
        && (forall k :: 0 <= k < |param.fields| ==> c.result.value.fields[k].key == param.fields[k].key)
    ensures !param.Obj? ==> ValidateObject(param, schema, matches).result == Err(NotAnObject)
  {
    if param.Obj? {
      var addl := GetOr(schema.fields, "additionalProperties", Bool(false));
      FieldsFromKeys(param, 0, [], schema, Kw(schema, "properties").Some?, addl.Obj?, addl, matches);
    }
  }

  /** The keys a dict `properties` declares, or none when it is absent. */
  function Declared(schema: Value): set<string>
    requires schema.Obj?
  {
    match Kw(schema, "properties")
    case Some(Obj(ps)) => Keys(ps)
    case _ => {}
  }

  /** Writing a property's schema back adds its key to the declared
      properties; for a key already declared the set stays as it was. */
  lemma DeclaredAfterProperty(schema: Value, props: seq<Field>, k: string, v: Value)
    requires schema.Obj? && Kw(schema, "properties") == Some(Obj(props))
    ensures Declared(Obj(SetField(schema.fields, "properties", Obj(SetField(props, k, v))))) == Declared(schema) + {k}
  {
  }

  /** With `additionalProperties` absent or falsy and not a dict, an accepted
      dict has only declared keys: any other key is refused. */
  lemma {:induction false} FieldsFromOnlyDeclared(param: Value, i: nat, done: seq<Field>, schema: Value,
                                                  addl: Value, matches: Matcher)
    requires param.Obj? && i <= |param.fields| && schema.Obj?
    requires !addl.Obj? && !Truthy(addl)
    requires Kw(schema, "properties").None? || Kw(schema, "properties").value.Obj?
    ensures var c := FieldsFrom(param, i, done, schema, Kw(schema, "properties").Some?, false, addl, matches);
      c.result.Ok? ==> forall k :: i <= k < |param.fields| ==> param.fields[k].key in Declared(schema)
    decreases |param.fields| - i
  {
    if i < |param.fields| {
      var f := param.fields[i];
      var propsIn := Kw(schema, "properties").Some?;
      var props := GetOr(schema.fields, "properties", Null);
      if propsIn && f.key in Keys(props.fields) {
        assert Contains(props, Str(f.key)) == Ok(true);
        FieldsFromDeclaredStep(param, i, done, schema, propsIn, false, addl, matches);
        var c := ValidateParam(f.val, Null, GetOr(props.fields, f.key, Null), matches);
        var schema' := Obj(SetField(schema.fields, "properties", Obj(SetField(props.fields, f.key, c.schema))));
        DeclaredAfterProperty(schema, props.fields, f.key, c.schema);
        assert Kw(schema', "properties").Some?;
        var here := FieldsFrom(param, i, done, schema, propsIn, false, addl, matches);
        if c.result.Ok? {
          FieldsFromOnlyDeclared(param, i + 1, done + [Field(f.key, c.result.value)], schema', addl, matches);
          assert f.key in Declared(schema);
          if here.result.Ok? {
            forall k | i <= k < |param.fields| ensures param.fields[k].key in Declared(schema) {
              if k > i {
                assert param.fields[k].key in Declared(schema');
              }
            }
          }
        } else {
          assert here.result.Err?;
        }
      } else {
        assert propsIn ==> Contains(props, Str(f.key)) == Ok(false);
        FieldsFromOtherStep(param, i, done, schema, propsIn, false, addl, matches);
        assert FieldsFrom(param, i, done, schema, propsIn, false, addl, matches).result == Err(UnknownProperty);
      }
    }
  }

  /** additionalProperties false (the default): a key outside `properties`
      makes validate_object fail. */
  lemma UnknownKeyRefused(param: Value, schema: Value, matches: Matcher)
    requires param.Obj? && schema.Obj?
    requires Kw(schema, "properties").None? || Kw(schema, "properties").value.Obj?
    requires Kw(schema, "additionalProperties").None? || Kw(schema, "additionalProperties") == Some(Bool(false))
    requires exists k :: 0 <= k < |param.fields| && param.fields[k].key !in Declared(schema)
    ensures ValidateObject(param, schema, matches).result.Err?
  {
    var addl := GetOr(schema.fields, "additionalProperties", Bool(false));
    FieldsFromOnlyDeclared(param, 0, [], schema, addl, matches);
  }

  /** additionalProperties true: a key outside `properties` keeps its value. */
  lemma {:induction false} FieldsFromAllowed(param: Value, i: nat, done: seq<Field>, schema: Value,
                                             addl: Value, matches: Matcher)
    requires param.Obj? && i <= |param.fields| && schema.Obj?
    requires !addl.Obj? && Truthy(addl)
    requires Kw(schema, "properties").None? || Kw(schema, "properties").value.Obj?
    requires |done| == i
    ensures var c := FieldsFrom(param, i, done, schema, Kw(schema, "properties").Some?, false, addl, matches);
      c.result.Ok? ==>
        && c.result.value.Obj? && |c.result.value.fields| == |param.fields|
        && (forall k :: 0 <= k < i ==> c.result.value.fields[k] == done[k])
        && (forall k :: i <= k < |param.fields| && param.fields[k].key !in Declared(schema) ==>
              c.result.value.fields[k] == param.fields[k])
    decreases |param.fields| - i
  {
    if i < |param.fields| {
      var f := param.fields[i];
      var propsIn := Kw(schema, "properties").Some?;
      var props := GetOr(schema.fields, "properties", Null);
      if propsIn && f.key in Keys(props.fields) {
        var c := ValidateParam(f.val, Null, GetOr(props.fields, f.key, Null), matches);
        var schema' := Obj(SetField(schema.fields, "properties", Obj(SetField(props.fields, f.key, c.schema))));
        DeclaredAfterProperty(schema, props.fields, f.key, c.schema);
        assert Kw(schema', "properties").Some?;
        assert Contains(props, Str(f.key)) == Ok(true);
        FieldsFromDeclaredStep(param, i, done, schema, propsIn, false, addl, matches);
        if c.result.Ok? {
          FieldsFromAllowed(param, i + 1, done + [Field(f.key, c.result.value)], schema', addl, matches);
        }
      } else {
        assert propsIn ==> Contains(props, Str(f.key)) == Ok(false);
        FieldsFromOtherStep(param, i, done, schema, propsIn, false, addl, matches);
        FieldsFromAllowed(param, i + 1, done + [f], schema, addl, matches);
      }
    }
  }

  /** additionalProperties true: undeclared keys pass through unchanged. */
  lemma UndeclaredKeptWhenAllowed(param: Value, schema: Value, matches: Matcher)
    requires param.Obj? && schema.Obj?
    requires Kw(schema, "properties").None? || Kw(schema, "properties").value.Obj?
    requires Kw(schema, "additionalProperties") == Some(Bool(true))
    ensures var c := ValidateObject(param, schema, matches);
      c.result.Ok? ==>
        && c.result.value.Obj? && |c.result.value.fields| == |param.fields|
        && (forall k :: 0 <= k < |param.fields| && param.fields[k].key !in Declared(schema) ==>
              c.result.value.fields[k] == param.fields[k])
  {
    FieldsFromAllowed(param, 0, [], schema, Bool(true), matches);
  }

  /** `additionalProperties` as validate_object reads it. */
  function AddlOf(schema: Value): Value
    requires schema.Obj?
  {
    GetOr(schema.fields, "additionalProperties", Bool(false))
  }

  /** The schema an entry under `key` is validated against: its declared
      property's schema, else a dict `additionalProperties`, else none. */
  function SubSchema(schema: Value, key: string): Option<Value>
    requires schema.Obj?
  {
    var props := Kw(schema, "properties");
    if props.Some? && props.value.Obj? && key in Keys(props.value.fields) then Some(GetOr(props.value.fields, key, Null))
    else if AddlOf(schema).Obj? then Some(AddlOf(schema))
    else None
  }

  /** Validating the entry leaves its sub-schema as it was. */
  predicate EntryStable(schema: Value, f: Field, matches: Matcher)
    requires schema.Obj?
  {
    var sub := SubSchema(schema, f.key);
    sub.Some? ==> ValidateParam(f.val, Null, sub.value, matches).schema == sub.value
  }

  /** The entry is accepted: it passes validate_param against its sub-schema,
      or has none and `additionalProperties` is truthy. */
  predicate EntryPasses(schema: Value, f: Field, matches: Matcher)
    requires schema.Obj?
  {
    var sub := SubSchema(schema, f.key);
    if sub.Some? then ValidateParam(f.val, Null, sub.value, matches).result.Ok? else Truthy(AddlOf(schema))
  }

  /** What an accepted entry becomes: validate_param's result under the same
      key, or the entry itself when it has no sub-schema. */
  function EntryOut(schema: Value, f: Field, matches: Matcher): Field
    requires schema.Obj? && EntryPasses(schema, f, matches)
  {
    var sub := SubSchema(schema, f.key);
    if sub.Some? then Field(f.key, ValidateParam(f.val, Null, sub.value, matches).result.value) else f
  }

  /** One pass of the entry loop on an entry whose sub-schema stays as it
      was: it goes on with the entry's outcome and the schema unchanged, or
      stops with validate_param's error, or with 'unknown property' when the
      entry has no sub-schema and `additionalProperties` is falsy. */
  lemma EntryStepStable(param: Value, i: nat, schema: Value, matches: Matcher)
    requires param.Obj? && i < |param.fields| && schema.Obj?
    requires Kw(schema, "properties").None? || Kw(schema, "properties").value.Obj?
    requires EntryStable(schema, param.fields[i], matches)
    ensures var f := param.fields[i];
      var addl := AddlOf(schema);
      var sub := SubSchema(schema, f.key);
      var r := EntryStep(param, i, schema, Kw(schema, "properties").Some?, addl.Obj?, addl, matches);
      && (EntryPasses(schema, f, matches) ==> r == Next(EntryOut(schema, f, matches), schema, addl))
      && (!EntryPasses(schema, f, matches) ==>
            r.Stop? && r.out.schema == schema
            && r.out.result == if sub.Some? then ValidateParam(f.val, Null, sub.value, matches).result else Err(UnknownProperty))
  {
    var f := param.fields[i];
    var addl := AddlOf(schema);
    var props := Kw(schema, "properties");
    if props.Some? && f.key in Keys(props.value.fields) {
      var ps := props.value.fields;
      assert GetOr(schema.fields, "properties", Null) == props.value;
      assert Contains(props.value, Str(f.key)) == Ok(true);
      var v := GetOr(ps, f.key, Null);
      SetFieldSame(ps, f.key, v);
      SetFieldSame(schema.fields, "properties", Obj(ps));
    } else {
      assert props.Some? ==> Contains(props.value, Str(f.key)) == Ok(false);
      if addl.Obj? {
        SetFieldSame(schema.fields, "additionalProperties", addl);
      }
    }
  }

  /** The entry loop from entry `i` on, when no entry changes its sub-schema:
      the schema stays as it was, the loop accepts exactly when every entry
      from `i` on is accepted, and each accepted entry becomes its outcome. */
  lemma {:induction false} FieldsFromStable(param: Value, i: nat, done: seq<Field>, schema: Value, matches: Matcher)
    requires param.Obj? && i <= |param.fields| && schema.Obj? && |done| == i
    requires Kw(schema, "properties").None? || Kw(schema, "properties").value.Obj?
    requires forall k :: i <= k < |param.fields| ==> EntryStable(schema, param.fields[k], matches)
    ensures var addl := AddlOf(schema);
      var c := FieldsFrom(param, i, done, schema, Kw(schema, "properties").Some?, addl.Obj?, addl, matches);
      && c.schema == schema
      && (c.result.Ok? <==> forall k :: i <= k < |param.fields| ==> EntryPasses(schema, param.fields[k], matches))
      && (c.result.Ok? ==>
            && c.result.value.Obj? && |c.result.value.fields| == |param.fields|
            && (forall k :: 0 <= k < i ==> c.result.value.fields[k] == done[k])
            && (forall k :: i <= k < |param.fields| ==> c.result.value.fields[k] == EntryOut(schema, param.fields[k], matches)))
    decreases |param.fields| - i
  {
    if i < |param.fields| {
      var f := param.fields[i];
      var addl := AddlOf(schema);
      var propsIn := Kw(schema, "properties").Some?;
      var c := FieldsFrom(param, i, done, schema, propsIn, addl.Obj?, addl, matches);
      EntryStepStable(param, i, schema, matches);
      if EntryPasses(schema, f, matches) {
        var done' := done + [EntryOut(schema, f, matches)];
        assert c == FieldsFrom(param, i + 1, done', schema, propsIn, addl.Obj?, addl, matches);
        FieldsFromStable(param, i + 1, done', schema, matches);
        assert done'[i] == EntryOut(schema, f, matches);
      } else {
        assert c == EntryStep(param, i, schema, propsIn, addl.Obj?, addl, matches).out;
      }
    }
  }

  /** validate_object on a dict whose entries leave their sub-schemas as they
      were: it accepts exactly when every declared entry passes validate_param
      against `properties[k]`, every other entry passes it against a dict
      `additionalProperties`, and, when that is not a dict, no other entry
      exists unless it is truthy; each checked value replaces the entry's
      value, under the same key, in the dict's order. */
  lemma ObjectStable(param: Value, schema: Value, matches: Matcher)
    requires param.Obj? && schema.Obj?
    requires Kw(schema, "properties").None? || Kw(schema, "properties").value.Obj?
    requires forall k :: 0 <= k < |param.fields| ==> EntryStable(schema, param.fields[k], matches)
    ensures var c := ValidateObject(param, schema, matches);
      && c.schema == schema
      && (c.result.Ok? <==> forall k :: 0 <= k < |param.fields| ==> EntryPasses(schema, param.fields[k], matches))
      && (c.result.Ok? ==>
            && c.result.value.Obj? && |c.result.value.fields| == |param.fields|
            && (forall k :: 0 <= k < |param.fields| ==> c.result.value.fields[k] == EntryOut(schema, param.fields[k], matches)))
  {
    FieldsFromStable(param, 0, [], schema, matches);
  }

  /** additionalProperties {type: string}: an unknown key holding a string
      passes, one holding an int is refused. */
  lemma AdditionalSchemaExamples(matches: Matcher)
    ensures ValidateObject(D1("unknown_property", Str("foo")),
                           D1("additionalProperties", D1("type", Str("string"))), matches).result.Ok?
    ensures ValidateObject(D1("unknown_property", Int(1)),
                           D1("additionalProperties", D1("type", Str("string"))), matches).result == Err(NotAStr)
  {
  }
}
