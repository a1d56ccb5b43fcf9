/** The module-level checks of falcon_openapi/validator.py: a recursive,
    type-dispatched validation of one parameter value against its schema.

    Python mutates two things while it validates: validate_int writes default
    bounds into the schema dict it is handed, and validate_array /
    validate_object overwrite elements of the parameter with their checked
    (possibly converted) values. Both are modelled as values here: each check
    returns the new parameter value inside its result, and the checks that can
    reach validate_int return a `Checked` that also carries the schema as it is
    after the call, which the callers thread on and write back. */
module Validate {
  import opened PyValue

  // Integer bounds; both minima are the negated maxima, one above the
  // two's-complement minimum.
  const INT32_MIN: int := -2147483647
  const INT32_MAX: int := 2147483647
  const INT64_MIN: int := -9223372036854775807
  const INT64_MAX: int := 9223372036854775807

  /** The regular-expression engine: does the pattern with this source match
      somewhere in the subject (`re.search`)? */
  type Matcher = (string, string) -> bool

  /** The outcome of a check together with the schema as it is afterwards. */
  datatype Checked = Checked(result: Result<Value>, schema: Value)

  /** `schema.get(key)` on a schema dict. */
  function Kw(schema: Value, key: string): Option<Value>
    requires schema.Obj?
  {
    Lookup(schema.fields, key)
  }

  /** A numeric keyword read for a comparison: absent, a number, or a
      TypeError when Python compares a number with anything else. */
  function NumKw(schema: Value, key: string): Result<Option<real>>
    requires schema.Obj?
  {
    match Kw(schema, key)
    case None => Ok(None)
    case Some(v) =>
      (match NumOf(v)
       case Some(x) => Ok(Some(x))
       case None => Err(TypeError))
  }

  predicate IsNumber(v: Value) {
    v.Int? || v.Flt? || v.Dec?
  }

  /** The number a numeric parameter stands for. */
  function RealOf(v: Value): real
    requires IsNumber(v)
  {
    match v
    case Int(i) => i as real
    case Flt(f) => f
    case Dec(d) => d
  }

  predicate IsIntegral(x: real) {
    x.Floor as real == x
  }

  /** Is `param % m == 0`? Decimal and float do not mix under `%`, and a zero
      divisor raises. */
  function RemainderIsZero(param: Value, m: Value): Result<bool>
    requires IsNumber(param)
  {
    match NumOf(m)
    case None => Err(TypeError)
    case Some(mv) =>
      if (param.Dec? && m.Flt?) || (param.Flt? && m.Dec?) then Err(TypeError)
      else if mv == 0.0 then Err(ArithmeticError)
      else Ok(IsIntegral(RealOf(param) / mv))
  }

  /** validate_enum: `'enum' in schema and param not in schema['enum']`. */
  function ValidateEnum(param: Value, schema: Value): Result<Value>
    requires schema.Obj?
  {
    match Kw(schema, "enum")
    case None => Ok(param)
    case Some(e) =>
      var found :- Contains(e, param);
      if found then Ok(param) else Err(NotInEnum)
  }

  /** validate_string: a str within the length bounds whose compiled pattern
      matches somewhere in it, then the enum check. */
  function ValidateString(param: Value, schema: Value, matches: Matcher): Result<Value>
    requires schema.Obj?
  {
    if !param.Str? then Err(NotAStr)
    else
      var n := |param.s| as real;
      var lo :- NumKw(schema, "minLength");
      if lo.Some? && n < lo.value then Err(TooShort)
      else
        var hi :- NumKw(schema, "maxLength");
        if hi.Some? && n > hi.value then Err(TooLong)
        else
          match Kw(schema, "pattern")
          case None => ValidateEnum(param, schema)
          case Some(p) =>
            if !p.Regex? then Err(AttributeError)   // a str has no .search
            else if !matches(p.source, param.s) then Err(NoMatch)
            else ValidateEnum(param, schema)
  }

  /** validate_min_max_mult: maximum, then minimum, then multipleOf; the
      first violation raises, otherwise the value comes back unchanged. */
  function ValidateMinMaxMult(param: Value, schema: Value): Result<Value>
    requires IsNumber(param) && schema.Obj?
  {
    var x := RealOf(param);
    var exMin := Truthy(GetOr(schema.fields, "exclusiveMinimum", Bool(false)));
    var exMax := Truthy(GetOr(schema.fields, "exclusiveMaximum", Bool(false)));
    var hi :- NumKw(schema, "maximum");
    if hi.Some? && (if exMax then x >= hi.value else x > hi.value) then Err(TooBig)
    else
      var lo :- NumKw(schema, "minimum");
      if lo.Some? && (if exMin then x <= lo.value else x < lo.value) then Err(TooSmall)
      else
        match Kw(schema, "multipleOf")
        case None => Ok(param)
        case Some(m) =>
          var zero :- RemainderIsZero(param, m);
          if zero then Ok(param) else Err(NotMultipleOf)
  }

  /** The schema after validate_int has written the default bounds of its
      `format` into it. */
  function WithDefaultBounds(schema: Value): Value
    requires schema.Obj?
  {
    var fmt := Kw(schema, "format");
    var s1 := if Kw(schema, "minimum").None? && fmt == Some(Str("int32"))
              then Obj(SetField(schema.fields, "minimum", Int(INT32_MIN))) else schema;
    var s2 := if Kw(s1, "maximum").None? && fmt == Some(Str("int32"))
              then Obj(SetField(s1.fields, "maximum", Int(INT32_MAX))) else s1;
    var s3 := if Kw(s2, "minimum").None? && fmt == Some(Str("int64"))
              then Obj(SetField(s2.fields, "minimum", Int(INT64_MIN))) else s2;
    var s4 := if Kw(s3, "maximum").None? && fmt == Some(Str("int64"))
              then Obj(SetField(s3.fields, "maximum", Int(INT64_MAX))) else s3;
    s4
  }

  /** validate_int: default the bounds (in the schema), then range-check. */
  function ValidateInt(param: Value, schema: Value): Checked
    requires param.Int? && schema.Obj?
  {
    var s := if Kw(schema, "format").Some? then WithDefaultBounds(schema) else schema;
    Checked(ValidateMinMaxMult(param, s), s)
  }

  /** validate_float: a `double` becomes a Decimal, an int that must be
      converted becomes a float, then the range check. */
  function ValidateFloat(param: Value, schema: Value, forceConvert: bool): Result<Value>
    requires (param.Int? || param.Flt?) && schema.Obj?
  {
    var p := if Kw(schema, "format") == Some(Str("double")) then Dec(RealOf(param))
             else if forceConvert then Flt(RealOf(param))
             else param;
    ValidateMinMaxMult(p, schema)
  }

  /** validate_number: dispatch on the runtime kind of the value. */
  function ValidateNumber(param: Value, schema: Value): Checked
    requires schema.Obj?
  {
    var vtype := Kw(schema, "type");
    var vformat := Kw(schema, "format");
    if param.Flt? && vtype != Some(Str("integer")) then
      Checked(var p :- ValidateFloat(param, schema, false); ValidateEnum(p, schema), schema)
    else if param.Int? && (vformat == Some(Str("float")) || vformat == Some(Str("double"))) then
      Checked(var p :- ValidateFloat(param, schema, true); ValidateEnum(p, schema), schema)
    else if param.Int? then
      var c := ValidateInt(param, schema);
      Checked(var _ :- c.result; ValidateEnum(param, c.schema), c.schema)
    else if param.Flt? then Checked(Err(NotAnInteger), schema)
    else Checked(Err(NotANumber), schema)
  }

  /** validate_boolean: exactly True or False. */
  function ValidateBoolean(param: Value): Result<Value> {
    if param.Bool? then Ok(param) else Err(NotABool)
  }

  /** validate_param(param, spec_def, schema); Python's None is `Null`.
      The type is read from the `schema` argument before `schema` is replaced
      by `spec_def['schema']`, so a call without a schema dict fails with an
      AttributeError however good its spec_def is. The returned schema is the
      working schema as the checks left it. */
  function ValidateParam(param: Value, specDef: Value, schema: Value, matches: Matcher): Checked
    decreases param, 2
  {
    if !schema.Obj? then Checked(Err(AttributeError), schema)      // schema.get on a non-dict
    else if Truthy(specDef) && !specDef.Obj? then Checked(Err(AttributeError), schema)
    else if !Truthy(specDef) && !Truthy(schema) then Checked(Err(SchemaNeeded), schema)
    else
      var working := if Truthy(specDef) then GetOr(specDef.fields, "schema", Obj([])) else schema;
      if !working.Obj? then Checked(DispatchLoose(param, Kw(schema, "type"), working), working)
      else Dispatch(param, Kw(schema, "type"), working, matches)
  }

  /** The `if param_type == ...` chain of validate_param when spec_def's
      `schema` is not a dict (None, a list, a string, a number). Each check
      runs as written until it touches the schema: `'k' in schema` raises
      TypeError on what is not a container, and `schema['k']` raises TypeError
      on a list or string; `schema.get` raises AttributeError. The boolean
      check never reads its schema. */
  function DispatchLoose(param: Value, ptype: Option<Value>, schema: Value): Result<Value>
    requires !schema.Obj?
  {
    if ptype == Some(Str("string")) then
      if !param.Str? then Err(NotAStr)
      else
        var _ :- KeywordsAbsent(schema, ["minLength", "maxLength", "pattern", "enum"]);
        Ok(param)
    else if ptype == Some(Str("integer")) || ptype == Some(Str("number")) then
      Err(AttributeError)                                  // schema.get('type') in validate_number
    else if ptype == Some(Str("boolean")) then ValidateBoolean(param)
    else if ptype == Some(Str("array")) then
      if !param.List? then Err(NotAList)
      else
        var hasItems :- ContainsStr(schema, "items");
        if hasItems && param.items != [] then Err(TypeError) else Ok(param)      // schema['items']
    else if ptype == Some(Str("object")) then
      if !param.Obj? then Err(NotAnObject)
      else
        var _ :- ContainsStr(schema, "properties");
        Err(AttributeError)                                // schema.get('additionalProperties')
    else Err(UnknownType)
  }

  /** The guards `'k' in schema and ... schema['k'] ...` of validate_string
      and validate_enum, in order, on a schema that is not a dict: the first
      keyword found makes `schema['k']` raise TypeError. */
  function KeywordsAbsent(schema: Value, keys: seq<string>): (r: Result<()>)
    requires !schema.Obj?
    ensures r.Ok? <==> forall k :: 0 <= k < |keys| ==> ContainsStr(schema, keys[k]) == Ok(false)
    ensures r.Err? ==> r.error == TypeError
  {
    if keys == [] then Ok(())
    else
      var has :- ContainsStr(schema, keys[0]);
      if has then Err(TypeError)
      else
        var r := KeywordsAbsent(schema, keys[1..]);
        assert forall k :: 1 <= k < |keys| ==> keys[k] == keys[1..][k - 1];
        r
  }

  /** The `if param_type == ...` chain of validate_param. */
  function Dispatch(param: Value, ptype: Option<Value>, schema: Value, matches: Matcher): Checked
    requires schema.Obj?
    decreases param, 1
  {
    if ptype == Some(Str("string")) then Checked(var _ :- ValidateString(param, schema, matches); Ok(param), schema)
    else if ptype == Some(Str("integer")) || ptype == Some(Str("number")) then ValidateNumber(param, schema)
    else if ptype == Some(Str("boolean")) then Checked(var _ :- ValidateBoolean(param); Ok(param), schema)
    else if ptype == Some(Str("array")) then ValidateArray(param, schema, matches)
    else if ptype == Some(Str("object")) then ValidateObject(param, schema, matches)
    else Checked(Err(UnknownType), schema)
  }

  /** validate_array: a list whose elements, when `items` is given, are each
      validated against `schema['items']` and replaced by the result. */
  function ValidateArray(param: Value, schema: Value, matches: Matcher): Checked
    requires schema.Obj?
    decreases param, 0
  {
    if !param.List? then Checked(Err(NotAList), schema)
    else
      match Kw(schema, "items")
      case None => Checked(Ok(param), schema)
      case Some(items) =>
        var c := ItemsFrom(param, 0, [], items, matches);
        Checked(c.result, Obj(SetField(schema.fields, "items", c.schema)))
  }

  /** The loop of validate_array from index `i` on: `done` holds the checked
      values of the elements before `i`, `items` the item schema so far. */
  function ItemsFrom(param: Value, i: nat, done: seq<Value>, items: Value, matches: Matcher): Checked
    requires param.List? && i <= |param.items|
    decreases param, 0, |param.items| - i
  {
    if i == |param.items| then Checked(Ok(List(done)), items)
    else
      var c := ValidateParam(param.items[i], Null, items, matches);
      if c.result.Err? then c
      else ItemsFrom(param, i + 1, done + [c.result.value], c.schema, matches)
  }

  /** validate_object: a dict whose every key is a declared property
      (validated against it), else falls to a dict `additionalProperties`
      (validated against that), else is allowed by a truthy one, else is
      an unknown property. */
  function ValidateObject(param: Value, schema: Value, matches: Matcher): Checked
    requires schema.Obj?
    decreases param, 0
  {
    if !param.Obj? then Checked(Err(NotAnObject), schema)
    else
      var propsIn := Kw(schema, "properties").Some?;
      var addl := GetOr(schema.fields, "additionalProperties", Bool(false));
      FieldsFrom(param, 0, [], schema, propsIn, addl.Obj?, addl, matches)
  }

  /** What one pass of validate_object's loop does with entry `i`: it stops
      with the outcome, or goes on with the checked entry, the schema and the
      local `additionalProperties` as they are afterwards. */
  datatype Step = Stop(out: Checked) | Next(entry: Field, schema: Value, addl: Value)

  /** One pass of validate_object's loop, on entry `i`. */
  function EntryStep(param: Value, i: nat, schema: Value,
                     propsIn: bool, strict: bool, addl: Value, matches: Matcher): (r: Step)
    requires param.Obj? && i < |param.fields| && schema.Obj?
    ensures r.Next? ==> r.entry.key == param.fields[i].key && r.schema.Obj?
    decreases param, 0, |param.fields| - i, 0
  {
    var f := param.fields[i];
    var props := GetOr(schema.fields, "properties", Null);
    var inProps := if propsIn then Contains(props, Str(f.key)) else Ok(false);
    if inProps.Err? then Stop(Checked(Err(inProps.error), schema))
    else if inProps.value then
      if !props.Obj? then Stop(Checked(Err(TypeError), schema))      // a list or str indexed by a key
      else
        var c := ValidateParam(f.val, Null, GetOr(props.fields, f.key, Null), matches);
        var schema' := Obj(SetField(schema.fields, "properties", Obj(SetField(props.fields, f.key, c.schema))));
        if c.result.Err? then Stop(Checked(c.result, schema'))
        else Next(Field(f.key, c.result.value), schema', addl)
    else if strict then
      var c := ValidateParam(f.val, Null, addl, matches);
      var schema' := Obj(SetField(schema.fields, "additionalProperties", c.schema));
      if c.result.Err? then Stop(Checked(c.result, schema'))
      else Next(Field(f.key, c.result.value), schema', c.schema)
    else if !Truthy(addl) then Stop(Checked(Err(UnknownProperty), schema))
    else Next(f, schema, addl)
  }

  /** The loop of validate_object from entry `i` on. `propsIn` and `strict`
      are computed once before the loop; `addl` is the local
      `additionalProperties`: when it is a dict it is the same dict as the
      schema's entry, so what validate_int writes into it is written back into
      the schema. */
  function FieldsFrom(param: Value, i: nat, done: seq<Field>, schema: Value,
                      propsIn: bool, strict: bool, addl: Value, matches: Matcher): Checked
    requires param.Obj? && i <= |param.fields| && schema.Obj?
    decreases param, 0, |param.fields| - i, 1
  {
    if i == |param.fields| then Checked(Ok(Obj(done)), schema)
    else
      match EntryStep(param, i, schema, propsIn, strict, addl, matches)
      case Stop(c) => c
      case Next(e, schema', addl') => FieldsFrom(param, i + 1, done + [e], schema', propsIn, strict, addl', matches)
  }

  /** One step of the entry loop on a declared property. */
  lemma FieldsFromDeclaredStep(param: Value, i: nat, done: seq<Field>, schema: Value,
                               propsIn: bool, strict: bool, addl: Value, matches: Matcher)
    requires param.Obj? && i < |param.fields| && schema.Obj? && propsIn
    requires GetOr(schema.fields, "properties", Null).Obj?
    requires Contains(GetOr(schema.fields, "properties", Null), Str(param.fields[i].key)) == Ok(true)
    ensures var f := param.fields[i];
      var props := GetOr(schema.fields, "properties", Null);
      var c := ValidateParam(f.val, Null, GetOr(props.fields, f.key, Null), matches);
      var schema' := Obj(SetField(schema.fields, "properties", Obj(SetField(props.fields, f.key, c.schema))));
      FieldsFrom(param, i, done, schema, propsIn, strict, addl, matches)
        == if c.result.Err? then Checked(c.result, schema')
           else FieldsFrom(param, i + 1, done + [Field(f.key, c.result.value)], schema', propsIn, strict, addl, matches)
  {
  }

  /** One step of the entry loop on a key that is not a declared property. */
  lemma FieldsFromOtherStep(param: Value, i: nat, done: seq<Field>, schema: Value,
                            propsIn: bool, strict: bool, addl: Value, matches: Matcher)
    requires param.Obj? && i < |param.fields| && schema.Obj?
    requires propsIn ==> Contains(GetOr(schema.fields, "properties", Null), Str(param.fields[i].key)) == Ok(false)
    ensures var f := param.fields[i];
      var c := ValidateParam(f.val, Null, addl, matches);
      var schema' := Obj(SetField(schema.fields, "additionalProperties", c.schema));
      FieldsFrom(param, i, done, schema, propsIn, strict, addl, matches)
        == if strict then
             if c.result.Err? then Checked(c.result, schema')
             else FieldsFrom(param, i + 1, done + [Field(f.key, c.result.value)], schema', propsIn, strict, c.schema, matches)
           else if !Truthy(addl) then Checked(Err(UnknownProperty), schema)
           else FieldsFrom(param, i + 1, done + [f], schema, propsIn, strict, addl, matches)
  {
  }
}
