/** The loops of validate_array and validate_object as Python runs them:
    the parameter's elements are overwritten one by one with their checked
    values while the item (or property) schema is threaded along. Each method
    is proved to compute exactly what its function in `Validate` specifies. */
module Checks {
  import opened PyValue
  import opened Validate

  /** validate_param, calling the loop methods below for arrays and objects. */
  method CheckParam(param: Value, specDef: Value, schema: Value, matches: Matcher) returns (c: Checked)
    ensures c == ValidateParam(param, specDef, schema, matches)
    decreases param, 2
  {
    if !schema.Obj? { return Checked(Err(AttributeError), schema); }
    if Truthy(specDef) && !specDef.Obj? { return Checked(Err(AttributeError), schema); }
    if !Truthy(specDef) && !Truthy(schema) { return Checked(Err(SchemaNeeded), schema); }
    var working := schema;
    if Truthy(specDef) {
      working := GetOr(specDef.fields, "schema", Obj([]));
    }
    if !working.Obj? { return Checked(DispatchLoose(param, Kw(schema, "type"), working), working); }
    c := CheckDispatch(param, Kw(schema, "type"), working, matches);
  }

  /** The `if param_type == ...` chain of validate_param. */
  method CheckDispatch(param: Value, ptype: Option<Value>, schema: Value, matches: Matcher) returns (c: Checked)
    requires schema.Obj?
    ensures c == Dispatch(param, ptype, schema, matches)
    decreases param, 1
  {
    if ptype == Some(Str("array")) {
      c := CheckArray(param, schema, matches);
    } else if ptype == Some(Str("object")) {
      c := CheckObject(param, schema, matches);
    } else {
      c := Dispatch(param, ptype, schema, matches);
    }
  }

  /** validate_array: `param[i] = validate_param(p, schema=schema['items'])`. */
  method CheckArray(param: Value, schema: Value, matches: Matcher) returns (c: Checked)
    requires schema.Obj?
    ensures c == ValidateArray(param, schema, matches)
    decreases param, 0
  {
    if !param.List? { return Checked(Err(NotAList), schema); }
    if Kw(schema, "items").None? { return Checked(Ok(param), schema); }
    var itemSchema := Kw(schema, "items").value;
    var items := param.items;
    var i := 0;
    while i < |items|
      invariant 0 <= i <= |items| == |param.items|
      invariant items[i..] == param.items[i..]
      invariant ItemsFrom(param, i, items[..i], itemSchema, matches)
             == ItemsFrom(param, 0, [], Kw(schema, "items").value, matches)
    {
      var p := items[i];
      assert p == param.items[i] by { assert items[i..][0] == param.items[i..][0]; }
      var r := CheckParam(p, Null, itemSchema, matches);
      if r.result.Err? {
        return Checked(r.result, Obj(SetField(schema.fields, "items", r.schema)));
      }
      assert items[..i] + [r.result.value] == items[i := r.result.value][..i + 1];
      items := items[i := r.result.value];
      itemSchema := r.schema;
      i := i + 1;
    }
    assert items[..i] == items;
    c := Checked(Ok(List(items)), Obj(SetField(schema.fields, "items", itemSchema)));
  }

  /** validate_object: `param[p] = validate_param(value, schema=...)` for each
      entry, in the dict's order. */
  method CheckObject(param: Value, schema: Value, matches: Matcher) returns (c: Checked)
    requires schema.Obj?
    ensures c == ValidateObject(param, schema, matches)
    decreases param, 0
  {
    if !param.Obj? { return Checked(Err(NotAnObject), schema); }
    var propsIn := Kw(schema, "properties").Some?;
    var addl := GetOr(schema.fields, "additionalProperties", Bool(false));
    var strict := addl.Obj?;
    var fields := param.fields;
    var s := schema;
    var i := 0;
    while i < |fields|
      invariant 0 <= i <= |fields| == |param.fields|
      invariant s.Obj?
      invariant forall k :: i <= k < |fields| ==> fields[k] == param.fields[k]
      invariant FieldsFrom(param, i, fields[..i], s, propsIn, strict, addl, matches)
             == ValidateObject(param, schema, matches)
    {
      var step := CheckEntry(param, i, s, propsIn, strict, addl, matches);
      if step.Stop? { return step.out; }
      Overwrite(fields, i, step.entry);
      fields := fields[i := step.entry];
      s := step.schema;
      addl := step.addl;
      i := i + 1;
    }
    assert fields[..i] == fields;
    c := Checked(Ok(Obj(fields)), s);
  }

  /** The body of validate_object's loop for entry `i`. */
  method CheckEntry(param: Value, i: nat, schema: Value,
                    propsIn: bool, strict: bool, addl: Value, matches: Matcher) returns (r: Step)
    requires param.Obj? && i < |param.fields| && schema.Obj?
    ensures r == EntryStep(param, i, schema, propsIn, strict, addl, matches)
    decreases param, 0, |param.fields| - i
  {
    var f := param.fields[i];
    var props := GetOr(schema.fields, "properties", Null);
    var inProps := if propsIn then Contains(props, Str(f.key)) else Ok(false);
    if inProps.Err? { return Stop(Checked(Err(inProps.error), schema)); }
    if inProps.value {
      if !props.Obj? { return Stop(Checked(Err(TypeError), schema)); }
      var c := CheckParam(f.val, Null, GetOr(props.fields, f.key, Null), matches);
      var schema' := Obj(SetField(schema.fields, "properties", Obj(SetField(props.fields, f.key, c.schema))));
      if c.result.Err? { return Stop(Checked(c.result, schema')); }
      return Next(Field(f.key, c.result.value), schema', addl);
    } else if strict {
      var c := CheckParam(f.val, Null, addl, matches);
      var schema' := Obj(SetField(schema.fields, "additionalProperties", c.schema));
      if c.result.Err? { return Stop(Checked(c.result, schema')); }
      return Next(Field(f.key, c.result.value), schema', c.schema);
    } else if !Truthy(addl) {
      return Stop(Checked(Err(UnknownProperty), schema));
    }
    return Next(f, schema, addl);
  }

  /** Overwriting entry i extends the finished prefix by that entry and
      leaves the entries after it alone. */
  lemma Overwrite(fields: seq<Field>, i: nat, x: Field)
    requires i < |fields|
    ensures fields[i := x][..i + 1] == fields[..i] + [x]
    ensures forall k :: i < k < |fields| ==> fields[i := x][k] == fields[k]
  {
    assert fields[i := x][..i + 1] == fields[..i] + [x];
  }
}
