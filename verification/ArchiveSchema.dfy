/**
 * The conservative check of the archive tool's input schema, against the meaning
 * JSON Schema gives that schema.
 *
 * The meaning follows JSON Schema Validation draft 2020-12, sections 6.1 to 6.3
 * and 6.5.3, and JSON Schema Core draft 2020-12, sections 10.2.1.2 and 10.3.2.
 * A keyword outside those sections means whatever the parameter `other` says.
 */
module ArchiveSchema {
  import opened Wrappers

  /** `integral` tells a number written without fraction or exponent. */
  datatype Json =
    | JNull
    | JBool(b: bool)
    | JNum(value: real, integral: bool)
    | JStr(s: string)
    | JArr(items: seq<Json>)
    | JObj(fields: map<string, Json>)

  type OtherKeywords = (string, Json, Json) -> bool

  const ANNOTATIONS := {"description", "title", "default"}
  const NUMERIC_BOUNDS := {"minimum", "maximum", "exclusiveMinimum", "exclusiveMaximum"}
  const LENGTH_BOUNDS := {"minLength", "maxLength"}

  // ---- What a schema means ----

  predicate TypeIs(name: string, v: Json) {
    match v
    case JNull => name == "null"
    case JBool(_) => name == "boolean"
    case JNum(r, _) => name == "number" || (name == "integer" && r == r.Floor as real)
    case JStr(_) => name == "string"
    case JArr(_) => name == "array"
    case JObj(_) => name == "object"
  }

  /** Equality of instances; numbers are compared by value. */
  predicate SameInstance(a: Json, b: Json) {
    if a.JNum? && b.JNum? then a.value == b.value else a == b
  }

  predicate MeetsType(kind: Json, v: Json) {
    match kind
    case JStr(name) => TypeIs(name, v)
    case JArr(names) => exists i :: 0 <= i < |names| && names[i].JStr? && TypeIs(names[i].s, v)
    case _ => false
  }

  predicate MeetsBound(key: string, bound: Json, v: Json) {
    if key in NUMERIC_BOUNDS && v.JNum? then
      bound.JNum? &&
      (if key == "minimum" then v.value >= bound.value
       else if key == "maximum" then v.value <= bound.value
       else if key == "exclusiveMinimum" then v.value > bound.value
       else v.value < bound.value)
    else if key in LENGTH_BOUNDS && v.JStr? then
      bound.JNum? &&
      (if key == "minLength" then |v.s| as real >= bound.value else |v.s| as real <= bound.value)
    else true
  }

  /** The instance satisfies the schema, section by section of the standard. */
  predicate Satisfies(schema: Json, v: Json, other: OtherKeywords)
    decreases schema
  {
    match schema
    case JBool(b) => b
    case JObj(fields) =>
      forall key :: key in fields ==>
        var k := fields[key];
        if key in ANNOTATIONS + {"$schema"} then true
        else if key == "type" then MeetsType(k, v)
        else if key == "enum" then k.JArr? && exists i :: 0 <= i < |k.items| && SameInstance(v, k.items[i])
        else if key == "const" then SameInstance(v, k)
        else if key in NUMERIC_BOUNDS + LENGTH_BOUNDS then MeetsBound(key, k, v)
        else if key == "anyOf" then k.JArr? && exists i :: 0 <= i < |k.items| && Satisfies(k.items[i], v, other)
        else if key == "properties" then
          k.JObj? && (v.JObj? ==> forall name :: name in v.fields && name in k.fields ==>
                                    Satisfies(k.fields[name], v.fields[name], other))
        else if key == "additionalProperties" then
          v.JObj? ==> forall name :: name in v.fields && !Declared(fields, name) ==> Satisfies(k, v.fields[name], other)
        else if key == "required" then
          k.JArr? && (v.JObj? ==> forall i :: 0 <= i < |k.items| ==> k.items[i].JStr? && k.items[i].s in v.fields)
        else other(key, k, v)
    case _ => false
  }

  predicate Declared(fields: map<string, Json>, name: string) {
    "properties" in fields && fields["properties"].JObj? && name in fields["properties"].fields
  }

  // ---- The check of the source ----

  /** The host language's `==`, in which the booleans are the integers 0 and 1. */
  predicate HostEqual(v: Json, item: Json) {
    if v.JNum? && item.JNum? then v.value == item.value
    else if v.JNum? && item.JBool? then v.value == (if item.b then 1.0 else 0.0)
    else v == item
  }

  predicate Numeric(v: Json) { v.JNum? && v.integral }

  function Kinds(field: map<string, Json>): seq<Json> {
    if "type" !in field then []
    else if field["type"].JArr? then field["type"].items
    else [field["type"]]
  }

  predicate KindFits(kind: Json, v: Json) {
    kind.JStr? && kind.s in (if Numeric(v) then {"integer", "number"} else {"string"})
  }

  predicate BoundHolds(key: string, bound: Json, v: Json)
    requires Numeric(v) || v.JStr?
  {
    && bound.JNum? && (v.JStr? ==> bound.integral)
    && var actual := if v.JStr? then |v.s| as real else v.value;
       !((key in {"minimum", "minLength"} && actual < bound.value)
         || (key in {"maximum", "maxLength"} && actual > bound.value)
         || (key == "exclusiveMinimum" && actual <= bound.value)
         || (key == "exclusiveMaximum" && actual >= bound.value))
  }

  /** The inner function `accepts`. */
  predicate Accepts(field: Json, v: Json, depth: nat)
    requires Numeric(v) || v.JStr?
    decreases 3 - depth
  {
    if !field.JObj? || depth > 2 then false
    else
      var f := field.fields;
      if "anyOf" in f then
        && f.Keys <= ANNOTATIONS + {"anyOf"}
        && f["anyOf"].JArr? && 0 < |f["anyOf"].items| <= 8
        && exists i :: 0 <= i < |f["anyOf"].items| && Accepts(f["anyOf"].items[i], v, depth + 1)
      else
        var bounds := if Numeric(v) then NUMERIC_BOUNDS else LENGTH_BOUNDS;
        && f.Keys <= ANNOTATIONS + bounds + {"type", "enum", "const"}
        && (exists i :: 0 <= i < |Kinds(f)| && KindFits(Kinds(f)[i], v))
        && ("enum" in f ==>
              f["enum"].JArr? && exists i :: 0 <= i < |f["enum"].items| && HostEqual(v, f["enum"].items[i]))
        && ("const" in f ==> HostEqual(v, f["const"]))
        && forall key :: key in bounds && key in f ==> BoundHolds(key, f[key], v)
  }

  const TOP_LEVEL := ANNOTATIONS + {"type", "properties", "required", "additionalProperties", "$schema"}

  predicate Sendable(arguments: map<string, Json>) {
    forall name :: name in arguments ==> Numeric(arguments[name]) || arguments[name].JStr?
  }

  /** `_archive_arguments_valid`. */
  predicate ArgumentsValid(schema: Json, arguments: map<string, Json>)
    requires Sendable(arguments)
  {
    && schema.JObj?
    && var f := schema.fields;
    && "type" in f && f["type"] == JStr("object")
    && f.Keys <= TOP_LEVEL
    && "properties" in f && f["properties"].JObj?
    && ("required" in f ==>
          f["required"].JArr?
          && forall i :: 0 <= i < |f["required"].items| ==>
            f["required"].items[i].JStr? && f["required"].items[i].s in arguments)
    && forall name :: name in arguments ==>
      name in f["properties"].fields && Accepts(f["properties"].fields[name], arguments[name], 0)
  }

  // ---- Soundness ----

  /** No integer argument is 0 or 1, which the host language confuses with booleans. */
  predicate NotBoolean(v: Json) { v.JStr? || (Numeric(v) && v.value != 0.0 && v.value != 1.0) }

  predicate WellFormedInteger(v: Json) { Numeric(v) ==> v.value == v.value.Floor as real }

  lemma AcceptedLeafIsSound(field: Json, v: Json, depth: nat, other: OtherKeywords)
    requires NotBoolean(v) && WellFormedInteger(v)
    requires Accepts(field, v, depth) && "anyOf" !in field.fields
    ensures Satisfies(field, v, other)
  {
    var f := field.fields;
    var i :| 0 <= i < |Kinds(f)| && KindFits(Kinds(f)[i], v);
    assert MeetsType(f["type"], v);
  }

  lemma AlternativeSatisfies(field: Json, v: Json, i: nat, other: OtherKeywords)
    requires field.JObj? && "anyOf" in field.fields && field.fields.Keys <= ANNOTATIONS + {"anyOf"}
    requires field.fields["anyOf"].JArr? && i < |field.fields["anyOf"].items| && Satisfies(field.fields["anyOf"].items[i], v, other)
    ensures Satisfies(field, v, other)
  {
  }

  lemma {:induction false} AcceptsIsSound(field: Json, v: Json, depth: nat, other: OtherKeywords)
    requires NotBoolean(v) && WellFormedInteger(v)
    requires Accepts(field, v, depth)
    ensures Satisfies(field, v, other)
    decreases 3 - depth
  {
    if "anyOf" in field.fields {
      var items := field.fields["anyOf"].items;
      var i: nat :| i < |items| && Accepts(items[i], v, depth + 1);
      AcceptsIsSound(items[i], v, depth + 1, other);
      AlternativeSatisfies(field, v, i, other);
    } else {
      AcceptedLeafIsSound(field, v, depth, other);
    }
  }

  /** Strings, and whole numbers other than 0 and 1. */
  ghost predicate Proper(arguments: map<string, Json>) {
    Sendable(arguments)
    && forall name :: name in arguments ==> NotBoolean(arguments[name]) && WellFormedInteger(arguments[name])
  }

  /**
   * Accepted arguments satisfy the schema, whatever its unknown keywords mean:
   * the check never lets one of them through.
   */
  lemma CheckIsSound(schema: Json, arguments: map<string, Json>, other: OtherKeywords)
    requires Proper(arguments) && ArgumentsValid(schema, arguments)
    ensures Satisfies(schema, JObj(arguments), other)
  {
    var f := schema.fields;
    forall name | name in arguments
      ensures Declared(f, name) && Satisfies(f["properties"].fields[name], arguments[name], other)
    {
      AcceptsIsSound(f["properties"].fields[name], arguments[name], 0, other);
    }
  }

  /** What the service sends: the source, a limit of 50, and a cursor from the second page on. */
  function ServiceArguments(cursor: Option<string>): (arguments: map<string, Json>)
    ensures Sendable(arguments)
  {
    var first := map["source" := JStr("codex"), "limit" := JNum(50.0, true)];
    if cursor.Some? then first["cursor" := JStr(cursor.value)] else first
  }

  lemma ServiceArgumentsAreProper(cursor: Option<string>)
    ensures Proper(ServiceArguments(cursor))
  {
  }

  lemma ServiceArgumentsAreSafe(schema: Json, cursor: Option<string>, other: OtherKeywords)
    requires ArgumentsValid(schema, ServiceArguments(cursor))
    ensures Satisfies(schema, JObj(ServiceArguments(cursor)), other)
  {
    ServiceArgumentsAreProper(cursor);
    CheckIsSound(schema, ServiceArguments(cursor), other);
  }

  /** An enumeration of the boolean that the host language takes for 0 or 1. */
  function Trap(v: Json): Json
    requires v.JNum?
  {
    JObj(map["type" := JStr("integer"), "enum" := JArr([JBool(v.value == 1.0)])])
  }

  /** The host language finds 1 in an enumeration of `true`, and 0 in one of `false`. */
  lemma ZeroAndOneAreConfused(v: Json, other: OtherKeywords)
    requires Numeric(v) && (v.value == 0.0 || v.value == 1.0)
    ensures Accepts(Trap(v), v, 0) && !Satisfies(Trap(v), v, other)
  {
    var f := Trap(v).fields;
    assert Kinds(f)[0] == JStr("integer") && KindFits(Kinds(f)[0], v);
    assert HostEqual(v, f["enum"].items[0]);
    assert !SameInstance(v, f["enum"].items[0]);
  }

  /** The check of a value is sound against every schema exactly when the value is not 0 or 1. */
  lemma SoundExactlyWithoutZeroAndOne(v: Json, other: OtherKeywords)
    requires (Numeric(v) || v.JStr?) && WellFormedInteger(v)
    ensures (forall field :: Accepts(field, v, 0) ==> Satisfies(field, v, other)) <==> NotBoolean(v)
  {
    if NotBoolean(v) {
      forall field | Accepts(field, v, 0)
        ensures Satisfies(field, v, other)
      {
        AcceptsIsSound(field, v, 0, other);
      }
    } else {
      ZeroAndOneAreConfused(v, other);
    }
  }

  // ---- Exactness on the schemas the check understands ----

  /** A field schema written only with keywords the check knows, in their proper form. */
  predicate Understood(field: Json, v: Json, depth: nat)
    requires Numeric(v) || v.JStr?
    decreases 3 - depth
  {
    field.JObj? && depth <= 2 &&
    var f := field.fields;
    if "anyOf" in f then
      && f.Keys <= ANNOTATIONS + {"anyOf"}
      && f["anyOf"].JArr? && 0 < |f["anyOf"].items| <= 8
      && forall i :: 0 <= i < |f["anyOf"].items| ==> Understood(f["anyOf"].items[i], v, depth + 1)
    else
      var bounds := if Numeric(v) then NUMERIC_BOUNDS else LENGTH_BOUNDS;
      && f.Keys <= ANNOTATIONS + bounds + {"type", "enum", "const"}
      && "type" in f && (f["type"].JStr? || f["type"].JArr?)
      && ("enum" in f ==> f["enum"].JArr?)
      && forall key :: key in bounds && key in f ==> f[key].JNum? && (v.JStr? ==> f[key].integral)
  }

  lemma EnumFound(f: map<string, Json>, v: Json, other: OtherKeywords)
    requires NotBoolean(v) && "enum" in f && Satisfies(JObj(f), v, other)
    ensures f["enum"].JArr? && exists i :: 0 <= i < |f["enum"].items| && HostEqual(v, f["enum"].items[i])
  {
    var items := f["enum"].items;
    var i :| 0 <= i < |items| && SameInstance(v, items[i]);
    assert HostEqual(v, items[i]);
  }

  lemma BoundFound(f: map<string, Json>, key: string, v: Json, other: OtherKeywords)
    requires NotBoolean(v) && key in f && Satisfies(JObj(f), v, other)
    requires key in (if Numeric(v) then NUMERIC_BOUNDS else LENGTH_BOUNDS)
    requires v.JStr? && f[key].JNum? ==> f[key].integral
    ensures BoundHolds(key, f[key], v)
  {
    assert MeetsBound(key, f[key], v);
  }

  /** A satisfied field without alternatives is accepted. */
  lemma SatisfiedLeafIsAccepted(field: Json, v: Json, depth: nat, other: OtherKeywords)
    requires NotBoolean(v) && Understood(field, v, depth) && "anyOf" !in field.fields
    requires Satisfies(field, v, other)
    ensures Accepts(field, v, depth)
  {
    var f := field.fields;
    assert MeetsType(f["type"], v);
    KindFound(f, v);
    if "enum" in f { EnumFound(f, v, other); }
    forall key | key in (if Numeric(v) then NUMERIC_BOUNDS else LENGTH_BOUNDS) && key in f
      ensures BoundHolds(key, f[key], v)
    {
      BoundFound(f, key, v, other);
    }
  }

  lemma AlternativeFound(field: Json, v: Json, other: OtherKeywords) returns (i: nat)
    requires field.JObj? && "anyOf" in field.fields && field.fields["anyOf"].JArr? && Satisfies(field, v, other)
    ensures i < |field.fields["anyOf"].items| && Satisfies(field.fields["anyOf"].items[i], v, other)
  {
    var items := field.fields["anyOf"].items;
    i :| 0 <= i < |items| && Satisfies(items[i], v, other);
  }

  lemma AlternativeSuffices(field: Json, v: Json, depth: nat, i: nat)
    requires NotBoolean(v) && Understood(field, v, depth) && "anyOf" in field.fields && i < |field.fields["anyOf"].items|
    requires Accepts(field.fields["anyOf"].items[i], v, depth + 1)
    ensures Accepts(field, v, depth)
  {
  }

  /** On understood keywords nothing that satisfies a field is refused. */
  lemma {:induction false} SatisfiedIsAccepted(field: Json, v: Json, depth: nat, other: OtherKeywords)
    requires NotBoolean(v) && Understood(field, v, depth) && Satisfies(field, v, other)
    ensures Accepts(field, v, depth)
    decreases 3 - depth
  {
    if "anyOf" in field.fields {
      var i := AlternativeFound(field, v, other);
      SatisfiedIsAccepted(field.fields["anyOf"].items[i], v, depth + 1, other);
      AlternativeSuffices(field, v, depth, i);
    } else {
      SatisfiedLeafIsAccepted(field, v, depth, other);
    }
  }

  lemma KindFound(f: map<string, Json>, v: Json)
    requires (Numeric(v) || v.JStr?) && "type" in f && MeetsType(f["type"], v)
    ensures exists i :: 0 <= i < |Kinds(f)| && KindFits(Kinds(f)[i], v)
  {
    if f["type"].JStr? {
      assert KindFits(Kinds(f)[0], v);
    } else {
      var names := f["type"].items;
      var i :| 0 <= i < |names| && names[i].JStr? && TypeIs(names[i].s, v);
      assert KindFits(Kinds(f)[i], v);
    }
  }

  lemma RequiredArePresent(f: map<string, Json>, arguments: map<string, Json>, other: OtherKeywords)
    requires "required" in f && Satisfies(JObj(f), JObj(arguments), other)
    ensures f["required"].JArr?
    ensures forall i :: 0 <= i < |f["required"].items| ==>
      f["required"].items[i].JStr? && f["required"].items[i].s in arguments
  {
    assert JObj(arguments).fields == arguments;
  }

  lemma PropertyIsSatisfied(f: map<string, Json>, arguments: map<string, Json>, name: string, other: OtherKeywords)
    requires Declared(f, name) && name in arguments && Satisfies(JObj(f), JObj(arguments), other)
    ensures Satisfies(f["properties"].fields[name], arguments[name], other)
  {
    assert name in JObj(arguments).fields && JObj(arguments).fields[name] == arguments[name];
  }

  /** An object schema written only with keywords the check knows, and with each argument declared. */
  predicate UnderstoodObject(f: map<string, Json>, arguments: map<string, Json>)
    requires Sendable(arguments)
  {
    && f.Keys <= TOP_LEVEL && "type" in f && f["type"] == JStr("object")
    && "properties" in f && f["properties"].JObj?
    && forall name :: name in arguments ==>
      name in f["properties"].fields && Understood(f["properties"].fields[name], arguments[name], 0)
  }

  lemma SatisfyingPropertyIsAccepted(f: map<string, Json>, arguments: map<string, Json>, name: string, other: OtherKeywords)
    requires Proper(arguments) && UnderstoodObject(f, arguments) && name in arguments
    requires Satisfies(JObj(f), JObj(arguments), other)
    ensures Accepts(f["properties"].fields[name], arguments[name], 0)
  {
    PropertyIsSatisfied(f, arguments, name, other);
    SatisfiedIsAccepted(f["properties"].fields[name], arguments[name], 0, other);
  }

  lemma AcceptedPropertiesSuffice(f: map<string, Json>, arguments: map<string, Json>)
    requires Sendable(arguments) && UnderstoodObject(f, arguments)
    requires
      "required" in f ==>
        f["required"].JArr?
        && forall i :: 0 <= i < |f["required"].items| ==>
          f["required"].items[i].JStr? && f["required"].items[i].s in arguments
    requires forall name :: name in arguments ==> Accepts(f["properties"].fields[name], arguments[name], 0)
    ensures ArgumentsValid(JObj(f), arguments)
  {
  }

  /** Nothing that satisfies such a schema is refused. */
  lemma SatisfyingArgumentsAreValid(f: map<string, Json>, arguments: map<string, Json>, other: OtherKeywords)
    requires Proper(arguments) && UnderstoodObject(f, arguments)
    requires Satisfies(JObj(f), JObj(arguments), other)
    ensures ArgumentsValid(JObj(f), arguments)
  {
    if "required" in f { RequiredArePresent(f, arguments, other); }
    forall name | name in arguments
      ensures Accepts(f["properties"].fields[name], arguments[name], 0)
    {
      SatisfyingPropertyIsAccepted(f, arguments, name, other);
    }
    AcceptedPropertiesSuffice(f, arguments);
  }

  /**
   * On every schema that only uses understood keywords and declares each
   * argument, the check accepts exactly the satisfying arguments.
   */
  lemma CheckIsExact(schema: Json, arguments: map<string, Json>, other: OtherKeywords)
    requires Proper(arguments) && schema.JObj? && UnderstoodObject(schema.fields, arguments)
    ensures ArgumentsValid(schema, arguments) <==> Satisfies(schema, JObj(arguments), other)
  {
    if ArgumentsValid(schema, arguments) {
      CheckIsSound(schema, arguments, other);
    } else if Satisfies(schema, JObj(arguments), other) {
      SatisfyingArgumentsAreValid(schema.fields, arguments, other);
    }
  }
}
