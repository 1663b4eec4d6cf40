/** The JavaScript values the HTTP transport hands back (a parsed JSON body),
    and the three property-access forms the client uses on them:
    `v.key`, `v?.key` and `a ?? b`. */
module JsValue {
  import opened Wrappers

  /** A JavaScript value. JSON numbers are modelled as integers. */
  datatype Value =
    | Undefined
    | Null
    | Bool(b: bool)
    | Num(n: int)
    | Str(s: string)
    | Arr(items: seq<Value>)
    | Obj(fields: map<string, Value>)

  /** The values that `== null`, `?.` and `??` treat as missing. */
  predicate IsNullish(v: Value) {
    v.Undefined? || v.Null?
  }

  /** The own property `key` of `v`, or undefined when `v` has none.
      Only keys that are no built-in property of any value ("code",
      "data", "taskId") are read through it. */
  function Field(v: Value, key: string): Value {
    if v.Obj? && key in v.fields then v.fields[key] else Undefined
  }

  /** `v.key`: throws on null and undefined, otherwise reads the property. */
  function Member(v: Value, key: string): (r: Outcome<Value>)
    ensures r.ThrewTypeError? <==> IsNullish(v)
    ensures r.Returned? ==> r.value == Field(v, key)
  {
    if IsNullish(v) then ThrewTypeError else Returned(Field(v, key))
  }

  /** `v?.key`: short-circuits to undefined on null and undefined. */
  function OptionalMember(v: Value, key: string): (r: Value)
    ensures IsNullish(v) ==> r == Undefined
    ensures !IsNullish(v) ==> Member(v, key) == Returned(r)
  {
    if IsNullish(v) then Undefined else Field(v, key)
  }

  /** `a ?? b`: the right operand only when the left one is null or undefined. */
  function Coalesce(a: Value, b: Value): (r: Value)
    ensures IsNullish(a) ==> r == b
    ensures !IsNullish(a) ==> r == a
  {
    if IsNullish(a) then b else a
  }
}
