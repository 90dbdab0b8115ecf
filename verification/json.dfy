/** Decoded JSON payloads as the HTTP client hands them over, with the two
    JavaScript notions the service relies on: property access that yields
    `undefined` and truthiness. */
module Json {
  import opened Results

  datatype Value =
    | Null
    | Bool(b: bool)
    | Num(n: real)
    | Str(s: string)
    | Arr(items: seq<Value>)
    | Obj(fields: map<string, Value>)

  /** `v.key` (also `v?.key`): the property when `v` is an object that has it,
      `undefined` (None) otherwise. */
  function Member(v: Value, key: string): (r: Option<Value>)
    ensures r.Some? <==> v.Obj? && key in v.fields
    ensures r.Some? ==> r.value == v.fields[key]
  {
    if v.Obj? && key in v.fields then Some(v.fields[key]) else None
  }

  /** `o?.key` on a value that may itself be undefined. */
  function MemberOf(o: Option<Value>, key: string): Option<Value> {
    if o.Some? then Member(o.value, key) else None
  }

  /** JavaScript truthiness of a possibly undefined value: undefined, null,
      false, 0 and the empty string are falsy; arrays and objects are truthy. */
  predicate Truthy(o: Option<Value>)
    ensures Truthy(o) <==> o.Some? && o.value !in {Null, Bool(false), Num(0.0), Str("")}
  {
    match o
    case None => false
    case Some(Null) => false
    case Some(Bool(b)) => b
    case Some(Num(n)) => n != 0.0
    case Some(Str(s)) => s != ""
    case Some(Arr(_)) => true
    case Some(Obj(_)) => true
  }

  /** Adds `key: v` to an object's fields unless `v` is undefined, which is
      how JSON serialisation treats undefined properties. */
  function PutDefined(fields: map<string, Value>, key: string, v: Option<Value>): map<string, Value> {
    match v
    case None => fields
    case Some(x) => fields[key := x]
  }
}
