/** Parsed JSON values as the HTTP layer hands them to the handlers. A
    request body and a stored menu item are both plain key/value records:
    the handlers spread the body into the stored item, so a stored item
    carries whatever keys the client sent. Numbers are mathematical reals. */
module Json {
  import opened Wrappers

  datatype Value =
    | Null
    | Bool(b: bool)
    | Num(n: real)
    | Str(s: string)
    | Arr(elems: seq<Value>)
    | Obj(fields: map<string, Value>)

  type Record = map<string, Value>

  /** `record[key]`, with an absent key read as `undefined`, i.e. None. */
  function Lookup(record: Record, key: string): (v: Option<Value>)
    ensures v.Some? <==> key in record
    ensures v.Some? ==> v.value == record[key]
  {
    if key in record then Some(record[key]) else None
  }
}
