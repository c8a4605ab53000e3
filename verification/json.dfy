/**
 * Structured values as the server receives and sends them, and the jansson
 * accessors that the dispatch layer calls on a request.
 */
module Json {
  import opened Optional

  datatype Json =
    | Null
    | Bool(b: bool)
    | Integer(i: int)
    | Str(s: string)
    | Array(items: seq<Json>)
    | Object(fields: map<string, Json>)

  /** json_array_size: the element count of an array, and 0 for any other value. */
  function ArraySize(v: Json): nat
  {
    if v.Array? then |v.items| else 0
  }

  /** json_array_get: element i of an array; null when i is out of range or v is not an array. */
  function ArrayGet(v: Json, i: nat): Option<Json>
  {
    if v.Array? && i < |v.items| then Some(v.items[i]) else None
  }

  /** json_string_value: the text of a string value; null for a null pointer or any other value. */
  function StringValue(v: Option<Json>): Option<string>
  {
    if v.Some? && v.value.Str? then Some(v.value.s) else None
  }
}
