/** Decoded JSON values, as the server receives them from the JSON decoder.
    Decoding itself is a library call and is not modelled: a request body or a
    websocket text frame arrives together with what the decoder made of it. */
module Json {

  datatype Option<+T> = None | Some(value: T)

  /** A JSON value. Numbers keep their literal text, so no floating point is involved. */
  datatype Value =
    | JNull
    | JBool(b: bool)
    | JNumber(literal: string)
    | JString(s: string)
    | JArray(items: seq<Value>)
    | JObject(fields: map<string, Value>)

  /** A JSON object, i.e. a Python dict with string keys. */
  type Object = map<string, Value>

  /** What the decoder makes of a text: a value; a `JSONDecodeError` with its
      message, for text that is not JSON; or an exception of another class with
      its message, for JSON beyond one of the interpreter's limits (nesting deeper
      than the recursion limit raises `RecursionError`, an integer literal with
      more digits than the integer conversion limit raises `ValueError`). */
  datatype Decoded = Malformed(error: string) | OverLimit(error: string) | Parsed(value: Value)

  /** Python's `d.get(key)`. */
  function Get(o: Object, key: string): Option<Value>
  {
    if key in o then Some(o[key]) else None
  }

  /** Python can hash every decoded value except lists and dicts. */
  predicate Hashable(v: Value)
  {
    !v.JArray? && !v.JObject?
  }

  /** The decoder makes an int of a number literal without fraction or exponent. */
  predicate IsIntLiteral(literal: string)
  {
    forall i :: 0 <= i < |literal| ==> literal[i] == '-' || '0' <= literal[i] <= '9'
  }

  /** The Python type name of a decoded value. */
  function TypeName(v: Value): string
  {
    match v
    case JNull => "NoneType"
    case JBool(_) => "bool"
    case JNumber(literal) => if IsIntLiteral(literal) then "int" else "float"
    case JString(_) => "str"
    case JArray(_) => "list"
    case JObject(_) => "dict"
  }

  /** The text of the AttributeError raised by `v.get(...)` when `v` is not a dict. */
  function NoGetMessage(v: Value): string
  {
    "'" + TypeName(v) + "' object has no attribute 'get'"
  }
}
