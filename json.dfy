/**
 * JSON values as `json.loads` produces them, and the outcome of a decode.
 * Decoding itself is not modelled: callers receive the outcome as a parameter.
 */
module Json {

  datatype Value =
    | Null
    | Bool(b: bool)
    | Int(i: int)
    | Num(r: real)
    | Str(s: string)
    | Array(items: seq<Value>)
    | Object(fields: map<string, Value>)

  /** What `json.loads(text)` yields: a value, or a `JSONDecodeError`. */
  datatype Doc = Malformed | Parsed(value: Value)

  /** A JSON number as a real (`float(x)` on an int or a float); `None`-like for everything else. */
  predicate IsNumber(v: Value) {
    v.Int? || v.Num?
  }

  function NumberValue(v: Value): real
    requires IsNumber(v)
  {
    if v.Int? then v.i as real else v.r
  }
}
