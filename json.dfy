/**
 * JSON as encoding/json sees it: values, the bytes of a body read as JSON,
 * and the errors a json.Decoder reports. The byte-level encoding is not modelled.
 */
module Json {

  /** A JSON value; numbers are limited to integers. */
  datatype Value =
    | JNull
    | JBool(b: bool)
    | JNumber(n: int)
    | JString(s: string)
    | JArray(items: seq<Value>)
    | JObject(fields: map<string, Value>)

  /** A message body, as json.Decoder reads it. */
  datatype Body =
    | Empty                  // no bytes at all
    | Truncated              // a value cut off before its end
    | Malformed(reason: string) // bytes that are not JSON, with the text of the syntax error
    | Document(value: Value) // a complete JSON value

  /** What json.Decoder.Decode returns when it cannot fill its target. */
  datatype DecodeError =
    | EndOfInput                            // io.EOF: the body was empty
    | UnexpectedEndOfInput                  // io.ErrUnexpectedEOF: the body was cut off
    | SyntaxError(msg: string)              // *json.SyntaxError, with its Error() text
    | TypeMismatch(field: string, msg: string)
      // *json.UnmarshalTypeError: the JSON key of the field ("" for the top level) and its Error() text
  {
    /** err.Error() */
    function Error(): string {
      match this
      case EndOfInput => "EOF"
      case UnexpectedEndOfInput => "unexpected EOF"
      case SyntaxError(msg) => msg
      case TypeMismatch(_, msg) => msg
    }
  }

  /** The name an UnmarshalTypeError gives the kind of JSON value it met. */
  function KindName(v: Value): string {
    match v
    case JNull => "null"
    case JBool(_) => "bool"
    case JNumber(_) => "number"
    case JString(_) => "string"
    case JArray(_) => "array"
    case JObject(_) => "object"
  }
}
