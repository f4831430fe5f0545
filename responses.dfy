/**
 * The error envelopes of the responses package and their JSON shapes, with
 * the one decoder the client applies to an error body.
 */
module Responses {
  import opened Wrappers
  import opened Failures
  import Json

  /** ErrorWrapper: a single string under the key "error". */
  datatype ErrorWrapper = ErrorWrapper(error: string)

  /** ErrorResItem: a status code, a message and the ordered sub-errors. */
  datatype ErrorResItem = ErrorResItem(code: int, message: string, errors: seq<SubError>)

  /** ErrorRes: exactly one ErrorResItem, under the key "error". */
  datatype ErrorRes = ErrorRes(error: ErrorResItem)

  /** A sub-error as an object with its message and, when present, its field. */
  function SubErrorJson(e: SubError): Json.Value {
    var message := map["message" := Json.JString(e.message)];
    match e.field
    case None => Json.JObject(message)
    case Some(f) => Json.JObject(message["field" := Json.JString(f)])
  }

  function SubErrorsItems(es: seq<SubError>): (items: seq<Json.Value>)
    ensures |items| == |es|
  {
    if es == [] then [] else [SubErrorJson(es[0])] + SubErrorsItems(es[1..])
  }

  /** The "errors" member: an empty list is Go's nil slice, which is written as null. */
  function SubErrorsJson(es: seq<SubError>): Json.Value {
    if es == [] then Json.JNull else Json.JArray(SubErrorsItems(es))
  }

  function ErrorResItemJson(item: ErrorResItem): Json.Value {
    Json.JObject(map[
      "code" := Json.JNumber(item.code),
      "message" := Json.JString(item.message),
      "errors" := SubErrorsJson(item.errors)])
  }

  /** The wire form {"error": {"code": ..., "message": ..., "errors": ...}} */
  function ErrorResJson(r: ErrorRes): (j: Json.Value)
    ensures j.JObject? && j.fields.Keys == {"error"}
    ensures j.fields["error"].JObject? && j.fields["error"].fields.Keys == {"code", "message", "errors"}
    ensures j.fields["error"].fields["code"] == Json.JNumber(r.error.code)
    ensures j.fields["error"].fields["message"] == Json.JString(r.error.message)
  {
    Json.JObject(map["error" := ErrorResItemJson(r.error)])
  }

  /** The wire form {"error": "..."} */
  function ErrorWrapperJson(w: ErrorWrapper): (j: Json.Value)
    ensures j.JObject? && j.fields.Keys == {"error"} && j.fields["error"].JString?
  {
    Json.JObject(map["error" := Json.JString(w.error)])
  }

  /**
   * json.NewDecoder(body).Decode(&w) into a zero ErrorWrapper: a missing or
   * null "error" leaves "", other keys are ignored, and a non-string "error"
   * or a top-level value that is not an object is a type mismatch.
   */
  function DecodeErrorWrapper(body: Json.Body): (r: Result<ErrorWrapper, Json.DecodeError>)
    ensures body.Document? && body.value.JObject? && "error" in body.value.fields
            && body.value.fields["error"].JString?
            ==> r == Success(ErrorWrapper(body.value.fields["error"].s))
    ensures !body.Document? ==> r.Failure?
  {
    match body
    case Empty => Failure(Json.EndOfInput)
    case Truncated => Failure(Json.UnexpectedEndOfInput)
    case Malformed(reason) => Failure(Json.SyntaxError(reason))
    case Document(v) =>
      match v
      case JNull => Success(ErrorWrapper(""))
      case JObject(fields) =>
        if "error" !in fields then Success(ErrorWrapper(""))
        else (
          match fields["error"]
          case JString(s) => Success(ErrorWrapper(s))
          case JNull => Success(ErrorWrapper(""))
          case other => Failure(FieldMismatch(other)))
      case other => Failure(ValueMismatch(other))
  }

  /** The error for a non-string value under "error". */
  function FieldMismatch(v: Json.Value): Json.DecodeError {
    Json.TypeMismatch("error", "json: cannot unmarshal " + Json.KindName(v)
                               + " into Go struct field ErrorWrapper.error of type string")
  }

  /** The error for a top-level value that is neither an object nor null. */
  function ValueMismatch(v: Json.Value): Json.DecodeError {
    Json.TypeMismatch("", "json: cannot unmarshal " + Json.KindName(v)
                          + " into Go value of type responses.ErrorWrapper")
  }

  /** What decoding the server's envelope as an ErrorWrapper reports: an object where a string belongs. */
  const ErrorIsAnObject := FieldMismatch(Json.JObject(map[]))

  /** An ErrorWrapper survives being written and read back. */
  lemma ErrorWrapperRoundTrip(w: ErrorWrapper)
    ensures DecodeErrorWrapper(Json.Document(ErrorWrapperJson(w))) == Success(w)
  {
  }

  lemma SubErrorJsonInjective(a: SubError, b: SubError)
    requires SubErrorJson(a) == SubErrorJson(b)
    ensures a == b
  {
    var fa, fb := SubErrorJson(a).fields, SubErrorJson(b).fields;
    assert fa["message"] == Json.JString(a.message) && fb["message"] == Json.JString(b.message);
    assert "field" in fa <==> a.field.Some?;
    assert "field" in fb <==> b.field.Some?;
    if a.field.Some? {
      assert fa["field"] == Json.JString(a.field.value);
      assert fb["field"] == Json.JString(b.field.value);
    }
  }

  lemma {:induction false} SubErrorsItemsInjective(a: seq<SubError>, b: seq<SubError>)
    requires SubErrorsItems(a) == SubErrorsItems(b)
    ensures a == b
    decreases |a|
  {
    if a != [] {
      assert SubErrorsItems(a)[0] == SubErrorJson(a[0]);
      assert SubErrorsItems(b)[0] == SubErrorJson(b[0]);
      SubErrorJsonInjective(a[0], b[0]);
      assert SubErrorsItems(a)[1..] == SubErrorsItems(a[1..]);
      assert SubErrorsItems(b)[1..] == SubErrorsItems(b[1..]);
      SubErrorsItemsInjective(a[1..], b[1..]);
      assert a == [a[0]] + a[1..] && b == [b[0]] + b[1..];
    }
  }

  /** Distinct envelopes are written as distinct JSON: the wire form loses nothing. */
  lemma ErrorResJsonInjective(a: ErrorRes, b: ErrorRes)
    requires ErrorResJson(a) == ErrorResJson(b)
    ensures a == b
  {
    var ia, ib := ErrorResJson(a).fields["error"].fields, ErrorResJson(b).fields["error"].fields;
    assert ia["errors"] == SubErrorsJson(a.error.errors);
    assert ib["errors"] == SubErrorsJson(b.error.errors);
    if a.error.errors != [] {
      SubErrorsItemsInjective(a.error.errors, b.error.errors);
    }
  }

  /**
   * The envelope the server writes is not an ErrorWrapper: its "error" member
   * is an object, so decoding it as one always fails with a type mismatch.
   */
  lemma ErrorResIsNotAnErrorWrapper(r: ErrorRes)
    ensures DecodeErrorWrapper(Json.Document(ErrorResJson(r))) == Failure(ErrorIsAnObject)
  {
    assert Json.KindName(ErrorResItemJson(r.error)) == Json.KindName(Json.JObject(map[]));
  }

  /** Nothing in the envelope's types keeps "errors" non-empty: it can be written as null. */
  lemma ErrorResErrorsCanBeNull(code: int, message: string)
    ensures ErrorResJson(ErrorRes(ErrorResItem(code, message, []))).fields["error"].fields["errors"] == Json.JNull
  {
  }
}
