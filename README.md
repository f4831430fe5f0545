# HTTP transport of the gokit-gae add service, in Dafny

This project models the decision logic of the add service's HTTP transport
(`internal/app/add/transports/http.go`) and the error envelopes it writes
(`internal/pkg/responses/errors.go`):

- the **error encoder** `httpEncodeError`. It sorts an error into a gRPC status, a domain
  `errors.Error`, `io.EOF` / `io.ErrUnexpectedEOF`, the JWT "token context missing" error,
  a JSON syntax or type error, or anything else. It then writes
  `Content-Type: application/json`, the status, and one `{"error": {code, message, errors}}`
  envelope;
- the **success encoder** `encodeJSONResponse`. It sets the JSON Content-Type, merges the
  response's own headers, writes 200 or the response's own status, writes no body on 204,
  and otherwise writes `Response()` or the value itself;
- the **route table** of `NewHTTPHandler` (`POST /api/add/sum`, `POST /api/add/concat`,
  `GET /metrics`);
- the **client**. `NewHTTPClient` prefixes the instance with `http://` unless it already
  starts with `http` and builds the two endpoints on copies of the parsed URL with the paths
  `/sum` and `/concat` (`copyURL`). The two response decoders send every status other than
  200 to `JSONErrorDecoder`. That decoder checks the Content-Type, then decodes an
  `ErrorWrapper`.

Modules, one per concern:

| file | module | models |
|---|---|---|
| `wrappers.dfy` | `Wrappers` | `Option`, `Result` |
| `strings.dfy` | `Strings` | `strings.HasPrefix`, `strings.Contains` |
| `json.dfy` | `Json` | JSON values, bodies as a decoder sees them, decode errors |
| `http.dfy` | `Http` | `http.Header`, a `ResponseWriter` class, `http.Response`, `url.URL` |
| `failures.dfy` | `Failures` | gRPC codes, `errors.Errors`, the error kinds, the encoder's two outside collaborators |
| `responses.dfy` | `Responses` | `ErrorWrapper`, `ErrorResItem`, `ErrorRes` and their JSON shapes |
| `transports.dfy` | `Transports` | everything from `http.go` |

`ResponseWriter` is a class. Its fields are the header map, the status line sent by the
first `WriteHeader` (with the header as it was at that moment) and the JSON values written
so far. The two encoders are methods that update it. Their postconditions give the new
state in terms of the specification functions `Translate`, `MergeHeaders`,
`ResponseStatus` and `ResponseBody`.

`HTTPStatusFromCode` and `errors.FromError` are not in these files. They are the fields of
`Failures.Collaborators`. The encoder reads `errs[0]` without a check, so every operation
that calls `FromError` requires `Collaborators.Valid()`: `FromError` never returns an empty
list. `url.Parse` is the `parse` parameter of `NewHTTPClient`. The decoding of each
operation's response type is the `decodeBody` parameter of the response decoders.

Some consequences of the code that a reader might not expect:

- An envelope can carry no sub-errors. A domain error with an empty `Msg()` is written with
  `"errors": null` (`DomainErrorWithoutMessageHasNoErrors`). So is a domain error with a
  non-empty `Msg()` whose `Errors()` is empty, since `Errors()` is copied as it is.
- The client treats every status except exactly 200 as an error, including other 2xx
  statuses (`OwnStatusIsAClientError`).
- The client decodes an error body as an `ErrorWrapper`, whose `error` is a string. The
  server's envelope holds an object there, so it always fails to decode with a type
  mismatch on `error`, and the server's message never reaches the caller
  (`ErrorEnvelopeIsUnreadableByClient`).
- The client rejects an error body only when its Content-Type does not *contain*
  `application/json`, so `application/json; charset=utf-8` also passes.
- A gRPC status carrying `OK` would be written with whatever `HTTPStatusFromCode` gives
  `OK`. Under the usual mapping to 200, that is a 200 response carrying an error envelope
  (`RpcOkIsWrittenAsSuccess`).
- An instance such as `httpbin:8080` starts with `http`, so it gets no scheme
  (`SanitizeLeavesHttpNamedHostWithoutScheme`).

## Model

| member | source | states |
|---|---|---|
| `Strings.ContainsIffOccurs` | internal/app/add/transports/http.go:38 | the Content-Type test `strings.Contains` holds exactly when the substring occurs at some index (both directions) |
| `Responses.ErrorResJson` | internal/pkg/responses/errors.go:11-19 | an `ErrorRes` is written as an object whose only key is `error`, holding an object with exactly the keys `code`, `message`, `errors`, with the item's code and message |
| `Responses.ErrorResJsonInjective` | internal/pkg/responses/errors.go:11-19 | two envelopes with the same JSON are equal: the wire form keeps the code, the message and every sub-error in order |
| `Responses.ErrorResErrorsCanBeNull` | internal/pkg/responses/errors.go:14 | nothing in the types keeps `errors` non-empty: an envelope with no sub-errors is written with `"errors": null` |
| `Responses.DecodeErrorWrapper` | internal/app/add/transports/http.go:41-45 | decoding an error body into a zero `ErrorWrapper`: a string under `error` is taken; an empty, truncated or malformed body is a decode failure |
| `Responses.ErrorWrapperRoundTrip` | internal/pkg/responses/errors.go:7-9 | an `ErrorWrapper` written as `{"error": "..."}` decodes back to itself |
| `Responses.ErrorResIsNotAnErrorWrapper` | internal/pkg/responses/errors.go:7-19 | an `ErrorRes` never decodes as an `ErrorWrapper`: its `error` member is an object, so decoding fails with `encoding/json`'s type mismatch on `error` ("json: cannot unmarshal object into Go struct field ErrorWrapper.error of type string") |
| `Transports.PlainStatus` | internal/app/add/transports/http.go:228-239 | for errors other than gRPC and domain errors: 400 exactly for `io.EOF`, `io.ErrUnexpectedEOF` and the two JSON errors, 401 exactly for the missing token context, 500 exactly for anything else |
| `Transports.Translate` | internal/app/add/transports/http.go:212-249 | the classification as a total function. A gRPC status gives `HTTPStatusFromCode(code)` and `FromError(message)`. A domain error gives 500, with its own message and sub-errors only when its message is non-empty. Every other error gives its kind's status and `FromError(err.Error())`. Outside domain errors the message is the first sub-error's and the list is non-empty |
| `Transports.HttpEncodeError` | internal/app/add/transports/http.go:212-253 | the Go-shaped encoder, with `code`, `message` and `errs` reassigned branch by branch. Content-Type becomes exactly `application/json` before the status is sent. The status sent is `Translate`'s code. Exactly one envelope, `Translate`'s, is appended to the body |
| `Transports.TranslateErrorsNonEmpty` | internal/app/add/transports/http.go:241-248 | every envelope except a domain error's carries at least one sub-error |
| `Transports.DomainErrorWithoutMessageHasNoErrors` | internal/app/add/transports/http.go:213-227 | a domain error with an empty message is written with status 500, message "" and `"errors": null` |
| `Transports.RequestDecodeError` | internal/app/add/transports/http.go:75-79 | a request decoder hands on the JSON decoder's own error: `io.EOF` for an empty body, `io.ErrUnexpectedEOF` for a cut-off one, the syntax or type error otherwise, with the same `Error()` text |
| `Transports.RequestDecodeErrorIs400` | internal/app/add/transports/http.go:228-241 | every request body the decoder rejects is answered 400, with the sub-errors `FromError` makes of the decoder's message, and that list is non-empty |
| `Transports.NonRpcStatusIsAnError` | internal/app/add/transports/http.go:213-243 | every error that is not a gRPC status is written with 400, 401 or 500 |
| `Transports.RpcOkIsWrittenAsSuccess` | internal/app/add/transports/http.go:244-251 | when `HTTPStatusFromCode(OK)` is 200, a gRPC status carrying `OK` is written as a 200 response with a non-empty error envelope |
| `Transports.AddValues` | internal/app/add/transports/http.go:259-261 | the inner loop appends the values of one key, in order, and creates no key when there are none |
| `Transports.AddHeaders` | internal/app/add/transports/http.go:258-262 | the outer loop, taking keys in any order, leaves exactly `MergeHeaders(old header, Headers())` |
| `Transports.MergeStep` | internal/app/add/transports/http.go:258-262 | adding one more key's values extends the merge by that key, whichever key comes next |
| `Transports.EncodeJSONResponse` | internal/app/add/transports/http.go:255-278 | the header becomes the merge of `Headers()` into the header with Content-Type `application/json; charset=utf-8`. The status sent is `StatusCode()` or 200. No body is written on 204. Otherwise exactly one body is written: `Response()` for a Responser, else the value |
| `Transports.MergeLeavesOtherKeys` | internal/app/add/transports/http.go:257-263 | keys `Headers()` adds no value to are present and hold exactly what they held before |
| `Transports.MergeAppendsInOrder` | internal/app/add/transports/http.go:258-262 | a key `Headers()` lists values for holds its old values followed by those values in order |
| `Transports.ContentTypeStaysFirst` | internal/app/add/transports/http.go:256-262 | extra headers never displace the JSON Content-Type: `Header.Get` still reads `application/json; charset=utf-8` |
| `Transports.Dispatch` | internal/app/add/transports/http.go:56-69 | a request is routed exactly when some route matches its method and path exactly, and then to the handler of the first such route |
| `Transports.NewHTTPHandler` | internal/app/add/transports/http.go:50-71 | `POST /api/add/sum` and `POST /api/add/concat` reach their operations with the JWT-to-context step, `GET /metrics` reaches the metrics handler, and no other method and path is routed |
| `Transports.ClientPathsAreNotServerRoutes` | internal/app/add/transports/http.go:57-69 | the client's `/sum` and `/concat` are not routes of the server |
| `Transports.SanitizeInstance` | internal/app/add/transports/http.go:94-96 | the result starts with `http`. It equals the instance exactly when the instance starts with `http`, and is `http://` + instance otherwise |
| `Transports.SanitizeIdempotent` | internal/app/add/transports/http.go:94-96 | sanitising twice is sanitising once |
| `Transports.SanitizeLeavesHttpNamedHostWithoutScheme` | internal/app/add/transports/http.go:94-96 | a bare host whose name starts with `http` but not with `http://` or `https://` (such as `httpbin:8080`) is kept without a scheme |
| `Transports.CopyUrl` | internal/app/add/transports/http.go:158-162 | the copy has the new path and agrees with the base URL in every other field |
| `Transports.NewHTTPClient` | internal/app/add/transports/http.go:93-155 | a parse failure of the sanitised instance is returned as is. Otherwise there are two `POST` endpoints on copies of the parsed URL with the client paths `/sum` and `/concat`, decoding their own operation's responses |
| `Transports.ClientUrlsShareTheBase` | internal/app/add/transports/http.go:123-145 | the two client URLs differ from the parsed URL, and from each other, only in their path |
| `Transports.JsonErrorDecoder` | internal/app/add/transports/http.go:36-46 | it fails with "expected JSON formatted error, got Content-Type ..." exactly when the Content-Type does not contain `application/json`. Otherwise it returns the decoded wrapper's text, or the decode failure |
| `Transports.DecodeResponse` | internal/app/add/transports/http.go:179-186 | there is no response exactly when the status is not 200, and then the error is `JSONErrorDecoder`'s. On 200 the decoded body is the response, and the error is the body decoder's own error, or none |
| `Transports.DecodeSumResponse` | internal/app/add/transports/http.go:179-186 | any status but 200 gives no response and `JSONErrorDecoder`'s error. On 200 it gives the decoded body and the body decoder's own error, or none |
| `Transports.DecodeConcatResponse` | internal/app/add/transports/http.go:203-210 | any status but 200 gives no response and `JSONErrorDecoder`'s error. On 200 it gives the decoded body and the body decoder's own error, or none |
| `Transports.ServerContentTypesPassGate` | internal/app/add/transports/http.go:33-38 | both Content-Types the server writes contain `application/json` |
| `Transports.OwnStatusIsAClientError` | internal/app/add/transports/http.go:264-268 | a response whose own status is not 200 (201, 204, ...) gives the client no response and an error |
| `Transports.ErrorEnvelopeIsUnreadableByClient` | internal/app/add/transports/http.go:36-46 | the envelope the server writes passes the client's Content-Type gate but always decodes to a type mismatch on `error` ("json: cannot unmarshal object into Go struct field ErrorWrapper.error of type string"), never to the server's message |

## Left out

- Byte-level JSON. Values are the `Json.Value` datatype with integer numbers. Bodies are
  empty, truncated, malformed or a value. Request encoding and decoding
  (`encodeHTTPSumRequest`, `encodeHTTPConcatRequest`, `decodeHTTPSumRequest`,
  `decodeHTTPConcatRequest`) are `encoding/json` calls. The only modelled effect of the two
  request decoders is the error they return (`RequestDecodeError`).
- The text of `*json.SyntaxError` is carried as it is, not computed from the bytes.
- JSON decoding's case-insensitive key matching and duplicate keys. Objects are maps with
  exact keys.
- Failures of `json.Encoder.Encode` and the error values the two encoders return. Encoding
  a value always succeeds here.
- The JSON shape of `errors.Errors`. That package is not part of this model. A sub-error is
  written with `message` and, when present, `field`.
- A nil `errors` slice and an empty non-nil one are not told apart. An empty list is written
  as `null`.
- `Transports.Translate`: an error that is both a domain `errors.Error` and carries a gRPC
  status cannot be expressed. The error kinds are disjoint, and the gRPC case comes first.
- `HTTPStatusFromCode`, `errors.FromError`, `errors.New` and the endpoint request/response
  types are not in these files. They are parameters or type parameters. That `FromError`
  never returns an empty list is a precondition, not a proved fact.
- `Http.ResponseWriter`: it does not model net/http's status checks. Those are the panic on
  codes outside 100-999, repeated 1xx informational statuses, and the refusal of bodies
  after 204 or 304.
- Header key canonicalisation (`textproto.CanonicalMIMEHeaderKey`): keys are taken as given.
- go-kit's `httptransport.NewServer` and `NewClient`, the `bone` router beyond exact path
  matching, `promhttp.Handler` and `ServerErrorLogger`. These are library plumbing and I/O.
- The tracing middleware (`opentracing.TraceClient`, `zipkin.TraceEndpoint`,
  `zipkin.HTTPClientTrace`, `opentracing.ContextToHTTP`). They only add observability side
  effects.
- `kitjwt.HTTPToContext` and the token check that raises `ErrTokenContextMissing`, which
  belong to a library. A route records only whether the step is installed.
- How `url.Parse` succeeds or fails. It is the `parse` parameter.
- Concurrency: the transport holds no shared mutable state.
