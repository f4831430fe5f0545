/**
 * The HTTP transport of the add service: the server's error encoder and
 * success encoder, the route table, and the client's URL rules and response
 * decoders.
 */
module Transports {
  import opened Wrappers
  import opened Strings
  import opened Http
  import opened Failures
  import opened Responses
  import Json

  /** The Content-Type of error envelopes. */
  const ContentType := "application/json"
  /** The Content-Type of success bodies. */
  const JsonUtf8ContentType := "application/json; charset=utf-8"
  const ContentTypeKey := "Content-Type"

  /** The two operations of the service. */
  datatype Op = Sum | Concat

  // ---------------------------------------------------------------------
  // Error translation (server side)
  // ---------------------------------------------------------------------

  /** The status of an error that is neither a gRPC status nor a domain error. */
  function PlainStatus(err: Err): (code: int)
    requires err.IsPlain()
    ensures code == StatusBadRequest <==> err.EOF? || err.UnexpectedEOF? || err.JsonSyntax? || err.JsonUnmarshalType?
    ensures code == StatusUnauthorized <==> err.TokenContextMissing?
    ensures code == StatusInternalServerError <==> err.Other?
  {
    match err
    case EOF | UnexpectedEOF => StatusBadRequest
    case TokenContextMissing => StatusUnauthorized
    case JsonSyntax(_) | JsonUnmarshalType(_) => StatusBadRequest
    case Other(_) => StatusInternalServerError
  }

  /** An envelope whose message is the first of its sub-errors. */
  function Summary(code: int, errs: seq<SubError>): ErrorResItem
    requires errs != []
  {
    ErrorResItem(code, errs[0].message, errs)
  }

  /**
   * The (status, message, sub-errors) httpEncodeError writes for `err`, by kind:
   * a gRPC status maps through HTTPStatusFromCode and FromError of its message;
   * a domain error is always 500 and keeps its own message and sub-errors when
   * its message is non-empty; any other error gets its kind's status and
   * FromError of its text. Outside domain errors the message is the first sub-error's.
   */
  function Translate(err: Err, c: Collaborators): (item: ErrorResItem)
    requires c.Valid()
    ensures !err.Domain? ==> item.errors != [] && item.message == item.errors[0].message
    ensures err.RpcStatus? ==> item.code == c.httpStatusFromCode(err.code) && item.errors == c.fromError(err.message)
    ensures err.IsPlain() ==> item.code == PlainStatus(err) && item.errors == c.fromError(err.Error())
    ensures err.Domain? ==> item.code == StatusInternalServerError
    ensures err.Domain? ==> if err.msg != "" then item.message == err.msg && item.errors == err.errs
                            else item.message == "" && item.errors == []
  {
    match err
    case RpcStatus(code, message) => Summary(c.httpStatusFromCode(code), c.fromError(message))
    case Domain(msg, errs) =>
      if msg != "" then ErrorResItem(StatusInternalServerError, msg, errs)
      else ErrorResItem(StatusInternalServerError, "", [])
    case _ => Summary(PlainStatus(err), c.fromError(err.Error()))
  }

  /**
   * httpEncodeError: classify `err`, set the Content-Type, write the status,
   * then write exactly one envelope whose code is that status.
   */
  method HttpEncodeError(err: Err, c: Collaborators, w: ResponseWriter)
    requires c.Valid()
    modifies w
    ensures w.header == old(w.header)[ContentTypeKey := [ContentType]]
    ensures w.head == if old(w.head).None? then Some(Head(Translate(err, c).code, w.header)) else old(w.head)
    ensures w.body == old(w.body) + [ErrorResJson(ErrorRes(Translate(err, c)))]
  {
    var code := StatusInternalServerError;
    var message := "";
    var errs: seq<SubError> := [];
    w.SetHeader(ContentTypeKey, ContentType);
    if !err.RpcStatus? {
      if err.Domain? {
        // no domain-specific status rules are registered: the status stays 500
        if err.msg != "" {
          message, errs := err.msg, err.errs;
        }
      } else {
        if err == UnexpectedEOF || err == EOF {
          code := StatusBadRequest;
        } else if err == TokenContextMissing {
          code := StatusUnauthorized;
        } else if err.JsonSyntax? || err.JsonUnmarshalType? {
          code := StatusBadRequest;
        }
        errs := c.fromError(err.Error());
        message := errs[0].message;
      }
    } else {
      code := c.httpStatusFromCode(err.code);
      errs := c.fromError(err.message);
      message := errs[0].message;
    }
    w.WriteHeader(code);
    w.Encode(ErrorResJson(ErrorRes(ErrorResItem(code, message, errs))));
  }

  /** Every envelope but a domain error's carries at least one sub-error. */
  lemma TranslateErrorsNonEmpty(err: Err, c: Collaborators)
    requires c.Valid() && !err.Domain?
    ensures |Translate(err, c).errors| > 0
  {
  }

  /** A domain error with an empty message is written with no sub-errors ("errors": null). */
  lemma DomainErrorWithoutMessageHasNoErrors(errs: seq<SubError>, c: Collaborators)
    requires c.Valid()
    ensures Translate(Domain("", errs), c).code == StatusInternalServerError
    ensures Translate(Domain("", errs), c).message == ""
    ensures ErrorResJson(ErrorRes(Translate(Domain("", errs), c))).fields["error"].fields["errors"] == Json.JNull
  {
  }

  /**
   * The error value decodeHTTPSumRequest and decodeHTTPConcatRequest hand on
   * when json.Decoder rejects the request body: the decoder's own error.
   */
  function RequestDecodeError(e: Json.DecodeError): (err: Err)
    ensures err.IsPlain() && err.Error() == e.Error()
    ensures e.EndOfInput? <==> err.EOF?
    ensures e.UnexpectedEndOfInput? <==> err.UnexpectedEOF?
    ensures e.SyntaxError? <==> err.JsonSyntax?
    ensures e.TypeMismatch? <==> err.JsonUnmarshalType?
  {
    match e
    case EndOfInput => EOF
    case UnexpectedEndOfInput => UnexpectedEOF
    case SyntaxError(msg) => JsonSyntax(msg)
    case TypeMismatch(_, msg) => JsonUnmarshalType(msg)
  }

  /** Every request body the decoder rejects is answered 400, with the sub-errors FromError makes of the decoder's message. */
  lemma RequestDecodeErrorIs400(e: Json.DecodeError, c: Collaborators)
    requires c.Valid()
    ensures Translate(RequestDecodeError(e), c).code == StatusBadRequest
    ensures Translate(RequestDecodeError(e), c).errors == c.fromError(e.Error()) != []
  {
  }

  /** Every error but a gRPC status is written with 400, 401 or 500. */
  lemma NonRpcStatusIsAnError(err: Err, c: Collaborators)
    requires c.Valid() && !err.RpcStatus?
    ensures Translate(err, c).code in {StatusBadRequest, StatusUnauthorized, StatusInternalServerError}
  {
  }

  /**
   * A gRPC status carrying OK, under a HTTPStatusFromCode that maps OK to 200,
   * is written as a 200 response that carries an error envelope.
   */
  lemma RpcOkIsWrittenAsSuccess(message: string, c: Collaborators)
    requires c.Valid() && c.httpStatusFromCode(OK) == StatusOK
    ensures Translate(RpcStatus(OK, message), c).code == StatusOK
    ensures Translate(RpcStatus(OK, message), c).errors == c.fromError(message) != []
  {
  }

  // ---------------------------------------------------------------------
  // Success encoding (server side)
  // ---------------------------------------------------------------------

  /**
   * A value an endpoint returns, with the optional interfaces it implements:
   * httptransport.Headerer (headers), httptransport.StatusCoder (statusCode)
   * and responses.Responser (response).
   */
  datatype ResponseValue = ResponseValue(
    value: Json.Value,
    headers: Option<Header>,
    statusCode: Option<int>,
    response: Option<Json.Value>)

  /** The extra headers a response asks for (none unless it is a Headerer). */
  function ExtraHeaders(r: ResponseValue): Header {
    if r.headers.Some? then r.headers.value else map[]
  }

  /** The status written for a response: its own StatusCode() if it has one, else 200. */
  function ResponseStatus(r: ResponseValue): int {
    if r.statusCode.Some? then r.statusCode.value else StatusOK
  }

  /** The value written as the body: Response() for a Responser, else the response itself. */
  function ResponseBody(r: ResponseValue): Json.Value {
    if r.response.Some? then r.response.value else r.value
  }

  /** The keys of `extra` with at least one value: only these are ever added to. */
  function AddedKeys(extra: Header): set<string> {
    set k | k in extra && extra[k] != []
  }

  /** `h` after every value of every key of `extra` is added, in order, to that key's list. */
  function MergeHeaders(h: Header, extra: Header): Header {
    map k | k in h.Keys + AddedKeys(extra) :: Values(h, k) + Values(extra, k)
  }

  function Restrict(extra: Header, keys: set<string>): Header {
    map k | k in extra && k in keys :: extra[k]
  }

  /** `h` after `vs` are added one by one under `k` */
  function AppendValues(h: Header, k: string, vs: seq<string>): Header {
    if vs == [] then h else h[k := Values(h, k) + vs]
  }

  /** Where the merge has a key, and what it holds there. */
  lemma MergeAt(h: Header, extra: Header, j: string)
    ensures j in MergeHeaders(h, extra) <==> j in h || j in AddedKeys(extra)
    ensures j in MergeHeaders(h, extra) ==> MergeHeaders(h, extra)[j] == Values(h, j) + Values(extra, j)
  {
  }

  /** Merging no extra headers leaves the header as it is. */
  lemma MergeNothing(h: Header)
    ensures MergeHeaders(h, map[]) == h
  {
    assert AddedKeys(map[]) == {};
    forall j | j in h ensures MergeHeaders(h, map[])[j] == h[j] {
      MergeAt(h, map[], j);
    }
  }

  /** Adding one more value under `k` extends the values already appended there. */
  lemma AppendOne(h: Header, k: string, vs: seq<string>, v: string)
    ensures AppendValues(h, k, vs + [v]) == AppendValues(h, k, vs)[k := Values(AppendValues(h, k, vs), k) + [v]]
  {
    if vs != [] {
      assert Values(AppendValues(h, k, vs), k) + [v] == Values(h, k) + (vs + [v]);
    } else {
      assert vs + [v] == [v];
    }
  }

  /** Adding all values of one more key extends the merge by that key. */
  lemma MergeStep(h: Header, extra: Header, done: set<string>, k: string)
    requires k in extra && k !in done
    ensures AppendValues(MergeHeaders(h, Restrict(extra, done)), k, extra[k])
            == MergeHeaders(h, Restrict(extra, done + {k}))
  {
    var before, after := Restrict(extra, done), Restrict(extra, done + {k});
    assert after == before[k := extra[k]];
    var m, m' := MergeHeaders(h, before), MergeHeaders(h, after);
    MergeAt(h, before, k);
    assert Values(m, k) == Values(h, k);
    forall j | j != k
      ensures j in m <==> j in m'
      ensures j in m ==> m[j] == m'[j]
    {
      MergeAt(h, before, j);
      MergeAt(h, after, j);
      assert Values(before, j) == Values(after, j);
    }
    MergeAt(h, after, k);
    if extra[k] == [] {
      assert k in m <==> k in m';
    } else {
      assert k in m';
    }
  }

  /** The inner loop of the header merge: add each of `values` under `k`, in order. */
  method AddValues(w: ResponseWriter, k: string, values: seq<string>)
    modifies w
    ensures w.header == AppendValues(old(w.header), k, values)
    ensures w.head == old(w.head) && w.body == old(w.body)
  {
    var i := 0;
    while i < |values|
      invariant 0 <= i <= |values|
      invariant w.header == AppendValues(old(w.header), k, values[..i])
      invariant w.head == old(w.head) && w.body == old(w.body)
    {
      assert values[..i + 1] == values[..i] + [values[i]];
      AppendOne(old(w.header), k, values[..i], values[i]);
      w.AddHeader(k, values[i]);
      i := i + 1;
    }
    assert values[..i] == values;
  }

  /** The outer loop of the header merge: every key of `extra`, in whatever order the map yields them. */
  method AddHeaders(w: ResponseWriter, extra: Header)
    modifies w
    ensures w.header == MergeHeaders(old(w.header), extra)
    ensures w.head == old(w.head) && w.body == old(w.body)
  {
    var remaining := extra.Keys;
    ghost var done: set<string> := {};
    assert Restrict(extra, done) == map[];
    MergeNothing(w.header);
    while remaining != {}
      invariant remaining + done == extra.Keys && remaining !! done
      invariant w.header == MergeHeaders(old(w.header), Restrict(extra, done))
      invariant w.head == old(w.head) && w.body == old(w.body)
      decreases remaining
    {
      var k :| k in remaining;
      AddValues(w, k, extra[k]);
      MergeStep(old(w.header), extra, done, k);
      remaining := remaining - {k};
      done := done + {k};
    }
    assert Restrict(extra, done) == extra;
  }

  /**
   * encodeJSONResponse: set the Content-Type, merge the response's extra
   * headers, write its status, and write its body unless the status is 204.
   */
  method EncodeJSONResponse(w: ResponseWriter, r: ResponseValue)
    modifies w
    ensures w.header == MergeHeaders(old(w.header)[ContentTypeKey := [JsonUtf8ContentType]], ExtraHeaders(r))
    ensures w.head == if old(w.head).None? then Some(Head(ResponseStatus(r), w.header)) else old(w.head)
    ensures w.body == old(w.body) + if ResponseStatus(r) == StatusNoContent then [] else [ResponseBody(r)]
  {
    w.SetHeader(ContentTypeKey, JsonUtf8ContentType);
    if r.headers.Some? {
      AddHeaders(w, r.headers.value);
    } else {
      MergeNothing(w.header);
    }
    var code := StatusOK;
    if r.statusCode.Some? {
      code := r.statusCode.value;
    }
    w.WriteHeader(code);
    if code == StatusNoContent {
      return;
    }
    if r.response.Some? {
      w.Encode(r.response.value);
      return;
    }
    w.Encode(r.value);
  }

  /** Keys the extra headers do not add to keep exactly their values. */
  lemma MergeLeavesOtherKeys(h: Header, extra: Header, k: string)
    requires k !in AddedKeys(extra)
    ensures k in MergeHeaders(h, extra) <==> k in h
    ensures k in h ==> MergeHeaders(h, extra)[k] == h[k]
  {
  }

  /** Added values come after the existing ones, in the order the response lists them. */
  lemma MergeAppendsInOrder(h: Header, extra: Header, k: string)
    requires k in AddedKeys(extra)
    ensures k in MergeHeaders(h, extra) && MergeHeaders(h, extra)[k] == Values(h, k) + extra[k]
  {
  }

  /** Extra headers never displace the Content-Type: Get still reads the JSON one. */
  lemma ContentTypeStaysFirst(h: Header, extra: Header)
    ensures Get(MergeHeaders(h[ContentTypeKey := [JsonUtf8ContentType]], extra), ContentTypeKey) == JsonUtf8ContentType
  {
  }

  // ---------------------------------------------------------------------
  // Routes (server side)
  // ---------------------------------------------------------------------

  /** What a route serves: one operation (with the JWT-to-context step or not), or the metrics page. */
  datatype Handler = OperationServer(op: Op, jwtToContext: bool) | MetricsHandler

  datatype Route = Route(verb: string, path: string, handler: Handler)

  /** The handler of the first route whose method and path both match exactly. */
  function Dispatch(routes: seq<Route>, verb: string, path: string): (h: Option<Handler>)
    ensures h.None? <==> forall i :: 0 <= i < |routes| ==> routes[i].verb != verb || routes[i].path != path
    ensures h.Some? ==> exists i :: 0 <= i < |routes| && routes[i] == Route(verb, path, h.value)
                                     && forall j :: 0 <= j < i ==> routes[j].verb != verb || routes[j].path != path
  {
    if routes == [] then None
    else if routes[0].verb == verb && routes[0].path == path then Some(routes[0].handler)
    else
      assert forall i :: 0 <= i < |routes| - 1 ==> routes[1..][i] == routes[i + 1];
      Dispatch(routes[1..], verb, path)
  }

  /** A table of three routes answers exactly the method and path pairs it lists. */
  lemma DispatchAmongThree(routes: seq<Route>, verb: string, path: string)
    requires |routes| == 3
    ensures Dispatch(routes, verb, path).Some? <==>
              (verb, path) in {(routes[0].verb, routes[0].path), (routes[1].verb, routes[1].path), (routes[2].verb, routes[2].path)}
  {
    assert routes[1..][1..][1..] == [];
  }

  /** NewHTTPHandler's routes: POST for the two operations, each with the JWT step, and GET /metrics. */
  function NewHTTPHandler(): (routes: seq<Route>)
    ensures Dispatch(routes, "POST", "/api/add/sum") == Some(OperationServer(Sum, true))
    ensures Dispatch(routes, "POST", "/api/add/concat") == Some(OperationServer(Concat, true))
    ensures Dispatch(routes, "GET", "/metrics") == Some(MetricsHandler)
    ensures forall v, p :: Dispatch(routes, v, p).Some? <==>
              (v, p) in {("POST", "/api/add/sum"), ("POST", "/api/add/concat"), ("GET", "/metrics")}
    ensures forall i :: 0 <= i < |routes| ==> routes[i].handler.OperationServer? ==> routes[i].handler.jwtToContext
  {
    var routes := [ Route("POST", "/api/add/sum", OperationServer(Sum, true)),
                    Route("POST", "/api/add/concat", OperationServer(Concat, true)),
                    Route("GET", "/metrics", MetricsHandler) ];
    assert forall v, p :: Dispatch(routes, v, p).Some? <==>
             (v, p) in {("POST", "/api/add/sum"), ("POST", "/api/add/concat"), ("GET", "/metrics")} by {
      forall v, p
        ensures Dispatch(routes, v, p).Some? <==>
                (v, p) in {("POST", "/api/add/sum"), ("POST", "/api/add/concat"), ("GET", "/metrics")}
      {
        DispatchAmongThree(routes, v, p);
      }
    }
    routes
  }

  // ---------------------------------------------------------------------
  // Client construction
  // ---------------------------------------------------------------------

  /** The path a client endpoint calls. */
  function ClientPath(op: Op): string {
    match op
    case Sum => "/sum"
    case Concat => "/concat"
  }

  /** The client's paths are not the server's routes: no route answers them. */
  lemma ClientPathsAreNotServerRoutes(op: Op)
    ensures Dispatch(NewHTTPHandler(), "POST", ClientPath(op)).None?
  {
  }

  /** The instance string with "http://" put in front unless it already starts with "http". */
  function SanitizeInstance(instance: string): (s: string)
    ensures HasPrefix(s, "http")
    ensures s == instance <==> HasPrefix(instance, "http")
    ensures s != instance ==> s == "http://" + instance
  {
    if HasPrefix(instance, "http") then instance else "http://" + instance
  }

  /** Sanitising twice is sanitising once. */
  lemma SanitizeIdempotent(instance: string)
    ensures SanitizeInstance(SanitizeInstance(instance)) == SanitizeInstance(instance)
  {
  }

  /**
   * A bare host whose name merely starts with "http" (such as "httpbin:8080")
   * gets no scheme: the sanitised instance then starts with neither
   * "http://" nor "https://".
   */
  lemma SanitizeLeavesHttpNamedHostWithoutScheme(host: string)
    requires HasPrefix(host, "http") && !HasPrefix(host, "http://") && !HasPrefix(host, "https://")
    ensures !HasPrefix(SanitizeInstance(host), "http://") && !HasPrefix(SanitizeInstance(host), "https://")
  {
  }

  /** copyURL: a copy of `base` with only its path replaced (`base` itself is a value and stays as it is). */
  function CopyUrl(base: Url, path: string): (next: Url)
    ensures next.path == path
    ensures next.(path := base.path) == base
  {
    base.(path := path)
  }

  /** One client endpoint: its HTTP method, the URL it calls, and the operation whose response it decodes. */
  datatype ClientEndpoint = ClientEndpoint(verb: string, url: Url, op: Op)

  datatype ClientEndpoints = ClientEndpoints(sum: ClientEndpoint, concat: ClientEndpoint)

  /**
   * NewHTTPClient: sanitise the instance, parse it (url.Parse is `parse`) and
   * build the two endpoints on copies of the parsed URL.
   */
  method NewHTTPClient(instance: string, parse: string -> Result<Url, string>) returns (r: Result<ClientEndpoints, string>)
    ensures parse(SanitizeInstance(instance)).Failure? ==> r == Failure(parse(SanitizeInstance(instance)).error)
    ensures parse(SanitizeInstance(instance)).Success? ==>
              var u := parse(SanitizeInstance(instance)).value;
              r == Success(ClientEndpoints(ClientEndpoint("POST", CopyUrl(u, ClientPath(Sum)), Sum),
                                           ClientEndpoint("POST", CopyUrl(u, ClientPath(Concat)), Concat)))
  {
    var inst := instance;
    if !HasPrefix(inst, "http") {
      inst := "http://" + inst;
    }
    var parsed := parse(inst);
    if parsed.Failure? {
      return Failure(parsed.error);
    }
    var u := parsed.value;
    var sum := ClientEndpoint("POST", CopyUrl(u, "/sum"), Sum);
    var concat := ClientEndpoint("POST", CopyUrl(u, "/concat"), Concat);
    r := Success(ClientEndpoints(sum, concat));
  }

  /** The two client endpoints differ only in their path; everything else is the parsed URL's. */
  lemma ClientUrlsShareTheBase(u: Url)
    ensures CopyUrl(u, ClientPath(Sum)).(path := u.path) == CopyUrl(u, ClientPath(Concat)).(path := u.path) == u
  {
  }

  // ---------------------------------------------------------------------
  // Response decoding (client side)
  // ---------------------------------------------------------------------

  /** The errors a client call can end with. */
  datatype ClientError =
    | UnexpectedContentType(message: string)  // fmt.Errorf: the error body is not JSON
    | Undecodable(cause: Json.DecodeError)    // the body could not be decoded
    | Remote(message: string)                 // errors.New of the decoded ErrorWrapper's text

  /**
   * JSONErrorDecoder: an error body is read only when its Content-Type
   * mentions application/json; it is then decoded as an ErrorWrapper.
   */
  function JsonErrorDecoder(r: Response): (e: ClientError)
    ensures e.UnexpectedContentType? <==> !Contains(Get(r.header, ContentTypeKey), ContentType)
    ensures e.UnexpectedContentType? ==>
              e.message == "expected JSON formatted error, got Content-Type " + Get(r.header, ContentTypeKey)
    ensures e.Remote? ==> DecodeErrorWrapper(r.body) == Success(ErrorWrapper(e.message))
    ensures e.Undecodable? ==> DecodeErrorWrapper(r.body) == Failure(e.cause)
  {
    var contentType := Get(r.header, ContentTypeKey);
    if !Contains(contentType, ContentType) then
      UnexpectedContentType("expected JSON formatted error, got Content-Type " + contentType)
    else
      match DecodeErrorWrapper(r.body)
      case Success(w) => Remote(w.error)
      case Failure(cause) => Undecodable(cause)
  }

  /** What a response decoder returns: Go's (response, error) pair. */
  datatype Decoded<R> = Decoded(response: Option<R>, err: Option<ClientError>)

  /**
   * The shared shape of decodeHTTPSumResponse and decodeHTTPConcatResponse:
   * any status but exactly 200 gives no response and JSONErrorDecoder's error;
   * 200 decodes the body with `decodeBody` (json decoding into the
   * operation's response type, which is not part of this model).
   */
  function DecodeResponse<R>(r: Response, decodeBody: Json.Body -> (R, Option<Json.DecodeError>)): (d: Decoded<R>)
    ensures d.response.None? <==> r.statusCode != StatusOK
    ensures r.statusCode != StatusOK ==> d.err == Some(JsonErrorDecoder(r))
    ensures r.statusCode == StatusOK ==> d.response == Some(decodeBody(r.body).0)
    ensures r.statusCode == StatusOK ==>
              d.err == if decodeBody(r.body).1.Some? then Some(Undecodable(decodeBody(r.body).1.value)) else None
  {
    if r.statusCode != StatusOK then
      Decoded(None, Some(JsonErrorDecoder(r)))
    else
      var (resp, err) := decodeBody(r.body);
      Decoded(Some(resp), if err.Some? then Some(Undecodable(err.value)) else None)
  }

  /** decodeHTTPSumResponse */
  function DecodeSumResponse<R>(r: Response, decodeBody: Json.Body -> (R, Option<Json.DecodeError>)): (d: Decoded<R>)
    ensures r.statusCode != StatusOK ==> d == Decoded(None, Some(JsonErrorDecoder(r)))
    ensures r.statusCode == StatusOK ==> d.response == Some(decodeBody(r.body).0)
    ensures r.statusCode == StatusOK ==>
              d.err == if decodeBody(r.body).1.Some? then Some(Undecodable(decodeBody(r.body).1.value)) else None
  {
    DecodeResponse(r, decodeBody)
  }

  /** decodeHTTPConcatResponse */
  function DecodeConcatResponse<R>(r: Response, decodeBody: Json.Body -> (R, Option<Json.DecodeError>)): (d: Decoded<R>)
    ensures r.statusCode != StatusOK ==> d == Decoded(None, Some(JsonErrorDecoder(r)))
    ensures r.statusCode == StatusOK ==> d.response == Some(decodeBody(r.body).0)
    ensures r.statusCode == StatusOK ==>
              d.err == if decodeBody(r.body).1.Some? then Some(Undecodable(decodeBody(r.body).1.value)) else None
  {
    DecodeResponse(r, decodeBody)
  }

  // ---------------------------------------------------------------------
  // Server and client together
  // ---------------------------------------------------------------------

  /** Both Content-Types the server writes pass the client's gate. */
  lemma ServerContentTypesPassGate()
    ensures Contains(ContentType, ContentType) && Contains(JsonUtf8ContentType, ContentType)
  {
    assert JsonUtf8ContentType == ContentType + "; charset=utf-8";
    assert HasPrefix(JsonUtf8ContentType, ContentType);
  }

  /**
   * A response with its own non-200 status (201, 204, ...) is a failed call
   * for the client, whatever its body.
   */
  lemma OwnStatusIsAClientError<R>(v: ResponseValue, h: Header, body: Json.Body,
                                   decodeBody: Json.Body -> (R, Option<Json.DecodeError>))
    requires ResponseStatus(v) != StatusOK
    ensures DecodeResponse(Response(ResponseStatus(v), h, body), decodeBody).response.None?
    ensures DecodeResponse(Response(ResponseStatus(v), h, body), decodeBody).err.Some?
  {
  }

  /**
   * The error envelope the server writes passes the client's Content-Type gate
   * but is never read back: the client fails with a type mismatch on "error"
   * and the server's message is lost.
   */
  lemma ErrorEnvelopeIsUnreadableByClient<R>(err: Err, c: Collaborators, h: Header,
                                             decodeBody: Json.Body -> (R, Option<Json.DecodeError>))
    requires c.Valid()
    requires Translate(err, c).code != StatusOK
    ensures var item := Translate(err, c);
            var r := Response(item.code, h[ContentTypeKey := [ContentType]], Json.Document(ErrorResJson(ErrorRes(item))));
            DecodeResponse(r, decodeBody) == Decoded(None, Some(Undecodable(ErrorIsAnObject)))
  {
  }
}
