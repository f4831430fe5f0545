/**
 * The parts of net/http and net/url the transport touches: header maps, a
 * ResponseWriter that remembers what it sent, client-side responses and URLs.
 */
module Http {
  import opened Wrappers
  import Json

  const StatusOK := 200
  const StatusNoContent := 204
  const StatusBadRequest := 400
  const StatusUnauthorized := 401
  const StatusInternalServerError := 500

  /** http.Header: each (canonical) key with its values in order. */
  type Header = map<string, seq<string>>

  /** The values stored under `key`, [] when the key is absent. */
  function Values(h: Header, key: string): seq<string> {
    if key in h then h[key] else []
  }

  /** Header.Get: the first value under `key`, or "" when there is none. */
  function Get(h: Header, key: string): string {
    var vs := Values(h, key);
    if vs == [] then "" else vs[0]
  }

  /** The status line as it went out, with the header that was sent with it. */
  datatype Head = Head(code: int, header: Header)

  /**
   * http.ResponseWriter. `header` is the map Header() returns; `head` is what
   * the first WriteHeader (or the first write of a body) sent; `body` holds the
   * values written by json.Encoder, in order.
   */
  class ResponseWriter {
    var header: Header
    var head: Option<Head>
    var body: seq<Json.Value>

    constructor ()
      ensures header == map[] && head == None && body == []
    {
      header, head, body := map[], None, [];
    }

    /** Header().Set: `key` now holds exactly `value`. */
    method SetHeader(key: string, value: string)
      modifies this
      ensures header == old(header)[key := [value]]
      ensures head == old(head) && body == old(body)
    {
      header := header[key := [value]];
    }

    /** Header().Add: `value` is appended to the values of `key`. */
    method AddHeader(key: string, value: string)
      modifies this
      ensures header == old(header)[key := Values(old(header), key) + [value]]
      ensures head == old(head) && body == old(body)
    {
      header := header[key := Values(header, key) + [value]];
    }

    /** WriteHeader: the first call sends the status and the current header; later calls are ignored. */
    method WriteHeader(code: int)
      modifies this
      ensures head == if old(head).None? then Some(Head(code, old(header))) else old(head)
      ensures header == old(header) && body == old(body)
    {
      if head.None? {
        head := Some(Head(code, header));
      }
    }

    /** json.NewEncoder(w).Encode(v): a body written before any status implies 200. */
    method Encode(v: Json.Value)
      modifies this
      ensures head == if old(head).None? then Some(Head(StatusOK, old(header))) else old(head)
      ensures header == old(header) && body == old(body) + [v]
    {
      if head.None? {
        head := Some(Head(StatusOK, header));
      }
      body := body + [v];
    }
  }

  /** http.Response, as a client receives it. */
  datatype Response = Response(statusCode: int, header: Header, body: Json.Body)

  /** url.Userinfo */
  datatype Userinfo = Userinfo(username: string, password: Option<string>)

  /** url.URL, field by field. */
  datatype Url = Url(
    scheme: string,
    schemeSpecificPart: string,  // the Opaque field: the encoded data of a URL with no "//"
    user: Option<Userinfo>,
    host: string,
    path: string,
    rawPath: string,
    forceQuery: bool,
    rawQuery: string,
    fragment: string,
    rawFragment: string)
}
