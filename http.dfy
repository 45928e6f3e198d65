/** The transport boundary: one HTTP exchange per call. The connection itself
    is outside the model; a transport answers each request with a response that
    may depend on everything sent through it before, and it keeps the log of
    what was sent so that contracts can say which requests a call made. */
module Http {
  import opened Core

  /** The part of an httplib2 response the client reads: status and body. */
  datatype Response = Response(status: int, body: string)

  /** The arguments of `client.request(uri, method, body=..., headers=...)`; `verb` is the HTTP method. */
  datatype HttpRequest = HttpRequest(uri: string, verb: string, headers: map<string, string>, body: Option<string>)

  /** The header that carries the API key on every request. */
  const ApiKeyHeader := "X_KASABI_APIKEY"

  /** The success band, `status in range(200, 300)`. */
  predicate IsSuccess(status: int)
  {
    200 <= status < 300
  }

  /** An httplib2.Http object as the library sees it. */
  class Transport {
    /** How the far side answers: the response to a request, given every
        request sent before it. */
    const server: (seq<HttpRequest>, HttpRequest) -> Response
    /** Every request sent so far, oldest first. */
    var sent: seq<HttpRequest>

    constructor (server: (seq<HttpRequest>, HttpRequest) -> Response)
      ensures this.server == server && sent == []
    {
      this.server := server;
      sent := [];
    }

    /** One round trip. */
    method Request(req: HttpRequest) returns (resp: Response)
      modifies this
      ensures sent == old(sent) + [req]
      ensures resp == server(old(sent), req)
    {
      resp := server(sent, req);
      sent := sent + [req];
    }
  }
}
