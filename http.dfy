/**
 * What a request handler sees of a request and what it does to the
 * response: the transport's actions are recorded in order.
 */
module Http {
  import opened Common

  const StatusOk: int := 200
  const StatusBadRequest: int := 400
  const StatusNotFound: int := 404

  /**
   * The header record built for a file response: `:status` (only the
   * handler's variant sets it), `content-length`, `last-modified`,
   * `content-type`.
   */
  datatype Headers = Headers(status: Option<int>, contentLength: nat, lastModified: string, contentType: Option<string>)

  /** One call on a response or its HTTP/2 stream. */
  datatype Action =
    | WriteHead(status: int, fields: map<string, string>)   // response.writeHead
    | EndResponse(body: string)                               // response.end
    | CloseFdOnStreamClose(fd: nat)                           // stream.on('close', () => closeSync(fd))
    | RespondWithFd(fd: nat, headers: Headers)                // stream.respondWithFD
    | PushStream(path: string, fd: nat, headers: Headers)     // stream.pushStream({':path'}, s => s.respondWithFD)

  /** The class of the request or response object the dispatcher passed in. */
  datatype Transport = Http1 | Http2 | OtherTransport

  /** An inbound request; `path` is `url.parse(request.url).path`. */
  datatype Request = Request(transport: Transport, path: string)

  datatype ContextState = Start | Dispatching | End

  /** The per-request envelope a handler receives. */
  class HttpContext {
    const request: Request
    const response: Transport
    var state: ContextState
    var sent: seq<Action>

    constructor (request: Request, response: Transport)
      ensures this.request == request && this.response == response
      ensures state == Start && sent == []
    {
      this.request := request;
      this.response := response;
      state := Start;
      sent := [];
    }
  }
}
