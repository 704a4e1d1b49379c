/** The slice of Go's `net/http` that the interception code touches: URLs, header maps, requests
    whose target is rewritten in place, responses that point back at their request, and the
    outcomes of a send, which the model receives as inputs instead of performing network I/O. */
module Http {
  import opened GoTypes

  /** A header map keyed by lower-case names, one value per name; `Header.Set` is map update. */
  type Header = map<string, string>

  /** `Header.Get`: the value stored under `key`, or "" when there is none. */
  function Get(h: Header, key: string): string
  {
    if key in h then h[key] else ""
  }

  /** A `url.URL`, split into the two parts the interception rewrites and everything else
      (path, query and fragment), which it never touches. */
  datatype Url = Url(scheme: string, host: string, rest: string)

  /** The state of a request at one moment: its URL, its `Host` field and its headers. */
  datatype RequestView = RequestView(url: Url, host: string, header: Header)

  /** An `http.Request` that the interception code rewrites in place. */
  class Request {
    var url: Url
    var host: string
    var header: Header

    constructor (url: Url, host: string, header: Header)
      ensures this.url == url && this.host == host && this.header == header
    {
      this.url := url;
      this.host := host;
      this.header := header;
    }

    function View(): RequestView
      reads this
    {
      RequestView(url, host, header)
    }
  }

  /** An `http.Response`; `request` is the request it answers, which may or may not be the very
      object that was sent. */
  class Response {
    var request: Request
    var statusCode: int

    constructor (request: Request, statusCode: int)
      ensures this.request == request && this.statusCode == statusCode
    {
      this.request := request;
      this.statusCode := statusCode;
    }
  }

  /** What the next stage of a pipeline, or a wrapped transport, returned for a request. */
  datatype SendResult = SendResult(resp: Option<Response>, err: Option<Error>)

  /** An inner `policy.Transporter`, known to the model only by its identity. */
  class Transporter {
  }

  /** The outcome of reading a response body with `io.ReadAll`. */
  datatype Body = Body(text: string) | BodyReadFailed(err: Error)

  /** What the proxy answered to a start or stop call, as far as the session code looks at it. */
  datatype ProxyResponse = ProxyResponse(statusCode: int, header: Header, body: Body)

  /** What `http.Client.Do` returned. */
  datatype ClientResult = ClientResult(resp: Option<ProxyResponse>, err: Option<Error>)

  /** `http.Client.Do` promises a response whenever it reports no error. */
  type ClientOutcome = r: ClientResult | r.err.None? ==> r.resp.Some?
    witness ClientResult(None, Some(Error("")))

  /** A request the session code builds for the proxy: method, target URL as written, headers, and
      the JSON object carried as body (None for no body). */
  datatype OutgoingRequest = OutgoingRequest(verb: string, url: string, header: Header, jsonBody: Option<map<string, string>>)
}
