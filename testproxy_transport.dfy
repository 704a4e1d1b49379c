/** The transport integration (testproxytransport.go): a transport wrapper that tags every request
    and redirects its URL host to the proxy, leaving scheme and `Host` field alone and the
    response untouched, and session calls that start and stop a recording. */
module TestProxyTransportVariant {
  import opened GoTypes
  import opened GoFmt
  import opened Http
  import opened ProxyProtocol

  /** The request as `Do` hands it to the inner transport: the recording id, mode and upstream
      headers are set and the URL host is the proxy address; scheme, path and `Host` field keep
      their values, and so do all other headers. */
  function Rewrite(v: RequestView, proxyHost: string, mode: string, recordingId: string): (r: RequestView)
    ensures r.url == Url(v.url.scheme, proxyHost, v.url.rest) && r.host == v.host
    ensures r.header.Keys == v.header.Keys + InjectedHeaders
    ensures r.header[RecordingUpstreamUriHeader] == UpstreamBaseUri(v.url.scheme, v.url.host)
    ensures r.header[RecordingModeHeader] == mode && r.header[RecordingIdHeader] == recordingId
    ensures forall k :: k in v.header && k !in InjectedHeaders ==> r.header[k] == v.header[k]
  {
    var h := v.header[RecordingIdHeader := recordingId];
    var h := h[RecordingModeHeader := mode];
    var h := h[RecordingUpstreamUriHeader := UpstreamBaseUri(v.url.scheme, v.url.host)];
    RequestView(v.url.(host := proxyHost), v.host, h)
  }

  /** A transport that reroutes every request through the proxy; it is configured once and its
      fields never change. */
  class TestProxyTransport {
    const transport: Transporter
    const host: string
    const port: int
    const mode: string
    const recordingId: string

    /** `NewTestProxyTransport`: stores every argument as given (the recording id is passed
        before the mode). */
    constructor New(transport: Transporter, host: string, port: int, recordingId: string, mode: string)
      ensures this.transport == transport && this.host == host && this.port == port
      ensures this.recordingId == recordingId && this.mode == mode
    {
      this.transport := transport;
      this.host := host;
      this.port := port;
      this.recordingId := recordingId;
      this.mode := mode;
    }

    /** `Do`: tags the request and points its URL host at the proxy in place, then returns what
        the inner transport answered (`sent`) without touching it. */
    method Do(req: Request, sent: SendResult) returns (resp: Option<Response>, err: Option<Error>)
      modifies req
      ensures req.View() == Rewrite(old(req.View()), HostPort(host, port), mode, recordingId)
      ensures resp == sent.resp && err == sent.err
    {
      req.header := req.header[RecordingIdHeader := recordingId];
      req.header := req.header[RecordingModeHeader := mode];

      var scheme := req.url.scheme;
      var originalHost := req.url.host;
      var baseUri := UpstreamBaseUri(scheme, originalHost);
      req.header := req.header[RecordingUpstreamUriHeader := baseUri];

      req.url := req.url.(host := HostPort(host, port));

      resp, err := sent.resp, sent.err;
    }
  }

  /** Session state: proxy address, mode, the recording id and the recording file of the test. */
  class TestProxyVariables {
    var Host: string
    var Port: int
    var Mode: string
    var RecordingId: string
    var CurrentRecordingPath: string

    /** `NewTestProxyVariables`: only the recording file is set, to the test's file under the
        current directory; everything else has its zero value. */
    constructor New(testName: string, currentDirectory: string)
      ensures Host == "" && Port == 0 && Mode == "" && RecordingId == ""
      ensures CurrentRecordingPath == RecordingFilePath(currentDirectory, testName)
    {
      Host, Port, Mode, RecordingId := "", 0, "", "";
      CurrentRecordingPath := RecordingFilePath(currentDirectory, testName);
    }

    /** The request `StartTestProxy` posts: `https://Host:Port/Mode/start`, a JSON content type,
        and a body naming the recording file. */
    function StartRequest(): (r: OutgoingRequest)
      reads this
      ensures r.verb == "POST"
      ensures r.url == "https://" + HostPort(Host, Port) + "/" + Mode + "/start"
      ensures r.header == map[ContentTypeHeader := "application/json"]
      ensures r.jsonBody == Some(map[RecordingFileKey := CurrentRecordingPath])
    {
      OutgoingRequest("POST", "https://" + Host + ":" + FormatInt(Port) + "/" + Mode + "/start",
                      map[ContentTypeHeader := "application/json"],
                      Some(map[RecordingFileKey := CurrentRecordingPath]))
    }

    /** The request `StopTestProxy` posts: `https://Host:Port/Mode/stop` with the recording id
        and the save directive, and no body. */
    function StopRequest(): (r: OutgoingRequest)
      reads this
      ensures r.verb == "POST"
      ensures r.url == "https://" + HostPort(Host, Port) + "/" + Mode + "/stop"
      ensures r.header.Keys == {RecordingIdHeader, RecordingSaveHeader}
      ensures r.header[RecordingIdHeader] == RecordingId && r.header[RecordingSaveHeader] == "true"
      ensures r.jsonBody.None?
    {
      var addr := Host + ":" + FormatInt(Port);
      assert addr == HostPort(Host, Port);
      OutgoingRequest("POST", "https://" + addr + "/" + Mode + "/stop",
                      map[RecordingIdHeader := RecordingId, RecordingSaveHeader := "true"], None)
    }
  }

  /** The decision `StartTestProxy` takes from what the client returned: a transport error is
      returned and nothing is stored; otherwise the recording id header is stored, even when it
      is missing and reads as "", and the call succeeds. */
  function StartOutcome(sent: ClientOutcome): (e: StartEffect)
    ensures e.err == sent.err
    ensures e.storedId.Some? <==> sent.err.None?
    ensures sent.err.None? ==> e.storedId == Some(Get(sent.resp.value.header, RecordingIdHeader))
  {
    if sent.err.Some? then StartEffect(None, sent.err)
    else StartEffect(Some(Get(sent.resp.value.header, RecordingIdHeader)), None)
  }

  /** `StartTestProxy`: posts the start request (the client's answer is `sent`) and stores the
      recording id as `StartOutcome` decides; nothing else on the session changes. */
  method StartTestProxy(tpv: TestProxyVariables, sent: ClientOutcome) returns (call: OutgoingRequest, err: Option<Error>)
    modifies tpv
    ensures call == old(tpv.StartRequest())
    ensures var effect := StartOutcome(sent);
      && err == effect.err
      && tpv.RecordingId == (if effect.storedId.Some? then effect.storedId.value else old(tpv.RecordingId))
    ensures tpv.Host == old(tpv.Host) && tpv.Port == old(tpv.Port) && tpv.Mode == old(tpv.Mode)
    ensures tpv.CurrentRecordingPath == old(tpv.CurrentRecordingPath)
  {
    call := tpv.StartRequest();
    var effect := StartOutcome(sent);
    if effect.storedId.Some? {
      tpv.RecordingId := effect.storedId.value;
    }
    err := effect.err;
  }

  /** `StopTestProxy`: posts the stop request and returns only the client's error; the status
      code of the answer is never looked at. */
  method StopTestProxy(tpv: TestProxyVariables, sent: ClientOutcome) returns (call: OutgoingRequest, err: Option<Error>)
    ensures call == tpv.StopRequest()
    ensures err == sent.err
  {
    call := tpv.StopRequest();
    err := sent.err;
  }
}
