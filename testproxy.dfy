/** The pipeline-policy integration (testproxy.go): a per-call policy that points every request at
    the proxy and restores the real target on the response, and the session calls that start and
    stop a recording. The proxy is always addressed over `https`. */
module TestProxyPolicy {
  import opened GoTypes
  import opened GoFmt
  import opened Http
  import opened ProxyProtocol

  /** The scheme requests to the proxy use, whatever the port. */
  const ProxyScheme := "https"

  const NilProxyError := Error("TestProxy not empty")
  const MissingIdPrefix := "recording ID was not returned by the response. Response body: "
  const StopFailedPrefix := "proxy did not stop the recording properly: "

  /** The request as `Do` hands it on: scheme, URL host and `Host` field point at the proxy, and
      the upstream, mode and recording id headers are set; nothing else changes. */
  function Rewrite(v: RequestView, proxyHost: string, mode: string, recordingId: string): (r: RequestView)
    ensures r.url == Url(ProxyScheme, proxyHost, v.url.rest) && r.host == proxyHost
    ensures r.header.Keys == v.header.Keys + InjectedHeaders
    ensures r.header[RecordingUpstreamUriHeader] == UpstreamBaseUri(v.url.scheme, v.url.host)
    ensures r.header[RecordingModeHeader] == mode && r.header[RecordingIdHeader] == recordingId
    ensures forall k :: k in v.header && k !in InjectedHeaders ==> r.header[k] == v.header[k]
  {
    var h := v.header[RecordingUpstreamUriHeader := UpstreamBaseUri(v.url.scheme, v.url.host)];
    var h := h[RecordingModeHeader := mode];
    var h := h[RecordingIdHeader := recordingId];
    RequestView(v.url.(scheme := ProxyScheme, host := proxyHost), proxyHost, h)
  }

  /** The rewritten request still tells which real endpoint it was meant for: two requests that
      differ in original scheme or host never look the same to the proxy. */
  lemma RewriteKeepsOrigin(v1: RequestView, v2: RequestView, proxyHost: string, mode: string, recordingId: string)
    requires ':' !in v1.url.scheme && ':' !in v2.url.scheme
    requires Rewrite(v1, proxyHost, mode, recordingId) == Rewrite(v2, proxyHost, mode, recordingId)
    ensures v1.url == v2.url
  {
    var r1, r2 := Rewrite(v1, proxyHost, mode, recordingId), Rewrite(v2, proxyHost, mode, recordingId);
    assert r1.header[RecordingUpstreamUriHeader] == r2.header[RecordingUpstreamUriHeader];
    UpstreamBaseUriInjective(v1.url.scheme, v1.url.host, v2.url.scheme, v2.url.host);
  }

  /** The decision `StartTestProxy` takes from what the client returned. A transport error is
      returned as it is; a missing recording id is an error embedding the body; otherwise the id
      is stored, and only then can a failed body read or a body that does not parse (per
      `unmarshal`, standing for `json.Unmarshal`) still turn the call into an error. */
  function StartOutcome(sent: ClientOutcome, unmarshal: string -> Option<Error>): (e: StartEffect)
    ensures sent.err.Some? ==> e == StartEffect(None, sent.err)
    ensures sent.err.None? ==>
      var id := Get(sent.resp.value.header, RecordingIdHeader);
      && (e.storedId.Some? <==> id != "")
      && (e.storedId.Some? ==> e.storedId.value == id)
    ensures e.err.None? ==> e.storedId.Some? && e.storedId.value != ""
    ensures sent.err.None? && Get(sent.resp.value.header, RecordingIdHeader) == "" ==>
      e.err == Some(match sent.resp.value.body
                    case Body(text) => Error(MissingIdPrefix + text)
                    case BodyReadFailed(readErr) => readErr)
    ensures sent.err.None? && Get(sent.resp.value.header, RecordingIdHeader) != "" ==>
      e.err == (match sent.resp.value.body
                case BodyReadFailed(readErr) => Some(readErr)
                case Body(text) => if |text| > 0 then unmarshal(text) else None)
  {
    if sent.err.Some? then StartEffect(None, sent.err)
    else
      var resp := sent.resp.value;
      var recId := Get(resp.header, RecordingIdHeader);
      if recId == "" then
        match resp.body
        case BodyReadFailed(readErr) => StartEffect(None, Some(readErr))
        case Body(text) => StartEffect(None, Some(Error(MissingIdPrefix + text)))
      else
        match resp.body
        case BodyReadFailed(readErr) => StartEffect(Some(recId), Some(readErr))
        case Body(text) => StartEffect(Some(recId), if |text| > 0 then unmarshal(text) else None)
  }

  /** A start succeeds exactly when the client got an answer carrying a recording id whose body
      could be read and is empty or parses. */
  lemma StartSucceedsIff(sent: ClientOutcome, unmarshal: string -> Option<Error>)
    ensures StartOutcome(sent, unmarshal).err.None? <==>
      && sent.err.None?
      && Get(sent.resp.value.header, RecordingIdHeader) != ""
      && sent.resp.value.body.Body?
      && (|sent.resp.value.body.text| == 0 || unmarshal(sent.resp.value.body.text).None?)
  {
  }

  /** How a stop call ends: it returns an error value, or it dereferences the nil response that
      the client returns together with a transport error. */
  datatype StopOutcome = Returned(err: Option<Error>) | NilResponsePanic

  /** The decision `StopTestProxy` takes from what the client returned: the status code is read
      before the error is looked at, any status but 200 is an error carrying the body (or the
      error reading it), and 200 returns the client's error, nil in practice. */
  function StopOutcomeOf(sent: ClientOutcome): (o: StopOutcome)
    ensures o.NilResponsePanic? <==> sent.resp.None?
    ensures o == Returned(None) <==> sent.resp.Some? && sent.resp.value.statusCode == 200 && sent.err.None?
    ensures sent.resp.Some? && sent.resp.value.statusCode == 200 ==> o == Returned(sent.err)
    ensures sent.resp.Some? && sent.resp.value.statusCode != 200 ==>
      o == Returned(Some(Error(StopFailedPrefix + match sent.resp.value.body
                                                 case Body(text) => text
                                                 case BodyReadFailed(readErr) => readErr.message)))
  {
    if sent.resp.None? then NilResponsePanic
    else
      var resp := sent.resp.value;
      if resp.statusCode != 200 then
        match resp.body
        case Body(text) => Returned(Some(Error(StopFailedPrefix + text)))
        case BodyReadFailed(readErr) => Returned(Some(Error(StopFailedPrefix + readErr.message)))
      else Returned(sent.err)
  }

  /** The session state and the policy in one: proxy address, mode, the recording id the proxy
      returned and the root directory the recording file is placed under. */
  class TestProxy {
    var Host: string
    var Port: int
    var Mode: string
    var RecordingId: string
    var RecordingPath: string

    /** A session as a test sets one up: every field given, no recording id yet. */
    constructor (host: string, port: int, mode: string, recordingPath: string)
      ensures Host == host && Port == port && Mode == mode && RecordingPath == recordingPath
      ensures RecordingId == ""
    {
      Host, Port, Mode, RecordingPath := host, port, mode, recordingPath;
      RecordingId := "";
    }

    /** `host()`: the proxy address as `Host:Port`. */
    function HostPort(): (h: string)
      reads this
      ensures h == ProxyProtocol.HostPort(Host, Port)
    {
      ProxyProtocol.HostPort(Host, Port)
    }

    /** `scheme()`: the proxy is addressed over `https` whatever its port, and `baseURL()`, which
        writes the scheme out separately, agrees with it. */
    function Scheme(): (s: string)
      reads this
      ensures s == ProxyScheme && BaseUrl() == s + "://" + HostPort()
    {
      "https"
    }

    /** `baseURL()`: `https://Host:Port`, which is the proxy scheme and address joined. */
    function BaseUrl(): (u: string)
      reads this
      ensures u == ProxyScheme + "://" + HostPort()
    {
      "https://" + Host + ":" + FormatInt(Port)
    }

    /** The request `StartTestProxy` posts: `<base>/<Mode>/start`, a JSON content type, and a
        body naming the recording file of the test. */
    function StartRequest(testName: string): (r: OutgoingRequest)
      reads this
      ensures r.verb == "POST"
      ensures r.url == ProxyScheme + "://" + HostPort() + "/" + Mode + "/start"
      ensures r.header == map[ContentTypeHeader := "application/json"]
      ensures r.jsonBody == Some(map[RecordingFileKey := RecordingFilePath(RecordingPath, testName)])
    {
      OutgoingRequest("POST", BaseUrl() + "/" + Mode + "/start",
                      map[ContentTypeHeader := "application/json"],
                      Some(map[RecordingFileKey := RecordingFilePath(RecordingPath, testName)]))
    }

    /** The request `StopTestProxy` posts: `<base>/<Mode>/stop` with the recording id header and
        no body; in particular no save directive. */
    function StopRequest(): (r: OutgoingRequest)
      reads this
      ensures r.verb == "POST"
      ensures r.url == ProxyScheme + "://" + HostPort() + "/" + Mode + "/stop"
      ensures r.header.Keys == {RecordingIdHeader} && r.header[RecordingIdHeader] == RecordingId
      ensures r.jsonBody.None?
    {
      OutgoingRequest("POST", BaseUrl() + "/" + Mode + "/stop", map[RecordingIdHeader := RecordingId], None)
    }

    /** `Do`: rewrites the request in place to target the proxy, hands it to the next policy
        (whose answer is `next`), then puts the original scheme and host back on the URL of the
        request the response refers to, and returns the next policy's response and error as they
        are. The `Host` field and the headers are not restored. When the response refers to the
        very request that was sent, its URL ends up exactly as it was before the call. */
    method Do(req: Request, next: SendResult) returns (resp: Option<Response>, err: Option<Error>, forwarded: RequestView)
      modifies req, if next.resp.Some? then {next.resp.value.request} else {}
      ensures forwarded == Rewrite(old(req.View()), HostPort(), Mode, RecordingId)
      ensures resp == next.resp && err == next.err
      ensures next.resp.None? ==> req.View() == forwarded
      ensures next.resp.Some? ==>
        var back := next.resp.value.request;
        && back.url == old(back.url).(scheme := old(req.url.scheme), host := old(req.url.host))
        && (back == req ==> req.url == old(req.url) && req.host == forwarded.host && req.header == forwarded.header)
        && (back != req ==> req.View() == forwarded && back.host == old(back.host) && back.header == old(back.header))
    {
      var oriScheme := req.url.scheme;
      var oriHost := req.url.host;
      var proxy := HostPort();
      ghost var before := req.View();
      req.url := req.url.(scheme := ProxyScheme);
      req.url := req.url.(host := proxy);
      req.host := proxy;

      req.header := req.header[RecordingUpstreamUriHeader := UpstreamBaseUri(oriScheme, oriHost)];
      req.header := req.header[RecordingModeHeader := Mode];
      req.header := req.header[RecordingIdHeader := RecordingId];
      forwarded := req.View();
      assert forwarded == Rewrite(before, proxy, Mode, RecordingId);

      resp, err := next.resp, next.err;
      if resp.Some? {
        var back := resp.value.request;
        back.url := back.url.(scheme := oriScheme);
        back.url := back.url.(host := oriHost);
      }
    }
  }

  /** `StartTestProxy`: refuses a nil session, posts the start request (the client's answer is
      `sent`) and stores the recording id as `StartOutcome` decides; nothing else on the session
      changes, and the id is left alone on every path where none was returned. */
  method StartTestProxy(testName: string, tpv: TestProxy?, sent: ClientOutcome, unmarshal: string -> Option<Error>)
    returns (call: Option<OutgoingRequest>, err: Option<Error>)
    modifies tpv
    ensures tpv == null ==> call == None && err == Some(NilProxyError)
    ensures tpv != null ==>
      var effect := StartOutcome(sent, unmarshal);
      && call == Some(old(tpv.StartRequest(testName)))
      && err == effect.err
      && tpv.RecordingId == (if effect.storedId.Some? then effect.storedId.value else old(tpv.RecordingId))
      && tpv.Host == old(tpv.Host) && tpv.Port == old(tpv.Port) && tpv.Mode == old(tpv.Mode)
      && tpv.RecordingPath == old(tpv.RecordingPath)
  {
    if tpv == null {
      return None, Some(NilProxyError);
    }
    call := Some(tpv.StartRequest(testName));
    var effect := StartOutcome(sent, unmarshal);
    if effect.storedId.Some? {
      tpv.RecordingId := effect.storedId.value;
    }
    err := effect.err;
  }

  /** `StopTestProxy`: refuses a nil session, otherwise posts the stop request (the client's
      answer is `sent`) and ends as `StopOutcomeOf` decides. The session is not changed. */
  method StopTestProxy(tpv: TestProxy?, sent: ClientOutcome) returns (call: Option<OutgoingRequest>, outcome: StopOutcome)
    ensures tpv == null ==> call == None && outcome == Returned(Some(NilProxyError))
    ensures tpv != null ==> call == Some(tpv.StopRequest()) && outcome == StopOutcomeOf(sent)
  {
    if tpv == null {
      return None, Returned(Some(NilProxyError));
    }
    call := Some(tpv.StopRequest());
    outcome := StopOutcomeOf(sent);
  }
}
