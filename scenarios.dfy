/** A record session from start to stop against the policy integration, as a test prologue drives
    it, step by step: what callers can conclude from the contracts alone. */
module Scenarios {
  import opened GoTypes
  import opened GoStrings
  import opened GoFmt
  import opened Http
  import opened ProxyProtocol
  import opened TestProxyPolicy

  /** Port 5001 prints as "5001". */
  lemma Port5001()
    ensures FormatInt(5001) == "5001"
  {
    assert NatToDecimal(5) == "5";
    assert NatToDecimal(50) == "50";
    assert NatToDecimal(500) == "500";
  }

  /** The start request of the session below: its URL and the recording file it names. */
  lemma SessionStartRequest(tpv: TestProxy)
    requires tpv.Host == "localhost" && tpv.Port == 5001 && tpv.Mode == "record" && tpv.RecordingPath == "/work"
    ensures tpv.StartRequest("TestCosmosDBTables").url == "https://" + "localhost:5001" + "/" + "record" + "/start"
    ensures tpv.StartRequest("TestCosmosDBTables").jsonBody.value[RecordingFileKey]
         == "/work" + "/recordings/" + "TestCosmosDBTables" + ".json"
  {
    var r := tpv.StartRequest("TestCosmosDBTables");
    assert tpv.HostPort() == "localhost:5001" by { SessionAddress(); }
    assert r.url == "https://" + "localhost:5001" + "/" + "record" + "/start";
    assert r.jsonBody.value[RecordingFileKey] == RecordingFilePath("/work", "TestCosmosDBTables");
    SessionRecordingFile();
  }

  /** The proxy address of the session. */
  lemma SessionAddress()
    ensures HostPort("localhost", 5001) == "localhost:5001"
  {
    Port5001();
  }

  /** The recording file of the test under the root directory /work. */
  lemma SessionRecordingFile()
    ensures RecordingFilePath("/work", "TestCosmosDBTables") == "/work" + "/recordings/" + "TestCosmosDBTables" + ".json"
  {
    assert "/" + Join(["work"], '/') == "/work" by {
      assert Join(["work"], '/') == "work";
    }
    RecordingFilePathUnderRoot(["work"], "TestCosmosDBTables");
  }

  /** Start: the proxy answers with recording id abc123, which the session then holds. */
  method StartSession() returns (tpv: TestProxy, err: Option<Error>)
    ensures err == None
    ensures tpv.Host == "localhost" && tpv.Port == 5001 && tpv.Mode == "record" && tpv.RecordingId == "abc123"
  {
    tpv := new TestProxy("localhost", 5001, "record", "/work");
    var started := ClientResult(Some(ProxyResponse(200, map[RecordingIdHeader := "abc123"], Body(""))), None);
    var parsed: string -> Option<Error> := _ => None;
    assert StartOutcome(started, parsed) == StartEffect(Some("abc123"), None) by {
      assert Get(started.resp.value.header, RecordingIdHeader) == "abc123";
    }
    var call;
    call, err := StartTestProxy("TestCosmosDBTables", tpv, started, parsed);
  }

  /** An intercepted GET of https://service.example.com/foo goes to the session's proxy address,
      tagged with the session, and the caller sees the real endpoint on the response again. */
  method InterceptGet(tpv: TestProxy) returns (resp: Option<Response>, forwarded: RequestView)
    requires tpv.Host == "localhost" && tpv.Port == 5001 && tpv.Mode == "record" && tpv.RecordingId == "abc123"
    ensures forwarded.url == Url("https", tpv.HostPort(), "/foo")
    ensures forwarded.header.Keys == InjectedHeaders
    ensures forwarded.header[RecordingUpstreamUriHeader] == UpstreamBaseUri("https", "service.example.com")
    ensures forwarded.header[RecordingModeHeader] == "record" && forwarded.header[RecordingIdHeader] == "abc123"
    ensures resp.Some? && resp.value.request.url == Url("https", "service.example.com", "/foo")
  {
    var original := RequestView(Url("https", "service.example.com", "/foo"), "service.example.com", map[]);
    var req := new Request(original.url, original.host, original.header);
    var answer := new Response(req, 200);
    var sendErr;
    resp, sendErr, forwarded := tpv.Do(req, SendResult(Some(answer), None));
  }

  /** Stop: the proxy answers 500 with a body, which the returned error carries. */
  method StopWithServerError(tpv: TestProxy) returns (stopCall: Option<OutgoingRequest>, outcome: StopOutcome)
    requires tpv.RecordingId == "abc123"
    ensures stopCall.Some? && RecordingIdHeader in stopCall.value.header && stopCall.value.header[RecordingIdHeader] == "abc123"
    ensures outcome == Returned(Some(Error(StopFailedPrefix + "boom")))
  {
    var stopped := ClientResult(Some(ProxyResponse(500, map[], Body("boom"))), None);
    stopCall, outcome := StopTestProxy(tpv, stopped);
  }

  method RecordSession()
  {
    var tpv, err := StartSession();
    var resp, forwarded := InterceptGet(tpv);
    var stopCall, outcome := StopWithServerError(tpv);
  }
}
