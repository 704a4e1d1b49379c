/** How the two integrations compare: they speak the same protocol to the proxy in most respects,
    and differ in the scheme and `Host` field of rewritten requests, in the save directive on
    stop, and in how a start without a recording id ends. */
module Variants {
  import opened GoTypes
  import opened Http
  import opened ProxyProtocol
  import Policy = TestProxyPolicy
  import Transport = TestProxyTransportVariant

  /** Both rewrites set the same three headers to the same values and leave the others alone,
      although they set them in a different order. */
  lemma SameInjectedHeaders(v: RequestView, proxyHost: string, mode: string, recordingId: string)
    ensures Policy.Rewrite(v, proxyHost, mode, recordingId).header
         == Transport.Rewrite(v, proxyHost, mode, recordingId).header
  {
    var h1 := Policy.Rewrite(v, proxyHost, mode, recordingId).header;
    var h2 := Transport.Rewrite(v, proxyHost, mode, recordingId).header;
    assert h1.Keys == h2.Keys;
    forall k | k in h1 ensures h1[k] == h2[k] {
      if k !in InjectedHeaders {
        assert h1[k] == v.header[k] == h2[k];
      }
    }
  }

  /** The two rewrites agree exactly when the request already uses `https` and its `Host` field
      already names the proxy: the policy forces both, the transport touches neither. */
  lemma RewritesAgreeIff(v: RequestView, proxyHost: string, mode: string, recordingId: string)
    ensures Policy.Rewrite(v, proxyHost, mode, recordingId) == Transport.Rewrite(v, proxyHost, mode, recordingId)
        <==> v.url.scheme == Policy.ProxyScheme && v.host == proxyHost
  {
    SameInjectedHeaders(v, proxyHost, mode, recordingId);
  }

  /** Given the same address and mode, both integrations post start and stop to the same URLs. */
  lemma SameControlUrls(p: Policy.TestProxy, t: Transport.TestProxyVariables, testName: string)
    requires p.Host == t.Host && p.Port == t.Port && p.Mode == t.Mode
    ensures p.StartRequest(testName).url == t.StartRequest().url
    ensures p.StopRequest().url == t.StopRequest().url
  {
    var address := HostPort(p.Host, p.Port);
    assert p.HostPort() == address == HostPort(t.Host, t.Port);
    assert Policy.ProxyScheme + "://" == "https://";
  }

  /** Only the transport integration asks the proxy to save the recording on stop. */
  lemma SaveDirectiveOnlyInTransport(p: Policy.TestProxy, t: Transport.TestProxyVariables)
    ensures RecordingSaveHeader !in p.StopRequest().header
    ensures Get(t.StopRequest().header, RecordingSaveHeader) == "true"
  {
  }

  /** A start answered without a recording id fails in the policy integration, keeping the old
      id, and succeeds in the transport integration, storing the empty id. */
  lemma MissingIdDivergence(sent: ClientOutcome, unmarshal: string -> Option<Error>)
    requires sent.err.None? && Get(sent.resp.value.header, RecordingIdHeader) == ""
    ensures Policy.StartOutcome(sent, unmarshal).err.Some?
    ensures Policy.StartOutcome(sent, unmarshal).storedId.None?
    ensures Transport.StartOutcome(sent) == StartEffect(Some(""), None)
  {
  }
}
