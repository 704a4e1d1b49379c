/** What the client side of the record/playback proxy protocol fixes independently of either
    implementation: header names, the `host:port` form of the proxy address, the upstream base
    URI header value and where a test's recording file lives. */
module ProxyProtocol {
  import opened GoTypes
  import opened GoStrings
  import opened GoFmt
  import opened GoPath

  const RecordingIdHeader := "x-recording-id"
  const RecordingModeHeader := "x-recording-mode"
  const RecordingUpstreamUriHeader := "x-recording-upstream-base-uri"
  const RecordingSaveHeader := "x-recording-save"
  const ContentTypeHeader := "content-type"
  const RecordingFileKey := "x-recording-file"

  /** The three headers an intercepted request carries. */
  const InjectedHeaders: set<string> := {RecordingUpstreamUriHeader, RecordingModeHeader, RecordingIdHeader}

  /** How a start call ends: the recording id stored on the session, if any, and the error returned. */
  datatype StartEffect = StartEffect(storedId: Option<string>, err: Option<Error>)

  /** `host:port`, with the port printed in decimal. */
  function HostPort(host: string, port: int): (a: string)
    ensures |a| > |host| && a[..|host|] == host && a[|host|] == ':'
    ensures a[|host| + 1..] == FormatInt(port) && ':' !in a[|host| + 1..]
  {
    var a := host + ":" + FormatInt(port);
    assert a[|host| + 1..] == FormatInt(port);
    a
  }

  /** The port reads back from the proxy address: it is the number after the host and colon. */
  lemma HostPortReadsBack(host: string, port: int)
    ensures var a := HostPort(host, port); IsNumeral(a[|host| + 1..]) && ParseInt(a[|host| + 1..]) == port
  {
    FormatIntRoundTrip(port);
  }

  /** `scheme://host`, the value of the upstream base URI header. */
  function UpstreamBaseUri(scheme: string, host: string): string
  {
    scheme + "://" + host
  }

  /** `path.Join(root, "recordings", testName + ".json")`. */
  function RecordingFilePath(root: string, testName: string): (p: string)
    ensures root != "" ==> p == Clean(root + "/recordings/" + testName + ".json")
    ensures root == "" ==> p == Clean("recordings/" + testName + ".json")
    ensures p != ""
  {
    var file := testName + ".json";
    if root != "" then
      RecordingFileJoin(root, file);
      RecordingsSegment(root, testName);
      JoinPath([root, "recordings", file])
    else
      var names := [root, "recordings", file];
      assert names[1..] == ["recordings", file];
      assert ["recordings", file][1..] == [file];
      assert JoinPath(names) == JoinPath(["recordings", file]);
      assert Join(["recordings", file], '/') == "recordings" + "/" + file;
      assert "recordings" + "/" + file == "recordings/" + testName + ".json";
      JoinPath(names)
  }

  /** The proxy address determines host and port: the port is everything after the last colon. */
  lemma HostPortInjective(h1: string, p1: int, h2: string, p2: int)
    requires HostPort(h1, p1) == HostPort(h2, p2)
    ensures h1 == h2 && p1 == p2
  {
    var s := HostPort(h1, p1);
    var f1, f2 := FormatInt(p1), FormatInt(p2);
    assert s[|h1|] == ':' && s[|h2|] == ':';
    assert |f1| == |f2|;
    assert h1 == s[..|h1|] == h2;
    assert f1 == s[|h1| + 1..] == f2;
    FormatIntInjective(p1, p2);
  }

  /** The upstream base URI determines the scheme and host it was built from, URL schemes never
      holding a colon. */
  lemma UpstreamBaseUriInjective(s1: string, h1: string, s2: string, h2: string)
    requires ':' !in s1 && ':' !in s2
    requires UpstreamBaseUri(s1, h1) == UpstreamBaseUri(s2, h2)
    ensures s1 == s2 && h1 == h2
  {
    var u := UpstreamBaseUri(s1, h1);
    assert u[|s1|] == ':' && u[|s2|] == ':';
    assert |s1| == |s2|;
    assert s1 == u[..|s1|] == s2;
    assert h1 == u[|s1| + 3..] == h2;
  }

  /** Under a clean absolute root (such as the current directory) the recording file of a test
      whose name has no `/` is `<root>/recordings/<name>.json`, written out literally. */
  lemma RecordingFilePathUnderRoot(rootElems: seq<string>, testName: string)
    requires |rootElems| >= 1 && AreCleanElements(rootElems)
    requires '/' !in testName
    ensures RecordingFilePath("/" + Join(rootElems, '/'), testName)
         == "/" + Join(rootElems, '/') + "/recordings/" + testName + ".json"
  {
    var root := "/" + Join(rootElems, '/');
    RecordingPathIsClean(rootElems, testName);
    RecordingFileJoin(root, testName + ".json");
    RecordingsSegment(root, testName);
  }

  /** The joined recording path under a clean absolute root needs no cleaning. */
  lemma RecordingPathIsClean(rootElems: seq<string>, testName: string)
    requires |rootElems| >= 1 && AreCleanElements(rootElems)
    requires '/' !in testName
    ensures Clean("/" + Join(rootElems, '/') + "/" + ("recordings" + "/" + (testName + ".json")))
         == "/" + Join(rootElems, '/') + "/" + ("recordings" + "/" + (testName + ".json"))
  {
    var file := testName + ".json";
    RecordingElementsClean(rootElems, testName);
    RecordingElementsJoin(rootElems, file);
    CleanAbsoluteIsClean(rootElems + ["recordings", file]);
  }

  /** The root's elements followed by the recordings directory and a test's file name are clean. */
  lemma RecordingElementsClean(rootElems: seq<string>, testName: string)
    requires AreCleanElements(rootElems)
    requires '/' !in testName
    ensures AreCleanElements(rootElems + ["recordings", testName + ".json"])
  {
    var elems := rootElems + ["recordings", testName + ".json"];
    JsonFileName(testName);
    forall i | 0 <= i < |elems| ensures IsNormalElement(elems[i]) && '/' !in elems[i] {
      if i < |rootElems| { assert elems[i] == rootElems[i]; }
    }
  }

  /** The rooted recording path is the rooted join of those elements. */
  lemma RecordingElementsJoin(rootElems: seq<string>, file: string)
    requires |rootElems| >= 1
    ensures "/" + Join(rootElems, '/') + "/" + ("recordings" + "/" + file)
         == "/" + Join(rootElems + ["recordings", file], '/')
  {
    RecordingsTail(file);
    JoinAppend(rootElems, ["recordings", file], '/');
    RootedConcat(Join(rootElems, '/'), Join(["recordings", file], '/'));
  }

  /** The recordings directory joined with a file name. */
  lemma RecordingsTail(file: string)
    ensures Join(["recordings", file], '/') == "recordings" + "/" + file
  {
    assert ["recordings", file][1..] == [file];
  }

  lemma RootedConcat(j: string, t: string)
    ensures "/" + j + "/" + t == "/" + (j + ['/'] + t)
  {
  }

  /** A test's recording file name is a single normal path element. */
  lemma JsonFileName(testName: string)
    requires '/' !in testName
    ensures IsNormalElement(testName + ".json") && '/' !in testName + ".json"
  {
    var file := testName + ".json";
    assert file[|file| - 1] == 'n';
  }

  /** `path.Join` of a non-empty root with the recordings directory and a file name. */
  lemma RecordingFileJoin(root: string, file: string)
    requires root != ""
    ensures JoinPath([root, "recordings", file]) == Clean(root + "/" + ("recordings" + "/" + file))
  {
    var names := [root, "recordings", file];
    assert names[1..] == ["recordings", file];
    assert names[1..][1..] == [file];
    assert Join(["recordings", file], '/') == "recordings" + "/" + file;
    assert Join(names, '/') == root + "/" + ("recordings" + "/" + file);
  }

  lemma RecordingsSegment(root: string, testName: string)
    ensures root + "/" + ("recordings" + "/" + (testName + ".json")) == root + "/recordings/" + testName + ".json"
  {
  }
}
