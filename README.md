# Record/playback test-proxy interception, modelled in Dafny

This project models the client side of a record/playback test proxy. The code being modelled
sits in the HTTP call path of a service client. For every outbound request it does three things.
It points the request at a local proxy. It tags the request with the session's recording id, the
mode and the real endpoint's base URI. In one variant it also repairs the response, so that the
caller still sees the real endpoint. Session calls start a recording, which yields the recording
id, and stop it. A small `.env` loader feeds the configuration.

There are two integrations in the source, and they are modelled side by side without reconciling them:

- **Pipeline policy** (`testproxy.go`): module `TestProxyPolicy`.
  - `TestProxy.Do` rewrites scheme, URL host and `Host` field to `https://Host:Port` and sets the three headers.
  - It hands the request on, then restores the original scheme and host on the response's request URL.
  - Start fails when no recording id comes back.
  - Stop fails on any status other than 200, and sends no save directive.
- **Transport wrapper** (`testproxytransport.go`): module `TestProxyTransportVariant`.
  - `TestProxyTransport.Do` sets the same headers and rewrites only the URL host.
  - The scheme and the `Host` field are left alone, and the response is returned untouched.
  - Start stores whatever recording id header came back, even an empty one.
  - Stop sends `x-recording-save: true` and returns only the transport error.
- **`.env` loading** (`parse.go`): module `EnvLoad`.
  - The content is split into lines.
  - A line that splits on spaces into exactly two parts becomes an entry; one trailing carriage return is dropped from the value.
  - The entries are applied in order to an environment map.

Supporting modules:

- `GoStrings`, `GoFmt` and `GoPath` model the Go library functions the code relies on: `strings.Split`/`TrimSuffix`, `%d`/`%v` for integers, and `path.Join`/`Clean`.
  - `GoStrings.Join` is not called by the code. It is the inverse that pins down what `Split` returns, and it serves the `path.Join` model.
- `Http` models URLs, header maps, requests that are rewritten in place, responses with a back-reference to their request, and send outcomes.
- `ProxyProtocol` holds the header names, the `host:port` and `scheme://host` formats and the recording file path.
- `Variants` states how the two integrations agree and where they differ.
- `Scenarios` walks a record session through the policy integration.

The network is never called. What the next policy, the inner transport or `http.Client.Do`
returned is an input of the method that would have sent the request. The request handed to that
send is returned as a value (`forwarded`, `call`), so its contents can be stated.

In three places the model follows the code where a reader might expect otherwise:

- The policy integration always uses `https`, whatever the port.
- The policy integration's stop call sends no save directive.
- The stop call of `testproxy.go` reads the status code before it looks at the transport error. When the client returns no response, that is a nil dereference. It is modelled as the outcome `NilResponsePanic`, not as a returned error.

`testproxy.go` and `testproxytransport.go` declare `client`, `GetCurrentDirectory`,
`getRecordingFilePath`, `StartTestProxy` and `StopTestProxy` in the same Go package. They are
therefore alternatives, and here they are two separate modules. The two `getRecordingFilePath` functions have
the same body, with the arguments in opposite order. They are modelled once, as `ProxyProtocol.RecordingFilePath`.

`os.Setenv` is modelled with the checks Go applies on Unix-like systems. An empty key, a key holding `=` or NUL, or a
value holding NUL is refused. `Load` ignores that error, so such an entry changes nothing.

## Model

| member | source | states |
|---|---|---|
| GoStrings.Split | parse.go:17-18 | `strings.Split` on one character: at least one piece, and no piece contains the separator |
| GoStrings.JoinSplit | parse.go:17-18 | joining the pieces of a split with the separator gives the original string back |
| GoStrings.SplitJoin | parse.go:18-19 | splitting a join of separator-free pieces gives exactly those pieces, so a split is the unique such decomposition |
| GoStrings.SplitConcat | parse.go:17-18 | splitting `x + sep + y` is splitting `x` and `y` separately and putting the pieces together |
| GoStrings.SplitCount | parse.go:19 | a split has one more piece than there are separators |
| GoStrings.TrimSuffix | parse.go:23 | removes the suffix exactly once when the string ends with it, otherwise returns the string unchanged |
| GoFmt.NatToDecimal | testproxy.go:55-57 | the `%d` numeral of a natural number is all digits and has a leading zero only for 0 |
| GoFmt.FormatInt | testproxy.go:55-57 | `%d` of an integer is a numeral with a minus sign exactly for negatives, and holds no `:` or `/` |
| GoFmt.DecimalRoundTrip | testproxy.go:55-57 | reading the decimal numeral of `n` back gives `n` |
| GoFmt.FormatIntRoundTrip | testproxy.go:55-57 | reading back the `%d` form of any integer gives that integer |
| GoFmt.FormatIntInjective | testproxy.go:55-57 | distinct ports print differently |
| GoPath.CleanNormalElements | testproxy.go:111-113 | `path.Clean`'s element pass keeps normal elements in order and drops nothing else from them |
| GoPath.CleanAbsoluteIsClean | testproxy.go:111-113 | a rooted path made only of normal, slash-free elements is left unchanged by `path.Clean` |
| GoPath.Clean | testproxy.go:112 | `path.Clean` never returns the empty string, and a rooted path stays rooted |
| GoPath.JoinPath | testproxy.go:112 | `path.Join` returns the empty string exactly when every element is empty |
| GoStrings.JoinAppend | testproxy.go:111-113 | joining two non-empty lists of elements puts exactly one separator between the two joins |
| ProxyProtocol.HostPort | testproxy.go:55-57 | the proxy address, written the same way by `host()` and by testproxytransport.go:68: the host, one colon, then the decimal port with no colon in it |
| ProxyProtocol.HostPortReadsBack | testproxy.go:55-57 | the number after the host and colon reads back as the port |
| ProxyProtocol.HostPortInjective | testproxy.go:55-57 | the proxy address `Host:Port` determines both the host and the port, even when the host holds colons |
| ProxyProtocol.UpstreamBaseUriInjective | testproxy.go:79 | the upstream header `scheme://host` determines the scheme and the host it was built from |
| ProxyProtocol.RecordingFilePath | testproxy.go:111-113 | `getRecordingFilePath` (also testproxytransport.go:104-106, with the arguments swapped): the cleaned form of `<root>/recordings/<name>.json`, or of `recordings/<name>.json` for an empty root; never empty |
| ProxyProtocol.RecordingFilePathUnderRoot | testproxy.go:111-113 | under a clean absolute root, a test whose name has no `/` records to `<root>/recordings/<name>.json` literally |
| TestProxyPolicy.Rewrite | testproxy.go:72-81 | the forwarded request has scheme `https`, URL host and `Host` field equal to `Host:Port`, and the same path; the upstream header is the original `scheme://host`; the mode and id headers hold the session's values; every other header is untouched and no other header is added |
| TestProxyPolicy.RewriteKeepsOrigin | testproxy.go:72-81 | requests aimed at different real endpoints stay distinguishable after the rewrite, through the upstream header |
| TestProxyPolicy.TestProxy.constructor | testproxy.go:47-53 | a session holds the host, port, mode and recording root it was given, and no recording id |
| TestProxyPolicy.TestProxy.HostPort | testproxy.go:55-57 | `host()` is the shared proxy address form of the session's host and port |
| TestProxyPolicy.TestProxy.Scheme | testproxy.go:59-61 | `scheme()` is `https` whatever the port, and the base URL is that scheme, `://` and `host()` |
| TestProxyPolicy.TestProxy.BaseUrl | testproxy.go:63-65 | `baseURL()` is the proxy scheme, `://` and `host()` |
| TestProxyPolicy.TestProxy.StartRequest | testproxy.go:123-137 | start posts to `https://Host:Port/Mode/start` with a JSON content type and the body `{x-recording-file: <root>/recordings/<name>.json}` |
| TestProxyPolicy.TestProxy.StopRequest | testproxy.go:183-189 | stop posts to `https://Host:Port/Mode/stop` with only the recording id header, with no save directive and no body |
| TestProxyPolicy.TestProxy.Do | testproxy.go:71-90 | the request handed on is `Rewrite` of the original; the next policy's response and error are returned unchanged; when there is a response, its request URL gets the original scheme and host back and keeps its path; when that request is the one sent, its URL is exactly as before the call; without a response nothing is restored |
| TestProxyPolicy.StartOutcome | testproxy.go:139-169 | a transport error is returned and stores nothing; an empty id header stores nothing and is an error carrying the body, or the error reading it, whatever the body says; a non-empty id is stored, and the call is then the error reading the body, the parse error of a non-empty body, or success; success implies a non-empty stored id |
| TestProxyPolicy.StartSucceedsIff | testproxy.go:139-169 | a start succeeds exactly when there is no transport error, the id header is non-empty, the body can be read, and the body is empty or parses |
| TestProxyPolicy.StartTestProxy | testproxy.go:118-170 | a nil session is an error and nothing is sent; otherwise `StartRequest` is posted, the error is `StartOutcome`'s, the recording id changes only to the returned non-empty id, and host, port, mode and root are unchanged |
| TestProxyPolicy.StopOutcomeOf | testproxy.go:191-201 | no error exactly when the response has status 200 and no transport error; status 200 returns the client's error as it is; any other status is an error carrying the body text or the read error's text; a missing response is a nil dereference |
| TestProxyPolicy.StopTestProxy | testproxy.go:178-202 | a nil session is an error and nothing is sent; otherwise `StopRequest` is posted and the call ends as `StopOutcomeOf` says |
| TestProxyTransportVariant.Rewrite | testproxytransport.go:60-68 | the forwarded request keeps its scheme, path and `Host` field; only the URL host becomes `host:port`; the three headers are set as in the policy integration and all others kept |
| TestProxyTransportVariant.TestProxyTransport.New | testproxytransport.go:48-56 | the transport keeps the inner transport, host, port, recording id and mode exactly as passed, the id coming before the mode |
| TestProxyTransportVariant.TestProxyTransport.Do | testproxytransport.go:58-71 | the request is rewritten in place to `Rewrite` of its old state; the inner transport's response and error are returned unchanged, with no restoration |
| TestProxyTransportVariant.TestProxyVariables.New | testproxytransport.go:89-94 | only the recording file is set, to the test's file under the current directory; host, port, mode and recording id are zero values |
| TestProxyTransportVariant.TestProxyVariables.StartRequest | testproxytransport.go:113-125 | start posts to `https://Host:Port/Mode/start` with a JSON content type and the body `{x-recording-file: CurrentRecordingPath}` |
| TestProxyTransportVariant.TestProxyVariables.StopRequest | testproxytransport.go:145-152 | stop posts to `https://Host:Port/Mode/stop` with exactly the recording id header and `x-recording-save: true` |
| TestProxyTransportVariant.StartOutcome | testproxytransport.go:127-134 | the error is exactly the transport error; without one the id header is stored even when empty, and with one nothing is stored |
| TestProxyTransportVariant.StartTestProxy | testproxytransport.go:111-135 | `StartRequest` is posted, the recording id changes as `StartOutcome` says, and the rest of the session is unchanged |
| TestProxyTransportVariant.StopTestProxy | testproxytransport.go:143-157 | `StopRequest` is posted and only the client's error is returned; the status code plays no part |
| EnvLoad.Setenv | parse.go:23 | an accepted pair sets exactly that variable, a refused pair leaves the environment as it was, and no other variable changes |
| EnvLoad.ParseLine | parse.go:18-23 | the entry of one line; an entry's key never holds a space |
| EnvLoad.ParseLineAccepts | parse.go:18-21 | a line contributes an entry exactly when it contains one space; no space or several spaces skip it |
| EnvLoad.ParseLineShape | parse.go:18-23 | an accepted line is key, space, value, optionally followed by one carriage return; the key is verbatim and neither part holds a space |
| EnvLoad.ParseLineOf | parse.go:18-23 | a space-free key and raw value joined by one space give that key and the raw value minus one trailing carriage return |
| EnvLoad.Load | parse.go:12-27 | a failed read returns the read error and sets nothing; otherwise there is no error, and the result is the environment with the file's entries applied in line order |
| EnvLoad.EntriesAppend | parse.go:17 | each line contributes its entry independently of the other lines |
| EnvLoad.ApplyAllAppend | parse.go:17-24 | applying two batches of entries is applying the first and then the second |
| EnvLoad.ApplyAllUnmentioned | parse.go:23 | a variable that no accepted entry names keeps its value, or stays unset |
| EnvLoad.ApplyAllLastWins | parse.go:17-24 | the last accepted entry for a key decides its value |
| EnvLoad.LoadLastLineWins | parse.go:17-24 | after loading, a variable holds the value of the last accepted line that sets it, whatever earlier lines said |
| Variants.SameInjectedHeaders | testproxytransport.go:60-66 | both integrations leave the same header map, though they set the three headers in different orders |
| Variants.RewritesAgreeIff | testproxy.go:74-76 | the two rewrites agree exactly when the request already uses `https` and its `Host` field already names the proxy |
| Variants.SameControlUrls | testproxytransport.go:113 | with the same host, port and mode, both integrations post start and stop to the same URLs |
| Variants.SaveDirectiveOnlyInTransport | testproxytransport.go:151-152 | only the transport integration sends the save directive on stop |
| Variants.MissingIdDivergence | testproxytransport.go:132 | a start answered without an id fails and stores nothing in the policy integration, and succeeds storing "" in the transport integration |
| Scenarios.SessionStartRequest | cosmostables_test.go:37-48 | a session set up as the test prologue sets it up posts to `https://localhost:5001/record/start` and names `/work/recordings/TestCosmosDBTables.json` |
| Scenarios.StartSession | cosmostables_test.go:37-50 | a start answered with id `abc123` returns no error, and the session then holds that id with its address and mode unchanged |
| Scenarios.InterceptGet | testproxy.go:71-90 | a GET of `https://service.example.com/foo` during the session goes to `https://<host()>/foo` carrying exactly the upstream `https://service.example.com`, mode `record` and id `abc123` headers; the response's request shows the real endpoint again |
| Scenarios.StopWithServerError | cosmostables_test.go:52-57 | the deferred stop sends the session's id, and a 500 answer with body `boom` makes it return the stop-failure error carrying `boom` |

## Left out

- The real `http.Client`, its TLS configuration that skips certificate checks, `req.Next()` and the inner transport's `Do` are not modelled. Their results are inputs.
- `GetClientOption` is not modelled. It only wires the policy into SDK options and has no logic.
- The application traffic of `cosmostables_test.go` is not modelled. `Scenarios` follows only its prologue (start, then stop) and one stand-in request intercepted in between.
- JSON encoding is not modelled. The start body is an abstract one-key map, and `json.Marshal` of a string map cannot fail. `json.Unmarshal` of the start response body is represented only by its error, given as the `unmarshal` parameter. The decoded variables are discarded by the source.
- `io.ReadAll` and `Close` are not modelled. A response body is either its text or the error reading it.
- TestProxyPolicy.StartTestProxy: a failure of `http.NewRequest` is not told apart from a transport error. Both are the client outcome's error, returned before the session changes, and `call` still shows the request that would have been sent.
- TestProxyPolicy.StopTestProxy: a failure of `http.NewRequest` is likewise merged into the client outcome.
- TestProxyTransportVariant.StartTestProxy: a failure of `http.NewRequest` (testproxytransport.go:114-117) is likewise merged into the client outcome. `call` still shows the request that would have been sent.
- TestProxyTransportVariant.StopTestProxy: a failure of `http.NewRequest` (testproxytransport.go:146-149) is likewise merged into the client outcome. `call` still shows the request that would have been sent.
- TestProxyTransportVariant.StartTestProxy: the session is non-null. In the source a nil session panics, and the model does not represent that panic.
- TestProxyTransportVariant.StopTestProxy: the session is non-null, for the same reason.
- TestProxyPolicy.TestProxy.Do: the response's `Request` is non-null. The source would panic on a nil one.
- Header names are not canonicalised as `Header.Set` does. Headers are single-valued maps keyed by the lower-case names the code uses.
- A URL is a value held by its request. Two requests sharing one `url.URL` object are not modelled; requests themselves can alias, and `Do` covers that case.
- `GetCurrentDirectory` (`filepath.Abs`), `os.ReadFile` and the process environment are not modelled. They become a directory string, a read result and a map. `t.Name()` is a string parameter.
- `Setenv` follows the Unix-like rules only. Other operating systems apply other checks.
- `TestProxyVariables.HttpClient` is not modelled. It always holds the shared client, and sends are inputs.
- Ports are unbounded integers. Go's `int` is 32 or 64 bits wide depending on the platform. Every port fits either way, so the printed forms agree.
- Strings are sequences of characters rather than bytes. Every separator used is ASCII, so splitting gives the same pieces.
- ProxyProtocol.RecordingFilePathUnderRoot: the literal-path form is proved only for a clean absolute root and a test name without `/`. Other roots and subtest names are covered by the `path.Join` model itself, not by a closed form.
