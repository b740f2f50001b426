/**
 * The wire format between the container client (PlaywrightContainer.kt) and
 * the sidecar (src/main/resources/app.js): the fixed container ports, the
 * JSON body `{"wsPath":"…"}` of a successful `/launch` response, and the
 * `ws://host:port/path` endpoint the client builds from it.
 */
module LaunchProtocol {
  import opened Common
  import opened Strings

  /** `apiPort`: the sidecar's HTTP port inside the container. */
  const ApiPort: nat := 3000

  /** The port inside the container on which each engine's browser server listens. */
  function EnginePort(e: Engine): (port: nat)
    ensures 4444 <= port <= 4446 && port != ApiPort
  {
    match e
    case Chromium => 4444
    case Firefox => 4445
    case Webkit => 4446
  }

  /** Each engine has its own port. */
  lemma EnginePortsDistinct(e1: Engine, e2: Engine)
    ensures EnginePort(e1) == EnginePort(e2) <==> e1 == e2
  {
  }

  /** A launch request: `ContainerApi.LaunchRequest(browser, port)`. */
  datatype LaunchRequest = LaunchRequest(browser: string, port: int)

  /** The request `ContainerBrowserAccess` sends for its engine. */
  function RequestFor(e: Engine): LaunchRequest
  {
    LaunchRequest(EngineName(e), EnginePort(e))
  }

  const WsPathPrefix: string := "{\"wsPath\":\""
  const WsPathSuffix: string := "\"}"

  /**
   * A path that `JSON.stringify` writes between quotes as it is: no quote, no
   * backslash and no control character below U+0020.
   */
  predicate Unescaped(path: string)
  {
    '"' !in path && '\\' !in path && forall c | c in path :: ' ' <= c
  }

  /** `JSON.stringify({wsPath: wsPath})` for a path that needs no escaping. */
  function EncodeLaunchResponse(wsPath: string): string
    requires Unescaped(wsPath)
  {
    WsPathPrefix + wsPath + WsPathSuffix
  }

  /**
   * `json.decodeFromString(LaunchResponse.serializer(), body)` for the compact
   * one-key form the sidecar writes; anything else fails to decode.
   */
  function DecodeLaunchResponse(body: string): (wsPath: Option<string>)
    ensures wsPath.Some? ==> Unescaped(wsPath.value) && EncodeLaunchResponse(wsPath.value) == body
  {
    if |body| >= |WsPathPrefix| + |WsPathSuffix|
       && body[..|WsPathPrefix|] == WsPathPrefix
       && body[|body| - |WsPathSuffix|..] == WsPathSuffix
    then
      var path := body[|WsPathPrefix|..|body| - |WsPathSuffix|];
      if Unescaped(path) then
        assert WsPathPrefix + path + WsPathSuffix == body by {
          assert body == body[..|WsPathPrefix|] + body[|WsPathPrefix|..|body| - |WsPathSuffix|] + body[|body| - |WsPathSuffix|..];
        }
        Some(path)
      else None
    else None
  }

  /** Decoding what the sidecar encodes gives back the path. */
  lemma DecodeEncode(wsPath: string)
    requires Unescaped(wsPath)
    ensures DecodeLaunchResponse(EncodeLaunchResponse(wsPath)) == Some(wsPath)
  {
    var body := EncodeLaunchResponse(wsPath);
    assert body[..|WsPathPrefix|] == WsPathPrefix;
    assert body[|body| - |WsPathSuffix|..] == WsPathSuffix;
    assert body[|WsPathPrefix|..|body| - |WsPathSuffix|] == wsPath;
  }

  /** The parts of a WebSocket endpoint. */
  datatype Endpoint = Endpoint(host: string, port: nat, wsPath: string)

  /** `"ws://$host:${port}/$wsPath"`. */
  function FormatEndpoint(host: string, port: nat, wsPath: string): string
  {
    "ws://" + host + ":" + NatToString(port) + "/" + wsPath
  }

  /** The position of the first `c` in `s`, if any. */
  function IndexOf(s: string, c: char): (r: Option<nat>)
    ensures r.None? <==> c !in s
    ensures r.Some? ==> r.value < |s| && s[r.value] == c && c !in s[..r.value]
  {
    if s == [] then None
    else if s[0] == c then Some(0)
    else
      match IndexOf(s[1..], c)
      case None => None
      case Some(k) =>
        assert s[..k + 1] == [s[0]] + s[1..][..k];
        Some(k + 1)
  }

  /** Reads host, port and path back out of an endpoint string. */
  function ParseEndpoint(s: string): Option<Endpoint>
  {
    if |s| < 5 || s[..5] != "ws://" then None
    else
      var rest := s[5..];
      match IndexOf(rest, ':')
      case None => None
      case Some(i) =>
        var after := rest[i + 1..];
        match IndexOf(after, '/')
        case None => None
        case Some(j) =>
          var digits := after[..j];
          if j == 0 || !AllDigits(digits) then None
          else Some(Endpoint(rest[..i], DigitsValue(digits), after[j + 1..]))
  }

  /**
   * The endpoint string determines the host, the mapped port and the path it
   * was built from, whenever the host has no colon.
   */
  lemma ParseFormatEndpoint(host: string, port: nat, wsPath: string)
    requires ':' !in host
    ensures ParseEndpoint(FormatEndpoint(host, port, wsPath)) == Some(Endpoint(host, port, wsPath))
  {
    NatToStringRoundTrip(port);
    ParseParts(host, NatToString(port), wsPath);
  }

  /** Parsing an endpoint string built from a host without colons and a non-empty run of digits. */
  lemma ParseParts(host: string, digits: string, wsPath: string)
    requires ':' !in host && digits != [] && AllDigits(digits)
    ensures ParseEndpoint("ws://" + host + ":" + digits + "/" + wsPath) == Some(Endpoint(host, DigitsValue(digits), wsPath))
  {
    var s := "ws://" + host + ":" + digits + "/" + wsPath;
    var after := digits + "/" + wsPath;
    var rest := host + ":" + after;
    assert s[..5] == "ws://" && s[5..] == rest;
    FirstAfter(host, ':', after);
    assert rest == host + [':'] + after;
    assert rest[|host| + 1..] == after;
    SplitAtSlash(digits, wsPath);
  }

  /** The port part `digits + "/" + wsPath` splits at its first slash into the digits and the path. */
  lemma SplitAtSlash(digits: string, wsPath: string)
    requires AllDigits(digits)
    ensures var after := digits + "/" + wsPath;
      && IndexOf(after, '/') == Some(|digits|)
      && after[..|digits|] == digits && after[|digits| + 1..] == wsPath
  {
    var after := digits + "/" + wsPath;
    assert '/' !in digits;
    FirstAfter(digits, '/', wsPath);
    assert after == digits + ['/'] + wsPath;
  }

  /** The first `c` in `a + [c] + b` is the one right after `a` when `a` has none. */
  lemma FirstAfter(a: string, c: char, b: string)
    requires c !in a
    ensures IndexOf(a + [c] + b, c) == Some(|a|)
    ensures (a + [c] + b)[..|a|] == a
  {
    var s := a + [c] + b;
    assert s[|a|] == c;
    assert forall k | 0 <= k < |a| :: s[k] == a[k];
  }
}
