/**
 * src/main/resources/app.js: the sidecar inside the container. A POST to
 * `/launch` starts a browser server of the requested engine on the
 * requested port under a random 20-character WebSocket path and answers
 * with that path; every other URL is answered with 404. Playwright's
 * `launchServer`, `Math.random` and the HTTP server are foreign: their
 * results are parameters.
 */
module Sidecar {
  import opened Common
  import opened LaunchProtocol

  /** The `i`-th character of `characters`: `A` to `Z`, then `a` to `z`, then `0` to `9`. */
  function AlphabetChar(i: nat): (c: char)
    requires i < 62
    ensures Alphanumeric(c)
  {
    var code: int := if i < 26 then 65 + i else if i < 52 then 97 + (i - 26) else 48 + (i - 52);
    code as char
  }

  /** The first `n` characters of the alphabet. */
  function AlphabetPrefix(n: nat): (s: string)
    requires n <= 62
    ensures |s| == n && forall i | 0 <= i < n :: s[i] == AlphabetChar(i)
  {
    if n == 0 then [] else AlphabetPrefix(n - 1) + [AlphabetChar(n - 1)]
  }

  /** `characters`: the alphabet of generated paths. */
  const Characters: string := AlphabetPrefix(62)

  /** An ASCII letter or digit. */
  predicate Alphanumeric(c: char)
  {
    'A' <= c <= 'Z' || 'a' <= c <= 'z' || '0' <= c <= '9'
  }

  /** The alphabet is exactly the 62 ASCII letters and digits, each once. */
  lemma CharactersAreAlphanumerics(c: char)
    ensures c in Characters <==> Alphanumeric(c)
    ensures forall i, j | 0 <= i < j < |Characters| :: Characters[i] != Characters[j]
  {
    if Alphanumeric(c) {
      var i := if 'A' <= c <= 'Z' then c as int - 'A' as int
               else if 'a' <= c <= 'z' then c as int - 'a' as int + 26
               else c as int - '0' as int + 52;
      assert Characters[i] == c;
    }
  }

  /** The length of a generated WebSocket path. */
  const WsPathLength: nat := 20

  /** A value `Math.random()` can return. */
  predicate RandomValue(r: real)
  {
    0.0 <= r < 1.0
  }

  /** `Math.floor(r * characters.length)`: the position a random value picks. */
  function DrawnIndex(r: real): (index: int)
    requires RandomValue(r)
    ensures 0 <= index < 62
  {
    (r * 62.0).Floor
  }

  /** `characters.charAt(Math.floor(r * characters.length))`, by the alphabet's formula. */
  function CharFor(r: real): (c: char)
    requires RandomValue(r)
    ensures Alphanumeric(c)
  {
    AlphabetChar(DrawnIndex(r))
  }

  /** A drawn character is the alphabet's character at the drawn position. */
  lemma CharForIsCharAt(r: real)
    requires RandomValue(r)
    ensures DrawnIndex(r) < |Characters| && CharFor(r) == Characters[DrawnIndex(r)]
  {
  }

  /** Every character of the alphabet is drawn for some value of `Math.random()`. */
  lemma EveryCharacterCanBeDrawn(k: nat)
    requires k < |Characters|
    ensures RandomValue(k as real / 62.0) && CharFor(k as real / 62.0) == Characters[k]
  {
    assert (k as real / 62.0) * 62.0 == k as real;
    CharForIsCharAt(k as real / 62.0);
  }

  /**
   * `generateRandomString(length)`, with the values `Math.random()` returns in
   * order: one character per position, none for a length that is not positive.
   */
  method GenerateRandomString(length: int, draws: seq<real>) returns (result: string)
    requires |draws| >= length
    requires forall i | 0 <= i < |draws| :: RandomValue(draws[i])
    ensures |result| == if length > 0 then length else 0
    ensures forall i | 0 <= i < |result| :: result[i] == CharFor(draws[i])
    ensures forall i | 0 <= i < |result| :: Alphanumeric(result[i])
  {
    result := "";
    var i := 0;
    while i < length
      invariant 0 <= i <= (if length > 0 then length else 0)
      invariant |result| == i
      invariant forall k | 0 <= k < i :: result[k] == CharFor(draws[k])
    {
      result := result + [CharFor(draws[i])];
      i := i + 1;
    }
  }

  /** The browser dispatch of `launchBrowserServer`: the engine named by the request, or "Unknown browser". */
  function EngineOf(browser: string): (r: Result<Engine, string>)
    ensures r.Success? ==> EngineName(r.value) == browser
    ensures r.Failure? ==> r.error == "Unknown browser: " + browser
  {
    if browser == "CHROMIUM" then Success(Chromium)
    else if browser == "FIREFOX" then Success(Firefox)
    else if browser == "WEBKIT" then Success(Webkit)
    else Failure("Unknown browser: " + browser)
  }

  /** The name the client sends for an engine selects that engine. */
  lemma EngineOfEngineName(e: Engine)
    ensures EngineOf(EngineName(e)) == Success(e)
  {
  }

  /** A browser server kept in `browsers`. */
  datatype BrowserServer = BrowserServer(engine: Engine, port: int, wsPath: string)

  /** Why `launchBrowserServer` threw. */
  datatype LaunchFailure = UnknownBrowser(message: string) | LaunchServerFailed

  /** The status and body the request handler writes. */
  datatype Response = Response(status: int, body: string)

  /** The sidecar's module-level state. */
  class Sidecar {
    /** `browsers`: every browser server launched, kept from garbage collection. */
    var browsers: seq<BrowserServer>

    /** Every kept server listens under a generated path. */
    ghost predicate Valid()
      reads this
    {
      forall i | 0 <= i < |browsers| ::
        |browsers[i].wsPath| == WsPathLength && forall k | 0 <= k < WsPathLength :: Alphanumeric(browsers[i].wsPath[k])
    }

    constructor ()
      ensures Valid() && browsers == []
    {
      browsers := [];
    }

    /**
     * `launchBrowserServer`: a fresh 20-character path is generated first;
     * then the request's engine is launched on the request's port under that
     * path, the server is kept and the path returned. An unknown engine name
     * or a failing launch throws and keeps nothing.
     */
    method LaunchBrowserServer(request: LaunchRequest, draws: seq<real>, launchFails: bool)
      returns (r: Result<string, LaunchFailure>)
      requires Valid()
      requires |draws| >= WsPathLength && forall i | 0 <= i < |draws| :: RandomValue(draws[i])
      modifies this
      ensures Valid()
      ensures r.Success? <==> EngineOf(request.browser).Success? && !launchFails
      ensures EngineOf(request.browser).Failure? ==> r == Failure(UnknownBrowser(EngineOf(request.browser).error))
      ensures r.Failure? ==> browsers == old(browsers)
      ensures r.Success? ==>
                && |r.value| == WsPathLength
                && (forall i | 0 <= i < WsPathLength :: r.value[i] == CharFor(draws[i]))
                && browsers == old(browsers) + [BrowserServer(EngineOf(request.browser).value, request.port, r.value)]
    {
      var wsPath := GenerateRandomString(WsPathLength, draws);
      var engine := EngineOf(request.browser);
      if engine.Failure? {
        return Failure(UnknownBrowser(engine.error));
      }
      if launchFails {
        return Failure(LaunchServerFailed);
      }
      browsers := browsers + [BrowserServer(engine.value, request.port, wsPath)];
      r := Success(wsPath);
    }

    /**
     * The request handler: `/launch` answers 200 with `{"wsPath":…}` when the
     * launch succeeds and 500 with an empty body when it throws; any other
     * URL answers 404 with an empty body and launches nothing.
     */
    method HandleRequest(url: string, request: LaunchRequest, draws: seq<real>, launchFails: bool)
      returns (response: Response)
      requires Valid()
      requires |draws| >= WsPathLength && forall i | 0 <= i < |draws| :: RandomValue(draws[i])
      modifies this
      ensures Valid()
      ensures url != "/launch" ==> response == Response(404, "") && browsers == old(browsers)
      ensures url == "/launch" ==>
                && response.status in {200, 500}
                && (response.status == 200 <==> EngineOf(request.browser).Success? && !launchFails)
                && (response.status == 500 ==> response.body == "" && browsers == old(browsers))
      ensures response.status == 200 ==>
                && |browsers| == |old(browsers)| + 1
                && var wsPath := browsers[|browsers| - 1].wsPath;
                   && browsers == old(browsers) + [BrowserServer(EngineOf(request.browser).value, request.port, wsPath)]
                   && |wsPath| == WsPathLength
                   && (forall i | 0 <= i < WsPathLength :: wsPath[i] == CharFor(draws[i]))
                   && Unescaped(wsPath) && response.body == EncodeLaunchResponse(wsPath)
    {
      if url != "/launch" {
        return Response(404, "");
      }
      var launched := LaunchBrowserServer(request, draws, launchFails);
      if launched.Failure? {
        return Response(500, "");
      }
      response := Response(200, EncodeLaunchResponse(launched.value));
    }
  }
}
