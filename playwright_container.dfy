/**
 * PlaywrightContainer.kt: the Testcontainers container that runs the
 * sidecar. Covers the image tag derived from the Playwright version on the
 * classpath, `configure`, the single-launch endpoint cache of
 * `ContainerBrowserAccess`, the lazily connected browsers of
 * `PlaywrightContainerApiImp`, `registerNewPlaywright` and `close`.
 * Docker, HTTP and Playwright calls are foreign: their outcomes are
 * parameters of the methods that make them.
 */
module PlaywrightContainer {
  import opened Common
  import opened Strings
  import opened LaunchProtocol

  /** The image repository of the sidecar. */
  const ImageRepository: string := "ghcr.io/orange-buffalo/testcontainers-playwright"

  /** The image named in the constructor's call to the `GenericContainer` constructor. */
  const DefaultImage: string := ImageRepository + ":1.31"

  /** The log line the container waits for before it counts as started. */
  const ReadyLogPattern: string := "Server running at .*"

  /**
   * `playwrightVersionCompatibleTag`: the first two dot-separated parts of the
   * version, or the whole version when it has no dot.
   */
  function CompatibleTag(version: string): (tag: string)
    ensures Count(version, '.') == 0 ==> tag == version
  {
    var parts := Split(version, '.');
    if |parts| >= 2 then parts[0] + "." + parts[1] else version
  }

  /**
   * The tag is the version cut just before its second dot: a prefix of the
   * version with exactly one dot when the version has one (none otherwise),
   * followed in the version by a dot or by nothing.
   */
  lemma CompatibleTagIsMajorMinor(version: string)
    ensures CompatibleTag(version) <= version
    ensures Count(CompatibleTag(version), '.') == if Count(version, '.') >= 1 then 1 else 0
    ensures CompatibleTag(version) != version ==> version[|CompatibleTag(version)|] == '.'
  {
    var parts := Split(version, '.');
    var tag := CompatibleTag(version);
    if |parts| >= 2 {
      var rest := Join(parts[1..], '.');
      assert version == parts[0] + ['.'] + rest;
      JoinStartsWithHead(parts[1..], '.');
      assert tag == parts[0] + ['.'] + parts[1];
      assert tag <= version by {
        assert parts[1] <= rest;
      }
      CountConcat(parts[0] + ['.'], parts[1], '.');
      CountConcat(parts[0], ['.'], '.');
      CountZero(parts[0], '.');
      CountZero(parts[1], '.');
      if tag != version {
        assert |parts[1..]| >= 2;
        assert rest == parts[1] + ['.'] + Join(parts[2..], '.') by {
          assert parts[1..][1..] == parts[2..];
        }
        assert version[|tag|] == rest[|parts[1]|];
      }
    }
  }

  /** The first part of a joined sequence starts the joined string. */
  lemma JoinStartsWithHead(parts: seq<string>, sep: char)
    requires |parts| >= 1
    ensures parts[0] <= Join(parts, sep)
    ensures |parts| >= 2 ==> Join(parts, sep)[..|parts[0]| + 1] == parts[0] + [sep]
  {
  }

  /** The `IllegalArgumentException` of `configure`. */
  datatype ConfigureError = NoVersionAndNoImage

  /** A classpath resource copied into the container. */
  datatype FileCopy = FileCopy(resource: string, containerPath: string)

  /** The calls into Docker and Playwright that the container makes, in order. */
  datatype ContainerEvent = PlaywrightCloseCalled(playwright: nat) | ContainerStopped

  /**
   * The image `configure` leaves in place, as written: the classpath-derived
   * image when there is no custom image, and otherwise the image passed to the
   * `GenericContainer` constructor, since `customImage` is never handed to it.
   */
  function ConfiguredImageAsWritten(image: string, customImage: Option<string>, version: Option<string>): (r: string)
    requires customImage.Some? || version.Some?
    ensures customImage.Some? ==> r == image
    ensures customImage.None? ==> r == ConfiguredImage(customImage, version)
  {
    if customImage.None? then ImageRepository + ":" + CompatibleTag(version.value) else image
  }

  /** A custom image is ignored as written: the container keeps running the default image. */
  lemma CustomImageIgnoredAsWritten()
    ensures ConfiguredImageAsWritten(DefaultImage, Some("example.org/playwright:custom"), None) == DefaultImage
    ensures DefaultImage != "example.org/playwright:custom"
  {
    assert |DefaultImage| == |ImageRepository| + 5;
  }

  /**
   * The image `configure` is evidently meant to select: the custom image when
   * one is given, else the repository's image tagged with the compatible tag.
   */
  function ConfiguredImage(customImage: Option<string>, version: Option<string>): (image: string)
    requires customImage.Some? || version.Some?
    ensures customImage.Some? ==> image == customImage.value
    ensures customImage.None? ==>
              && |image| > |ImageRepository|
              && image[..|ImageRepository| + 1] == ImageRepository + ":"
              && image[|ImageRepository| + 1..] == CompatibleTag(version.value)
  {
    if customImage.Some? then customImage.value else ImageRepository + ":" + CompatibleTag(version.value)
  }

  /** The two agree whenever no custom image is given. */
  lemma ConfiguredImageAgreesWithoutCustomImage(image: string, version: string)
    ensures ConfiguredImageAsWritten(image, None, Some(version)) == ConfiguredImage(None, Some(version))
  {
  }

  /** A browser connected through a Playwright instance to a WebSocket endpoint. */
  datatype Browser = Browser(engine: Engine, wsEndpoint: string, playwright: nat)

  /** Why getting a browser from the container failed. */
  datatype LaunchError =
    | SendFailed
    | LaunchRejected(status: int, body: string)
    | MalformedResponse(body: string)
    | ConnectFailed(wsEndpoint: string)

  /** What the HTTP client got back for the launch request. */
  datatype Exchange = Responded(status: int, body: string) | NoResponse

  /** `"http://$host:${getMappedPort(apiPort)}/launch"`. */
  function LaunchUrl(host: string, mappedApiPort: nat): string
  {
    "http://" + host + ":" + NatToString(mappedApiPort) + "/launch"
  }

  /**
   * `createBrowserAndGetWsEndpoint` after the HTTP exchange: a status other
   * than 200 is an error carrying the status and the body; otherwise the body's
   * `wsPath` is appended to the host and the mapped port of the engine.
   */
  function LaunchEndpoint(host: string, mappedPort: nat, exchange: Exchange): (r: Result<string, LaunchError>)
    ensures r.Success? <==>
              exchange.Responded? && exchange.status == 200 && DecodeLaunchResponse(exchange.body).Some?
    ensures exchange.Responded? && exchange.status != 200 ==>
              r == Failure(LaunchRejected(exchange.status, exchange.body))
    ensures r.Success? && ':' !in host ==>
              ParseEndpoint(r.value) == Some(Endpoint(host, mappedPort, DecodeLaunchResponse(exchange.body).value))
  {
    match exchange
    case NoResponse => Failure(SendFailed)
    case Responded(status, body) =>
      if status != 200 then Failure(LaunchRejected(status, body))
      else
        match DecodeLaunchResponse(body)
        case None => Failure(MalformedResponse(body))
        case Some(wsPath) =>
          assert ':' !in host ==>
                   ParseEndpoint(FormatEndpoint(host, mappedPort, wsPath)) == Some(Endpoint(host, mappedPort, wsPath)) by {
            if ':' !in host {
              ParseFormatEndpoint(host, mappedPort, wsPath);
            }
          }
          Success(FormatEndpoint(host, mappedPort, wsPath))
  }

  /** The sidecar's successful answer, read back by the client, gives the endpoint on the engine's mapped port. */
  lemma SidecarAnswerGivesEndpoint(host: string, mappedPort: nat, wsPath: string)
    requires Unescaped(wsPath)
    ensures LaunchEndpoint(host, mappedPort, Responded(200, EncodeLaunchResponse(wsPath))) ==
            Success(FormatEndpoint(host, mappedPort, wsPath))
  {
    DecodeEncode(wsPath);
  }

  /** One launch request: where it went, what it asked for, and whether an endpoint came back. */
  datatype LaunchAttempt = LaunchAttempt(url: string, request: LaunchRequest, succeeded: bool)

  /** `connect(wsEndpoint)` on the engine's browser type of a Playwright instance. */
  function Connect(e: Engine, playwright: nat, wsEndpoint: string, connectFails: bool): Result<Browser, LaunchError>
  {
    if connectFails then Failure(ConnectFailed(wsEndpoint)) else Success(Browser(e, wsEndpoint, playwright))
  }

  /**
   * `ContainerBrowserAccess`: launches the engine's browser server in the
   * container at most once successfully and caches its endpoint.
   */
  class BrowserAccess {
    const engine: Engine
    const port: nat
    /** The cached endpoint; set only by a launch that succeeded. */
    var wsEndpoint: Option<string>
    /** The launch requests sent so far, in order. */
    var launches: seq<LaunchAttempt>

    /**
     * Every launch before the last one failed, and an endpoint is cached
     * exactly when the last launch succeeded.
     */
    ghost predicate Valid()
      reads this
    {
      && port == EnginePort(engine)
      && (forall i | 0 <= i < |launches| - 1 :: !launches[i].succeeded)
      && (wsEndpoint.Some? <==> |launches| > 0 && launches[|launches| - 1].succeeded)
    }

    constructor (engine: Engine)
      ensures Valid()
      ensures this.engine == engine && wsEndpoint == None && launches == []
    {
      this.engine := engine;
      this.port := EnginePort(engine);
      wsEndpoint := None;
      launches := [];
    }

    /**
     * `safeGetBrowser`, one atomic step under the lock: with an endpoint
     * cached, connect to it and send nothing; otherwise send a launch request
     * first, cache the endpoint only if the launch succeeded, and connect to
     * it. A failed launch leaves nothing cached, so the next call sends a new
     * request; a failed connect keeps the endpoint.
     */
    method SafeGetBrowser(host: string, mappedPort: nat -> nat, exchange: Exchange, playwright: nat, connectFails: bool)
      returns (r: Result<Browser, LaunchError>)
      requires Valid()
      modifies this
      ensures Valid()
      ensures r.Success? ==> r.value.engine == engine && r.value.playwright == playwright
      ensures old(wsEndpoint).Some? ==>
                && wsEndpoint == old(wsEndpoint) && launches == old(launches)
                && r == Connect(engine, playwright, old(wsEndpoint).value, connectFails)
      ensures old(wsEndpoint).None? ==>
                var launched := LaunchEndpoint(host, mappedPort(port), exchange);
                && launches == old(launches) + [LaunchAttempt(LaunchUrl(host, mappedPort(ApiPort)), RequestFor(engine), launched.Success?)]
                && wsEndpoint == (if launched.Success? then Some(launched.value) else None)
                && r == (if launched.Success? then Connect(engine, playwright, launched.value, connectFails)
                         else Failure(launched.error))
    {
      if wsEndpoint.Some? {
        return Connect(engine, playwright, wsEndpoint.value, connectFails);
      }
      assert forall i | 0 <= i < |launches| :: !launches[i].succeeded;
      var launched := LaunchEndpoint(host, mappedPort(port), exchange);
      var attempt := LaunchAttempt(LaunchUrl(host, mappedPort(ApiPort)), RequestFor(engine), launched.Success?);
      launches := launches + [attempt];
      if launched.Failure? {
        return Failure(launched.error);
      }
      wsEndpoint := Some(launched.value);
      r := Connect(engine, playwright, launched.value, connectFails);
    }
  }

  /** The `close()` calls made on the registered Playwright instances, in order. */
  function CloseEvents(instances: seq<nat>): (calls: seq<ContainerEvent>)
    ensures |calls| == |instances|
    ensures forall i | 0 <= i < |instances| :: calls[i] == PlaywrightCloseCalled(instances[i])
  {
    if instances == [] then [] else [PlaywrightCloseCalled(instances[0])] + CloseEvents(instances[1..])
  }

  /** Whether `close()` on a Playwright instance throws past `catch (e: PlaywrightException)`. */
  predicate EscapesClose(outcome: CloseOutcome)
  {
    outcome.Threw? && outcome.thrown != PlaywrightException
  }

  /** The container with the state its methods change. */
  class PlaywrightContainer {
    const customImage: Option<string>
    /** `getPlaywrightVersionOnClasspath()` at construction. */
    const playwrightVersion: Option<string>
    const chromiumAccess: BrowserAccess
    const firefoxAccess: BrowserAccess
    const webkitAccess: BrowserAccess
    var image: string
    var copiedFiles: seq<FileCopy>
    var exposedPorts: seq<nat>
    var waitPattern: Option<string>
    /** `playwrightInstances`: every Playwright created by `registerNewPlaywright`. */
    var playwrightInstances: seq<nat>
    /** How many Playwright instances have been created; the next one gets this number. */
    var playwrightCount: nat
    var log: seq<ContainerEvent>

    /** Three distinct accesses, one per engine, and instance numbers below the count. */
    ghost predicate Valid()
      reads this
    {
      && chromiumAccess.engine == Chromium && firefoxAccess.engine == Firefox && webkitAccess.engine == Webkit
      && chromiumAccess != firefoxAccess && firefoxAccess != webkitAccess && chromiumAccess != webkitAccess
      && forall i | 0 <= i < |playwrightInstances| :: playwrightInstances[i] < playwrightCount
    }

    /** The access of an engine. */
    function AccessFor(e: Engine): (access: BrowserAccess)
      requires Valid()
      reads this
      ensures access.engine == e
    {
      match e
      case Chromium => chromiumAccess
      case Firefox => firefoxAccess
      case Webkit => webkitAccess
    }

    constructor (customImage: Option<string>, playwrightVersion: Option<string>)
      ensures Valid()
      ensures this.customImage == customImage && this.playwrightVersion == playwrightVersion
      ensures image == DefaultImage && copiedFiles == [] && exposedPorts == [] && waitPattern == None
      ensures playwrightInstances == [] && log == []
      ensures fresh(chromiumAccess) && fresh(firefoxAccess) && fresh(webkitAccess)
      ensures chromiumAccess.Valid() && firefoxAccess.Valid() && webkitAccess.Valid()
      ensures chromiumAccess.launches == [] && firefoxAccess.launches == [] && webkitAccess.launches == []
    {
      this.customImage := customImage;
      this.playwrightVersion := playwrightVersion;
      image := DefaultImage;
      copiedFiles, exposedPorts, waitPattern := [], [], None;
      playwrightInstances, playwrightCount, log := [], 0, [];
      chromiumAccess := new BrowserAccess(Chromium);
      firefoxAccess := new BrowserAccess(Firefox);
      webkitAccess := new BrowserAccess(Webkit);
    }

    /**
     * `configure`: throws when there is neither a classpath version nor a custom
     * image; otherwise copies the sidecar script, selects the classpath-derived
     * image when there is no custom image (and keeps the current one when
     * there is), replaces the exposed ports by the API port and the three
     * engine ports, and waits for the sidecar's ready line.
     */
    method Configure() returns (thrown: Option<ConfigureError>)
      modifies this
      ensures thrown.Some? <==> playwrightVersion.None? && customImage.None?
      ensures thrown.Some? ==>
                && image == old(image) && copiedFiles == old(copiedFiles)
                && exposedPorts == old(exposedPorts) && waitPattern == old(waitPattern)
      ensures thrown.None? ==>
                && image == ConfiguredImageAsWritten(old(image), customImage, playwrightVersion)
                && (customImage.None? ==> image == ConfiguredImage(customImage, playwrightVersion))
                && copiedFiles == old(copiedFiles) + [FileCopy("app.js", "/app/app.js")]
                && exposedPorts == [ApiPort, EnginePort(Chromium), EnginePort(Firefox), EnginePort(Webkit)]
                && waitPattern == Some(ReadyLogPattern)
      ensures playwrightInstances == old(playwrightInstances) && playwrightCount == old(playwrightCount)
      ensures log == old(log)
    {
      if playwrightVersion.None? && customImage.None? {
        return Some(NoVersionAndNoImage);
      }
      copiedFiles := copiedFiles + [FileCopy("app.js", "/app/app.js")];
      if customImage.None? {
        image := ImageRepository + ":" + CompatibleTag(playwrightVersion.value);
      }
      exposedPorts := [ApiPort, EnginePort(Chromium), EnginePort(Firefox), EnginePort(Webkit)];
      waitPattern := Some(ReadyLogPattern);
      thrown := None;
    }

    /** `registerNewPlaywright`: a new Playwright instance, registered for `close`, wrapped in a fresh API. */
    method RegisterNewPlaywright() returns (api: ContainerApiImpl)
      requires Valid()
      modifies this
      ensures Valid()
      ensures fresh(api) && api.Valid() && api.container == this && api.playwright == old(playwrightCount)
      ensures api.chromiumBrowser == None && api.firefoxBrowser == None && api.webkitBrowser == None
      ensures old(playwrightCount) !in old(playwrightInstances)
      ensures playwrightInstances == old(playwrightInstances) + [old(playwrightCount)]
      ensures playwrightCount == old(playwrightCount) + 1
      ensures image == old(image) && log == old(log)
      ensures copiedFiles == old(copiedFiles) && exposedPorts == old(exposedPorts) && waitPattern == old(waitPattern)
    {
      var playwright := playwrightCount;
      playwrightCount := playwrightCount + 1;
      playwrightInstances := playwrightInstances + [playwright];
      api := new ContainerApiImpl(this, playwright);
    }

    /**
     * `close`: `close()` on every registered Playwright instance in order,
     * swallowing `PlaywrightException` only, then the container itself is
     * stopped. Any other throwable ends the loop, propagates, and the
     * container is not stopped.
     */
    method Close(outcome: nat -> CloseOutcome) returns (propagated: Option<Throwable>)
      modifies this
      ensures var escapes := id => EscapesClose(outcome(id));
        var first := FirstEscaping(old(playwrightInstances), escapes);
        && log == old(log) + CloseEvents(Attempted(old(playwrightInstances), escapes))
                   + (if first.None? then [ContainerStopped] else [])
        && (propagated.Some? <==> first.Some?)
        && (first.Some? ==> propagated == Some(outcome(old(playwrightInstances)[first.value]).thrown))
      ensures propagated.Some? ==> propagated.value != PlaywrightException
      ensures playwrightInstances == old(playwrightInstances) && playwrightCount == old(playwrightCount)
      ensures image == old(image)
      ensures copiedFiles == old(copiedFiles) && exposedPorts == old(exposedPorts) && waitPattern == old(waitPattern)
    {
      var escapes := id => EscapesClose(outcome(id));
      var tried, escaped := TryInOrder(playwrightInstances, escapes);
      log := log + CloseEvents(tried);
      if escaped.Some? {
        return Some(outcome(playwrightInstances[escaped.value]).thrown);
      }
      log := log + [ContainerStopped];
      propagated := None;
    }
  }

  /**
   * `PlaywrightContainerApiImp`: the API over one Playwright instance, whose
   * browser of each engine is connected on first use and kept afterwards.
   */
  class ContainerApiImpl {
    const container: PlaywrightContainer
    const playwright: nat
    var chromiumBrowser: Option<Browser>
    var firefoxBrowser: Option<Browser>
    var webkitBrowser: Option<Browser>

    /** Each cached browser is of its field's engine and was connected through this API's Playwright. */
    ghost predicate Valid()
      reads this
    {
      && Holds(chromiumBrowser, Chromium) && Holds(firefoxBrowser, Firefox) && Holds(webkitBrowser, Webkit)
    }

    /** A browser field is empty or holds a browser of `e` connected through this API's Playwright. */
    predicate Holds(field: Option<Browser>, e: Engine)
    {
      field.Some? ==> field.value.engine == e && field.value.playwright == playwright
    }

    constructor (container: PlaywrightContainer, playwright: nat)
      ensures Valid()
      ensures this.container == container && this.playwright == playwright
      ensures chromiumBrowser == None && firefoxBrowser == None && webkitBrowser == None
    {
      this.container := container;
      this.playwright := playwright;
      chromiumBrowser, firefoxBrowser, webkitBrowser := None, None, None;
    }

    /** The browser field of an engine. */
    function Cached(e: Engine): Option<Browser>
      reads this
    {
      match e
      case Chromium => chromiumBrowser
      case Firefox => firefoxBrowser
      case Webkit => webkitBrowser
    }

    /**
     * `chromium()`, `firefox()` and `webkit()`: the cached browser if there is
     * one; otherwise the engine's access connects this Playwright instance, and
     * the browser is cached when that succeeds.
     */
    method GetBrowser(e: Engine, host: string, mappedPort: nat -> nat, exchange: Exchange, connectFails: bool)
      returns (r: Result<Browser, LaunchError>)
      requires Valid() && container.Valid() && container.AccessFor(e).Valid()
      modifies this, container.AccessFor(e)
      ensures Valid() && container.AccessFor(e).Valid()
      ensures old(Cached(e)).Some? ==>
                r == Success(old(Cached(e)).value) && unchanged(this) && unchanged(container.AccessFor(e))
      ensures old(Cached(e)).None? ==> Cached(e) == (if r.Success? then Some(r.value) else None)
      ensures var access := container.AccessFor(e);
        old(Cached(e)).None? && old(access.wsEndpoint).Some? ==>
          && access.wsEndpoint == old(access.wsEndpoint) && access.launches == old(access.launches)
          && r == Connect(e, playwright, old(access.wsEndpoint).value, connectFails)
      ensures var access := container.AccessFor(e);
        old(Cached(e)).None? && old(access.wsEndpoint).None? ==>
          var launched := LaunchEndpoint(host, mappedPort(access.port), exchange);
          && access.launches == old(access.launches) + [LaunchAttempt(LaunchUrl(host, mappedPort(ApiPort)), RequestFor(e), launched.Success?)]
          && access.wsEndpoint == (if launched.Success? then Some(launched.value) else None)
          && r == (if launched.Success? then Connect(e, playwright, launched.value, connectFails)
                   else Failure(launched.error))
      ensures r.Success? ==> r.value.engine == e && r.value.playwright == playwright
      ensures forall other | other != e :: Cached(other) == old(Cached(other))
    {
      if Cached(e).Some? {
        return Success(Cached(e).value);
      }
      var access := container.AccessFor(e);
      r := access.SafeGetBrowser(host, mappedPort, exchange, playwright, connectFails);
      if r.Success? {
        assert r.value.engine == e;
        match e
        case Chromium => chromiumBrowser := Some(r.value);
        case Firefox => firefoxBrowser := Some(r.value);
        case Webkit => webkitBrowser := Some(r.value);
      }
    }
  }
}
