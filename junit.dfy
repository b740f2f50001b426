/**
 * Declarations shared by the two JUnit 5 extensions of package `junit`
 * (PlaywrightTestcontainersExtension.kt and PlaywrightExtension.kt): the
 * parameter types, the configurer named by a test class's config annotation,
 * the engine choice, the container registry keyed by configurer, and the
 * trace of calls an extension makes into Testcontainers and Playwright.
 */
module JUnit {
  import opened Common

  /** Objects handed out by foreign code (containers, browser contexts), numbered in creation order. */
  type Id = nat

  /** The declared type of a test-method parameter. */
  datatype ParamType =
    | PlaywrightContainerApiType
    | PlaywrightApiType
    | BrowserContextType
    | PageType
    | OtherType(name: string)

  /** The three places an engine marker may be found for a parameter. */
  datatype Level = Parameter | TestMethod | TestClass

  /** The configurer class that the test class's config annotation names. */
  datatype Configurer = Configurer(
    /** `KClass.qualifiedName`, which is null for local and anonymous classes. */
    qualifiedName: Option<string>,
    /** Whether the configurer's API-provider hook returns a provider (rather than null). */
    providesApi: bool)

  /** What the extension obtains from `getOrCreateContainerApi`. */
  datatype Api = ContainerApi(container: Id) | ProviderApi

  /** A resolved parameter value. */
  datatype Resolved = ApiValue(api: Api) | ContextValue(context: Id) | PageValue(context: Id)

  /**
   * What `resolveParameter` throws: its `IllegalArgumentException` for an
   * unsupported type, or the throwable of a container's `setupContainer` or
   * `start()` passed on out of `computeIfAbsent`.
   */
  datatype ResolveError =
    | UnsupportedParameter(paramType: ParamType)
    | ContainerStartFailed(container: Id)
    | ContextCreationFailed(failure: ContextFailure)
    | NewPageFailed(context: Id)

  /**
   * Which call of `createBrowserContext` throws, if any: getting the engine's
   * browser from the API, `newContext`, or the configurer's customisation
   * hook (which is called only when there is a configurer).
   */
  datatype ContextOutcome = ContextOpens | BrowserThrows | NewContextThrows | HookThrows

  /** Why `createBrowserContext` threw; after a hook throw the context exists but is not recorded. */
  datatype ContextFailure = BrowserUnavailable | NewContextFailed | HookFailed(context: Id)

  /** Whether the configurer's `setupContainer` and the container's `start()` would throw. */
  datatype Startup = Startup(setupThrows: bool, startThrows: bool)

  /** How `afterEach` ended: all contexts closed, or the `close()` of this context threw. */
  datatype CleanupOutcome = AllClosed | CloseThrew(context: Id)

  /** The calls an extension makes into foreign code, in order. */
  datatype Event =
    | ProviderApiObtained
    | ContainerCreated(container: Id, byConfigurer: bool)
    | ContainerSetUp(container: Id)
    | ContainerStartCalled(container: Id)
    | ContextCreated(context: Id, api: Api, engine: Engine, optionsFromConfigurer: bool)
    | ContextCustomised(context: Id)
    | PageOpened(context: Id)
    | CloseCalled(context: Id)

  /** The package of the marker annotations. */
  const MarkerPackage: string := "io.orangebuffalo.testcontainers.playwright.junit."

  /** The qualified class name of the marker annotation for an engine. */
  function MarkerClass(e: Engine): string
  {
    match e
    case Chromium => MarkerPackage + "RequiresChromium"
    case Firefox => MarkerPackage + "RequiresFirefox"
    case Webkit => MarkerPackage + "RequiresWebkit"
  }

  /**
   * The engine of a new browser context, given for each level whether the
   * Webkit and the Firefox markers are found there: Webkit if found at any
   * level, otherwise Firefox if found at any level, otherwise Chromium.
   */
  function SelectEngine(webkitAt: Level -> bool, firefoxAt: Level -> bool): (e: Engine)
    ensures e == Webkit <==> exists l :: webkitAt(l)
    ensures e == Firefox <==> (forall l :: !webkitAt(l)) && exists l :: firefoxAt(l)
    ensures e == Chromium <==> forall l :: !webkitAt(l) && !firefoxAt(l)
  {
    assert forall l | webkitAt(l) :: l == Parameter || l == TestMethod || l == TestClass;
    assert forall l | firefoxAt(l) :: l == Parameter || l == TestMethod || l == TestClass;
    if webkitAt(Parameter) || webkitAt(TestMethod) || webkitAt(TestClass) then Webkit
    else if firefoxAt(Parameter) || firefoxAt(TestMethod) || firefoxAt(TestClass) then Firefox
    else Chromium
  }

  /** `containerStorageKey`: the configurer's qualified name, or "default". */
  function StorageKey(config: Option<Configurer>): (key: string)
    ensures ConfigName(config).Some? ==> key == ConfigName(config).value
    ensures ConfigName(config).None? ==> key == "default"
  {
    if config.Some? && config.value.qualifiedName.Some? then config.value.qualifiedName.value else "default"
  }

  /** The configurer's name when it has one. */
  function ConfigName(config: Option<Configurer>): Option<string>
  {
    if config.Some? then config.value.qualifiedName else None
  }

  /**
   * Two test classes share a container exactly when their configurers have the
   * same qualified name, or neither has a named configurer (provided no
   * configurer is literally named "default").
   */
  lemma StorageKeyShared(c1: Option<Configurer>, c2: Option<Configurer>)
    requires ConfigName(c1) != Some("default") && ConfigName(c2) != Some("default")
    ensures StorageKey(c1) == StorageKey(c2) <==> ConfigName(c1) == ConfigName(c2)
  {
  }

  /** Whether the configurer supplies its own API provider, bypassing the container registry. */
  predicate UsesProvider(config: Option<Configurer>)
  {
    config.Some? && config.value.providesApi
  }

  /** Whether creating a container fails: the configurer's setup throws, or else `start()` does. */
  predicate StartFails(config: Option<Configurer>, startup: Startup)
  {
    (config.Some? && startup.setupThrows) || startup.startThrows
  }

  /**
   * The calls that create container `id`, pass it to the configurer's setup
   * hook when there is a configurer, and start it unless that hook threw.
   */
  function StartEvents(id: Id, config: Option<Configurer>, startup: Startup): seq<Event>
  {
    [ContainerCreated(id, config.Some?)]
    + (if config.Some? then [ContainerSetUp(id)] else [])
    + (if config.Some? && startup.setupThrows then [] else [ContainerStartCalled(id)])
  }

  /**
   * The registry after `getOrCreateContainerApi`: a new entry only for an
   * absent key whose container was set up and started without a throw.
   */
  function RegistryAfter(containers: map<string, Id>, count: nat, config: Option<Configurer>, startup: Startup)
    : map<string, Id>
  {
    if UsesProvider(config) || StorageKey(config) in containers || StartFails(config, startup) then containers
    else containers[StorageKey(config) := count]
  }

  /** The number of containers created after `getOrCreateContainerApi`, whether or not they started. */
  function CountAfter(containers: map<string, Id>, count: nat, config: Option<Configurer>): nat
  {
    if UsesProvider(config) || StorageKey(config) in containers then count else count + 1
  }

  /** The calls `getOrCreateContainerApi` makes. */
  function ApiEvents(containers: map<string, Id>, count: nat, config: Option<Configurer>, startup: Startup)
    : seq<Event>
  {
    if UsesProvider(config) then [ProviderApiObtained]
    else if StorageKey(config) in containers then []
    else StartEvents(count, config, startup)
  }

  /** What `getOrCreateContainerApi` returns or throws. */
  function ApiFor(containers: map<string, Id>, count: nat, config: Option<Configurer>, startup: Startup)
    : Result<Api, ResolveError>
  {
    if UsesProvider(config) then Success(ProviderApi)
    else if StorageKey(config) in containers then Success(ContainerApi(containers[StorageKey(config)]))
    else if StartFails(config, startup) then Failure(ContainerStartFailed(count))
    else Success(ContainerApi(count))
  }

  /**
   * Get-or-create: with a provider the registry is not touched. Otherwise an
   * existing entry is reused with no call at all; an absent key is created
   * and bound to the returned container, unless its setup or start throws,
   * which leaves the registry as it was and passes the throw on. No other
   * entry ever changes.
   */
  lemma RegistryGetOrCreate(containers: map<string, Id>, count: nat, config: Option<Configurer>, startup: Startup)
    ensures var after := RegistryAfter(containers, count, config, startup);
      var r := ApiFor(containers, count, config, startup);
      && (UsesProvider(config) ==> after == containers && r == Success(ProviderApi))
      && (!UsesProvider(config) ==>
            && containers.Keys <= after.Keys
            && (forall k | k in containers :: after[k] == containers[k])
            && (r.Success? <==> StorageKey(config) in after)
            && (r.Success? ==> r.value == ContainerApi(after[StorageKey(config)]))
            && (r.Failure? <==> StorageKey(config) !in containers && StartFails(config, startup))
            && (r.Failure? ==> after == containers)
            && (StorageKey(config) in containers <==> ApiEvents(containers, count, config, startup) == []))
  {
  }

  /**
   * A second request with the same configuration, after a first one that
   * obtained a container, reuses that container: no further call, no change.
   */
  lemma RegistryIdempotent(containers: map<string, Id>, count: nat, count': nat, config: Option<Configurer>,
                           startup: Startup, startup': Startup)
    requires !UsesProvider(config)
    ensures ApiFor(containers, count, config, startup).Success? ==>
      var after := RegistryAfter(containers, count, config, startup);
      && RegistryAfter(after, count', config, startup') == after
      && ApiEvents(after, count', config, startup') == []
      && ApiFor(after, count', config, startup') == ApiFor(containers, count, config, startup)
  {
  }

  /**
   * A container whose setup or start threw is not kept: the next request with
   * the same configuration creates and starts another one.
   */
  lemma FailedStartIsRetried(containers: map<string, Id>, count: nat, count': nat, config: Option<Configurer>,
                             startup: Startup, startup': Startup)
    requires ApiFor(containers, count, config, startup).Failure?
    ensures var after := RegistryAfter(containers, count, config, startup);
      && after == containers
      && ApiEvents(after, count', config, startup') == StartEvents(count', config, startup')
      && (!StartFails(config, startup') ==> ApiFor(after, count', config, startup') == Success(ContainerApi(count')))
  {
  }

  /** No two keys of a registry share a container. */
  ghost predicate OneContainerPerKey(containers: map<string, Id>, count: nat)
  {
    && (forall k | k in containers :: containers[k] < count)
    && (forall k1, k2 | k1 in containers && k2 in containers && k1 != k2 :: containers[k1] != containers[k2])
  }

  /** Creating containers with fresh numbers keeps one container per key. */
  lemma RegistryKeepsOneContainerPerKey(containers: map<string, Id>, count: nat, config: Option<Configurer>,
                                        startup: Startup)
    requires OneContainerPerKey(containers, count)
    ensures OneContainerPerKey(RegistryAfter(containers, count, config, startup), CountAfter(containers, count, config))
  {
  }

  /** Whether `newContext` returns a context: neither the browser nor `newContext` itself threw. */
  predicate ContextMade(outcome: ContextOutcome)
  {
    outcome == ContextOpens || outcome == HookThrows
  }

  /**
   * What `createBrowserContext` returns or throws when the next context gets
   * number `context`.
   */
  function ContextResult(context: Id, config: Option<Configurer>, outcome: ContextOutcome): Result<Id, ContextFailure>
  {
    match outcome
    case BrowserThrows => Failure(BrowserUnavailable)
    case NewContextThrows => Failure(NewContextFailed)
    case HookThrows => if config.Some? then Failure(HookFailed(context)) else Success(context)
    case ContextOpens => Success(context)
  }

  /**
   * The calls that create browser context `context` on `engine` of `api` and
   * take effect: `newContext` (with the configurer's options when there is a
   * configurer), then the configurer's customisation hook when there is a
   * configurer. A browser or `newContext` that throws creates nothing.
   */
  function ContextEvents(context: Id, api: Api, engine: Engine, config: Option<Configurer>, outcome: ContextOutcome)
    : seq<Event>
  {
    if !ContextMade(outcome) then []
    else [ContextCreated(context, api, engine, config.Some?)] + (if config.Some? then [ContextCustomised(context)] else [])
  }

  /**
   * A customisation hook that throws leaves a created context out of the
   * invocation's list: it was created, yet `afterEach` never closes it,
   * however the other closes go.
   */
  lemma HookThrowLeavesContextOpen(contexts: seq<Id>, context: Id, api: Api, engine: Engine, config: Option<Configurer>,
                                   throws: Id -> bool)
    requires config.Some?
    requires forall i | 0 <= i < |contexts| :: contexts[i] < context
    ensures ContextResult(context, config, HookThrows) == Failure(HookFailed(context))
    ensures ContextCreated(context, api, engine, true) in ContextEvents(context, api, engine, config, HookThrows)
    ensures CloseCalled(context) !in CloseEvents(Attempted(contexts, throws))
  {
    var tried := Attempted(contexts, throws);
    assert forall i | 0 <= i < |tried| :: tried[i] == contexts[i];
    assert [ContextCreated(context, api, engine, true)] <= ContextEvents(context, api, engine, config, HookThrows);
  }

  /**
   * Contexts are numbered in creation order, so the contexts of an earlier
   * invocation are all below the count at which the next one began, and
   * those of the next one are all at or above it. The next `afterEach`
   * therefore never closes an earlier invocation's context again, even one
   * its own failed `afterEach` left open.
   */
  lemma NextInvocationClosesOnlyItsOwn(earlier: seq<Id>, later: seq<Id>, start: nat, throws: Id -> bool)
    requires forall i | 0 <= i < |earlier| :: earlier[i] < start
    requires forall i | 0 <= i < |later| :: start <= later[i]
    ensures forall i | 0 <= i < |earlier| :: CloseCalled(earlier[i]) !in CloseEvents(Attempted(later, throws))
  {
    var tried := Attempted(later, throws);
    assert forall i | 0 <= i < |tried| :: tried[i] == later[i];
  }

  /** The `close()` calls made on a sequence of contexts, in order. */
  function CloseEvents(contexts: seq<Id>): (calls: seq<Event>)
    ensures |calls| == |contexts|
    ensures forall i | 0 <= i < |contexts| :: calls[i] == CloseCalled(contexts[i])
  {
    if contexts == [] then [] else [CloseCalled(contexts[0])] + CloseEvents(contexts[1..])
  }

  /**
   * The state an extension keeps: its file-level `containers` registry and the
   * list of browser contexts in the JUnit extension store of the running test
   * invocation, with the calls made into Testcontainers and Playwright. Each
   * of the two extensions has its own. Every invocation has a store of its
   * own, so `BeginInvocation` starts an empty list.
   */
  class ExtensionState {
    /** The `containers` map: storage key to container. */
    var containers: map<string, Id>
    /** How many containers have been created; the next one gets this number. */
    var containerCount: nat
    /** The invocation's `browserContexts` list. */
    var contexts: seq<Id>
    /** How many browser contexts have been created; the next one gets this number. */
    var contextCount: nat
    /** The calls made into foreign code, in order. */
    var log: seq<Event>

    ghost predicate Valid()
      reads this
    {
      && OneContainerPerKey(containers, containerCount)
      && forall i | 0 <= i < |contexts| :: contexts[i] < contextCount
    }

    constructor ()
      ensures Valid()
      ensures containers == map[] && contexts == [] && log == []
    {
      containers, containerCount := map[], 0;
      contexts, contextCount := [], 0;
      log := [];
    }

    /**
     * A new test invocation: its extension store has no `browserContexts`
     * yet, so `getBrowserContexts` starts an empty list. The previous
     * invocation's list, even one a failed `afterEach` left uncleared, is
     * dropped with its store; the registry and the numbering carry over.
     */
    method BeginInvocation()
      requires Valid()
      modifies this
      ensures Valid()
      ensures contexts == []
      ensures containers == old(containers) && containerCount == old(containerCount)
      ensures contextCount == old(contextCount) && log == old(log)
    {
      contexts := [];
    }

    /**
     * `getOrCreateContainerApi`: a configurer's provider bypasses the registry;
     * otherwise the container of the storage key is created, set up and
     * started only when the key is absent, and reused afterwards. A throw from
     * the setup hook or from `start()` leaves the key absent and is passed on.
     */
    method GetOrCreateContainerApi(config: Option<Configurer>, startup: Startup) returns (r: Result<Api, ResolveError>)
      requires Valid()
      modifies this
      ensures Valid()
      ensures r == ApiFor(old(containers), old(containerCount), config, startup)
      ensures containers == RegistryAfter(old(containers), old(containerCount), config, startup)
      ensures containerCount == CountAfter(old(containers), old(containerCount), config)
      ensures log == old(log) + ApiEvents(old(containers), old(containerCount), config, startup)
      ensures contexts == old(contexts) && contextCount == old(contextCount)
    {
      if UsesProvider(config) {
        log := log + [ProviderApiObtained];
        return Success(ProviderApi);
      }
      var key := StorageKey(config);
      if key in containers {
        return Success(ContainerApi(containers[key]));
      }
      var container := containerCount;
      containerCount := containerCount + 1;
      log := log + StartEvents(container, config, startup);
      if StartFails(config, startup) {
        return Failure(ContainerStartFailed(container));
      }
      containers := containers[key := container];
      r := Success(ContainerApi(container));
    }

    /**
     * The engine-independent part of `createBrowserContext`: a new context on
     * `engine`, customised by the configurer if there is one, and recorded
     * in the invocation's list. A throw from the browser or `newContext`
     * creates nothing; a throw from the hook leaves the new context unrecorded.
     */
    method NewContext(engine: Engine, config: Option<Configurer>, api: Api, outcome: ContextOutcome)
      returns (r: Result<Id, ContextFailure>)
      requires Valid()
      modifies this
      ensures Valid()
      ensures r == ContextResult(old(contextCount), config, outcome)
      ensures r.Success? ==> r.value !in old(contexts)
      ensures contexts == old(contexts) + (if r.Success? then [r.value] else [])
      ensures contextCount == old(contextCount) + (if ContextMade(outcome) then 1 else 0)
      ensures log == old(log) + ContextEvents(old(contextCount), api, engine, config, outcome)
      ensures containers == old(containers) && containerCount == old(containerCount)
    {
      if outcome == BrowserThrows {
        return Failure(BrowserUnavailable);
      }
      if outcome == NewContextThrows {
        return Failure(NewContextFailed);
      }
      var context := contextCount;
      contextCount := contextCount + 1;
      log := log + [ContextCreated(context, api, engine, config.Some?)];
      if config.Some? {
        log := log + [ContextCustomised(context)];
        if outcome == HookThrows {
          return Failure(HookFailed(context));
        }
      }
      contexts := contexts + [context];
      r := Success(context);
    }

    /** `newPage()` on a context: a page, or the throw of `newPage()`, which creates nothing. */
    method OpenPage(context: Id, throws: bool) returns (r: Result<Resolved, ResolveError>)
      modifies this
      ensures r == if throws then Failure(NewPageFailed(context)) else Success(PageValue(context))
      ensures log == old(log) + (if throws then [] else [PageOpened(context)])
      ensures containers == old(containers) && containerCount == old(containerCount)
      ensures contexts == old(contexts) && contextCount == old(contextCount)
    {
      if throws {
        return Failure(NewPageFailed(context));
      }
      log := log + [PageOpened(context)];
      r := Success(PageValue(context));
    }

    /**
     * `afterEach`: `close()` on every recorded context in list order, then the
     * list is cleared; a `close()` that throws ends the loop and the list is
     * left as it was.
     */
    method AfterEach(throws: Id -> bool) returns (outcome: CleanupOutcome)
      requires Valid()
      modifies this
      ensures Valid()
      ensures log == old(log) + CloseEvents(Attempted(old(contexts), throws))
      ensures FirstEscaping(old(contexts), throws).None? ==> outcome == AllClosed && contexts == []
      ensures FirstEscaping(old(contexts), throws).Some? ==>
                && outcome == CloseThrew(old(contexts)[FirstEscaping(old(contexts), throws).value])
                && contexts == old(contexts)
      ensures containers == old(containers) && containerCount == old(containerCount)
      ensures contextCount == old(contextCount)
    {
      var tried, escaped := TryInOrder(contexts, throws);
      log := log + CloseEvents(tried);
      if escaped.Some? {
        return CloseThrew(contexts[escaped.value]);
      }
      contexts := [];
      outcome := AllClosed;
    }
  }
}
