/**
 * PlaywrightExtension.kt: the JUnit 5 parameter resolver and after-each
 * callback that injects `PlaywrightApi`, `BrowserContext` and `Page`
 * parameters. Engine markers are tested with JUnit's
 * `AnnotationSupport.isAnnotated`, which is foreign code and is given here as
 * a predicate on the level and the engine.
 */
module PlaywrightExtension {
  import opened Common
  import opened JUnit

  /** `supportsParameter`: the three injectable types of this extension. */
  predicate SupportsParameter(t: ParamType)
    ensures SupportsParameter(t) <==> t != PlaywrightContainerApiType && !t.OtherType?
  {
    t == PlaywrightApiType || t == BrowserContextType || t == PageType
  }

  /**
   * The parameter being resolved: its declared type, and whether
   * `AnnotationSupport.isAnnotated` reports the marker of an engine on the
   * parameter, the test method or the test class.
   */
  datatype Target = Target(paramType: ParamType, isAnnotated: (Level, Engine) -> bool)

  /**
   * The engine `createBrowserContext` picks: Webkit when its marker is on the
   * parameter, the method or the class; otherwise Firefox when its marker is
   * on any of them; otherwise Chromium.
   */
  function EngineFor(t: Target): (e: Engine)
    ensures e == Webkit <==> exists l :: t.isAnnotated(l, Webkit)
    ensures e == Firefox <==> (forall l :: !t.isAnnotated(l, Webkit)) && exists l :: t.isAnnotated(l, Firefox)
    ensures e == Chromium <==> forall l :: !t.isAnnotated(l, Webkit) && !t.isAnnotated(l, Firefox)
  {
    var webkitAt := l => t.isAnnotated(l, Webkit);
    var firefoxAt := l => t.isAnnotated(l, Firefox);
    assert forall l :: webkitAt(l) == t.isAnnotated(l, Webkit) && firefoxAt(l) == t.isAnnotated(l, Firefox);
    SelectEngine(webkitAt, firefoxAt)
  }

  /**
   * The private `hasAnnotation`: the marker on the parameter, else on the
   * test method, else on the test class.
   */
  method HasMarker(t: Target, e: Engine) returns (b: bool)
    ensures b <==> exists l :: t.isAnnotated(l, e)
  {
    b := t.isAnnotated(Parameter, e) || t.isAnnotated(TestMethod, e) || t.isAnnotated(TestClass, e);
    assert forall l | t.isAnnotated(l, e) :: l == Parameter || l == TestMethod || l == TestClass;
  }

  /** The marker tests of `createBrowserContext`, Webkit first, then Firefox. */
  method ChooseEngine(t: Target) returns (e: Engine)
    ensures e == EngineFor(t)
  {
    var webkit := HasMarker(t, Webkit);
    if webkit {
      e := Webkit;
    } else {
      var firefox := HasMarker(t, Firefox);
      e := if firefox then Firefox else Chromium;
    }
  }

  /**
   * `RequiresChromium` is never consulted: a Chromium marker anywhere leaves
   * the choice to the Webkit and Firefox markers, and a Firefox marker on the
   * class beats a Chromium marker on the parameter.
   */
  lemma ChromiumMarkerNotConsulted(t: Target, u: Target)
    requires forall l :: t.isAnnotated(l, Webkit) == u.isAnnotated(l, Webkit)
    requires forall l :: t.isAnnotated(l, Firefox) == u.isAnnotated(l, Firefox)
    ensures EngineFor(t) == EngineFor(u)
  {
    if EngineFor(t) == Webkit {
      assert exists l :: u.isAnnotated(l, Webkit);
    } else if EngineFor(t) == Firefox {
      assert exists l :: u.isAnnotated(l, Firefox);
    }
  }

  /**
   * `createBrowserContext`: a new context on the engine the markers choose,
   * passed to the configurer's `setupBrowserContext` if there is one, and
   * recorded in the invocation's list. A throw from the browser getter or
   * `newContext` creates nothing; a throw from the hook leaves the context
   * created but unrecorded.
   */
  method CreateBrowserContext(s: ExtensionState, t: Target, config: Option<Configurer>, api: Api,
                              outcome: ContextOutcome)
    returns (r: Result<Id, ContextFailure>)
    requires s.Valid()
    modifies s
    ensures s.Valid()
    ensures r == ContextResult(old(s.contextCount), config, outcome)
    ensures r.Success? ==> r.value !in old(s.contexts)
    ensures s.contexts == old(s.contexts) + (if r.Success? then [r.value] else [])
    ensures s.contextCount == old(s.contextCount) + (if ContextMade(outcome) then 1 else 0)
    ensures s.log == old(s.log) + ContextEvents(old(s.contextCount), api, EngineFor(t), config, outcome)
    ensures s.containers == old(s.containers) && s.containerCount == old(s.containerCount)
  {
    var engine := ChooseEngine(t);
    r := s.NewContext(engine, config, api, outcome);
  }

  /**
   * `resolveParameter`: the API is obtained first (from the configurer's
   * provider, or from the registry's container), whatever the type; then the
   * API itself, a new browser context, or a page in a new browser context is
   * returned, and any other type is rejected. A container whose setup or
   * start throws makes the whole resolution throw, whatever the type; so do
   * a context creation and a `newPage()` that throw.
   */
  method ResolveParameter(s: ExtensionState, t: Target, config: Option<Configurer>,
                          startup: Startup, creation: ContextOutcome, pageThrows: bool)
    returns (r: Result<Resolved, ResolveError>)
    requires s.Valid()
    modifies s
    ensures s.Valid()
    ensures UsesProvider(config) ==> s.containers == old(s.containers) && s.containerCount == old(s.containerCount)
    ensures s.containers == RegistryAfter(old(s.containers), old(s.containerCount), config, startup)
    ensures
      var obtained := ApiFor(old(s.containers), old(s.containerCount), config, startup);
      var apiLog := old(s.log) + ApiEvents(old(s.containers), old(s.containerCount), config, startup);
      obtained.Failure? ==> r == Failure(obtained.error) && s.contexts == old(s.contexts) && s.log == apiLog
    ensures
      var obtained := ApiFor(old(s.containers), old(s.containerCount), config, startup);
      var apiLog := old(s.log) + ApiEvents(old(s.containers), old(s.containerCount), config, startup);
      obtained.Success? && (t.paramType == PlaywrightApiType || !SupportsParameter(t.paramType)) ==>
        && r == (if t.paramType == PlaywrightApiType then Success(ApiValue(obtained.value))
                 else Failure(UnsupportedParameter(t.paramType)))
        && s.contexts == old(s.contexts) && s.log == apiLog
    ensures
      var obtained := ApiFor(old(s.containers), old(s.containerCount), config, startup);
      var apiLog := old(s.log) + ApiEvents(old(s.containers), old(s.containerCount), config, startup);
      var context := old(s.contextCount);
      var made := ContextResult(context, config, creation);
      obtained.Success? && (t.paramType == BrowserContextType || t.paramType == PageType) ==>
        && s.contexts == old(s.contexts) + (if made.Success? then [context] else [])
        && var contextLog := apiLog + ContextEvents(context, obtained.value, EngineFor(t), config, creation);
        && (made.Failure? ==> r == Failure(ContextCreationFailed(made.error)) && s.log == contextLog)
        && (made.Success? && t.paramType == BrowserContextType ==>
              r == Success(ContextValue(context)) && s.log == contextLog)
        && (made.Success? && t.paramType == PageType ==>
              && r == (if pageThrows then Failure(NewPageFailed(context)) else Success(PageValue(context)))
              && s.log == contextLog + (if pageThrows then [] else [PageOpened(context)]))
  {
    var obtained := s.GetOrCreateContainerApi(config, startup);
    if obtained.Failure? {
      return Failure(obtained.error);
    }
    var api := obtained.value;
    if t.paramType == PlaywrightApiType {
      r := Success(ApiValue(api));
    } else if t.paramType == BrowserContextType || t.paramType == PageType {
      var made := CreateBrowserContext(s, t, config, api, creation);
      if made.Failure? {
        return Failure(ContextCreationFailed(made.error));
      }
      if t.paramType == BrowserContextType {
        r := Success(ContextValue(made.value));
      } else {
        r := s.OpenPage(made.value, pageThrows);
      }
    } else {
      r := Failure(UnsupportedParameter(t.paramType));
    }
  }
}
