/**
 * PlaywrightTestcontainersExtension.kt: the JUnit 5 parameter resolver and
 * after-each callback that injects `PlaywrightContainerApi`, `BrowserContext`
 * and `Page` parameters. Engine markers are looked up with the functions of
 * AnnotationsUtils.kt on the parameter, the test method and the test class.
 */
module TestcontainersExtension {
  import opened Common
  import opened JUnit
  import Annotations

  /** `supportsParameter`: the three injectable types of this extension. */
  predicate SupportsParameter(t: ParamType)
    ensures SupportsParameter(t) <==> t != PlaywrightApiType && !t.OtherType?
  {
    t == PlaywrightContainerApiType || t == BrowserContextType || t == PageType
  }

  /** The parameter being resolved: its type, its annotations, its test method's and its test class's. */
  datatype Target = Target(
    graph: Annotations.Graph,
    paramType: ParamType,
    parameter: Annotations.Element,
    testMethod: Annotations.Element,
    testClass: Annotations.Element)

  function ElementAt(t: Target, l: Level): Annotations.Element
  {
    match l
    case Parameter => t.parameter
    case TestMethod => t.testMethod
    case TestClass => t.testClass
  }

  /** `hasAnnotation(element, marker)` for the element at level `l`. */
  predicate MarkerAt(t: Target, l: Level, e: Engine)
  {
    Annotations.Lookup(t.graph, ElementAt(t, l), MarkerClass(e)).Some?
  }

  /** The engine `createBrowserContext` picks for the target. */
  function EngineFor(t: Target): Engine
  {
    SelectEngine(l => MarkerAt(t, l, Webkit), l => MarkerAt(t, l, Firefox))
  }

  /** The private `hasAnnotation(parameterContext, extensionContext, marker)`: parameter, then method, then class. */
  method HasMarker(t: Target, e: Engine) returns (b: bool)
    ensures b <==> MarkerAt(t, Parameter, e) || MarkerAt(t, TestMethod, e) || MarkerAt(t, TestClass, e)
  {
    b := Annotations.HasAnnotation(t.graph, ElementAt(t, Parameter), MarkerClass(e));
    if !b {
      b := Annotations.HasAnnotation(t.graph, ElementAt(t, TestMethod), MarkerClass(e));
    }
    if !b {
      b := Annotations.HasAnnotation(t.graph, ElementAt(t, TestClass), MarkerClass(e));
    }
  }

  /**
   * The engine choice of `createBrowserContext`: Webkit when its marker is
   * reachable from the parameter, the method or the class; otherwise Firefox
   * when its marker is; otherwise Chromium.
   */
  method ChooseEngine(t: Target) returns (e: Engine)
    ensures e == EngineFor(t)
  {
    EngineForCases(t);
    var webkit := HasMarker(t, Webkit);
    if webkit {
      e := Webkit;
    } else {
      var firefox := HasMarker(t, Firefox);
      e := if firefox then Firefox else Chromium;
    }
  }

  /** `EngineFor` level by level: Webkit's marker at any level first, then Firefox's. */
  lemma EngineForCases(t: Target)
    ensures EngineFor(t) ==
              if MarkerAt(t, Parameter, Webkit) || MarkerAt(t, TestMethod, Webkit) || MarkerAt(t, TestClass, Webkit)
              then Webkit
              else if MarkerAt(t, Parameter, Firefox) || MarkerAt(t, TestMethod, Firefox) || MarkerAt(t, TestClass, Firefox)
              then Firefox
              else Chromium
  {
    var webkitAt := l => MarkerAt(t, l, Webkit);
    var firefoxAt := l => MarkerAt(t, l, Firefox);
    assert EngineFor(t) == SelectEngine(webkitAt, firefoxAt);
    assert webkitAt(Parameter) == MarkerAt(t, Parameter, Webkit);
    assert webkitAt(TestMethod) == MarkerAt(t, TestMethod, Webkit);
    assert webkitAt(TestClass) == MarkerAt(t, TestClass, Webkit);
    assert firefoxAt(Parameter) == MarkerAt(t, Parameter, Firefox);
    assert firefoxAt(TestMethod) == MarkerAt(t, TestMethod, Firefox);
    assert firefoxAt(TestClass) == MarkerAt(t, TestClass, Firefox);
  }

  /** A marker is found at a level exactly when it is declared there or reachable through meta-annotations. */
  ghost predicate Found(t: Target, l: Level, e: Engine)
  {
    Annotations.Reachable(t.graph, ElementAt(t, l).annotations, MarkerClass(e))
  }

  /**
   * The engine of a new context: Webkit when the Webkit marker is found on
   * the parameter, the method or the class; otherwise Firefox when the
   * Firefox marker is found on any of them; otherwise Chromium.
   */
  lemma EngineForMarkers(t: Target)
    ensures EngineFor(t) == Webkit <==> exists l :: Found(t, l, Webkit)
    ensures EngineFor(t) == Firefox <==> (forall l :: !Found(t, l, Webkit)) && exists l :: Found(t, l, Firefox)
    ensures EngineFor(t) == Chromium <==> forall l :: !Found(t, l, Webkit) && !Found(t, l, Firefox)
  {
    var webkitAt := l => MarkerAt(t, l, Webkit);
    var firefoxAt := l => MarkerAt(t, l, Firefox);
    assert EngineFor(t) == SelectEngine(webkitAt, firefoxAt);
    forall l ensures webkitAt(l) == Found(t, l, Webkit) && firefoxAt(l) == Found(t, l, Firefox) {
      MarkerFound(t, l, Webkit);
      MarkerFound(t, l, Firefox);
    }
  }

  lemma MarkerFound(t: Target, l: Level, e: Engine)
    ensures MarkerAt(t, l, e) == Found(t, l, e)
  {
    Annotations.LookupReachable(t.graph, ElementAt(t, l), MarkerClass(e));
  }

  /** With no marker reachable from any of the three elements, the context runs on Chromium. */
  lemma NoMarkerMeansChromium(t: Target)
    requires forall l, e :: !Found(t, l, e)
    ensures EngineFor(t) == Chromium
  {
    EngineForMarkers(t);
  }

  /**
   * The levels do not take precedence over each other: a Webkit marker on the
   * class beats a Firefox marker on the parameter itself.
   */
  lemma ClassWebkitBeatsParameterFirefox(g: Annotations.Graph, pt: ParamType)
    ensures EngineFor(Target(g, pt, Annotations.Element([MarkerClass(Firefox)]), Annotations.Element([]),
                             Annotations.Element([MarkerClass(Webkit)]))) == Webkit
  {
    var t := Target(g, pt, Annotations.Element([MarkerClass(Firefox)]), Annotations.Element([]),
                    Annotations.Element([MarkerClass(Webkit)]));
    assert MarkerAt(t, TestClass, Webkit);
  }

  /**
   * `createBrowserContext`: a new context on the engine the markers choose,
   * customised by the configurer if there is one, and recorded in the
   * invocation's list. A throw from the browser getter or `newContext`
   * creates nothing; a throw from `configureBrowserContext` leaves the
   * context created but unrecorded.
   */
  method CreateBrowserContext(s: ExtensionState, t: Target, config: Option<Configurer>, api: Api,
                              outcome: ContextOutcome)
    returns (r: Result<Id, ContextFailure>)
    requires s.Valid()
    modifies s
    ensures s.Valid()
    ensures r == ContextResult(old(s.contextCount), config, outcome)
    ensures r.Success? ==> r.value !in old(s.contexts)
    ensures s.contexts == old(s.contexts) + (if r.Success? then [r.value] else [])
    ensures s.contextCount == old(s.contextCount) + (if ContextMade(outcome) then 1 else 0)
    ensures s.log == old(s.log) + ContextEvents(old(s.contextCount), api, EngineFor(t), config, outcome)
    ensures s.containers == old(s.containers) && s.containerCount == old(s.containerCount)
  {
    var engine := ChooseEngine(t);
    r := s.NewContext(engine, config, api, outcome);
  }

  /**
   * `resolveParameter`: the container API is obtained first, whatever the
   * type; then the API itself, a new browser context, or a page in a new
   * browser context is returned, and any other type is rejected. A container
   * whose setup or start throws makes the whole resolution throw, whatever
   * the type; so do a context creation and a `newPage()` that throw.
   */
  method ResolveParameter(s: ExtensionState, t: Target, config: Option<Configurer>,
                          startup: Startup, creation: ContextOutcome, pageThrows: bool)
    returns (r: Result<Resolved, ResolveError>)
    requires s.Valid()
    modifies s
    ensures s.Valid()
    ensures s.containers == RegistryAfter(old(s.containers), old(s.containerCount), config, startup)
    ensures
      var obtained := ApiFor(old(s.containers), old(s.containerCount), config, startup);
      var apiLog := old(s.log) + ApiEvents(old(s.containers), old(s.containerCount), config, startup);
      obtained.Failure? ==> r == Failure(obtained.error) && s.contexts == old(s.contexts) && s.log == apiLog
    ensures
      var obtained := ApiFor(old(s.containers), old(s.containerCount), config, startup);
      var apiLog := old(s.log) + ApiEvents(old(s.containers), old(s.containerCount), config, startup);
      obtained.Success? && (t.paramType == PlaywrightContainerApiType || !SupportsParameter(t.paramType)) ==>
        && r == (if t.paramType == PlaywrightContainerApiType then Success(ApiValue(obtained.value))
                 else Failure(UnsupportedParameter(t.paramType)))
        && s.contexts == old(s.contexts) && s.log == apiLog
    ensures
      var obtained := ApiFor(old(s.containers), old(s.containerCount), config, startup);
      var apiLog := old(s.log) + ApiEvents(old(s.containers), old(s.containerCount), config, startup);
      var context := old(s.contextCount);
      var made := ContextResult(context, config, creation);
      obtained.Success? && (t.paramType == BrowserContextType || t.paramType == PageType) ==>
        && s.contexts == old(s.contexts) + (if made.Success? then [context] else [])
        && var contextLog := apiLog + ContextEvents(context, obtained.value, EngineFor(t), config, creation);
        && (made.Failure? ==> r == Failure(ContextCreationFailed(made.error)) && s.log == contextLog)
        && (made.Success? && t.paramType == BrowserContextType ==>
              r == Success(ContextValue(context)) && s.log == contextLog)
        && (made.Success? && t.paramType == PageType ==>
              && r == (if pageThrows then Failure(NewPageFailed(context)) else Success(PageValue(context)))
              && s.log == contextLog + (if pageThrows then [] else [PageOpened(context)]))
  {
    var obtained := s.GetOrCreateContainerApi(config, startup);
    if obtained.Failure? {
      return Failure(obtained.error);
    }
    var api := obtained.value;
    if t.paramType == PlaywrightContainerApiType {
      r := Success(ApiValue(api));
    } else if t.paramType == BrowserContextType || t.paramType == PageType {
      var made := CreateBrowserContext(s, t, config, api, creation);
      if made.Failure? {
        return Failure(ContextCreationFailed(made.error));
      }
      if t.paramType == BrowserContextType {
        r := Success(ContextValue(made.value));
      } else {
        r := s.OpenPage(made.value, pageThrows);
      }
    } else {
      r := Failure(UnsupportedParameter(t.paramType));
    }
  }
}
