/**
 * PlaywrightApiManager.kt: one `PlaywrightApi` per thread, bound to a
 * container. Each API connects its browser of an engine on first use, to
 * the container's endpoint for that engine, and keeps it. The container's
 * endpoint getters, Playwright's `connect` and the `close()` calls are
 * foreign: they are given as parameters.
 */
module PlaywrightApiManager {
  import opened Common
  import opened PlaywrightUtils
  import opened PlaywrightContainer

  /** A `close()` call made by `PlaywrightApiImpl.close`. */
  datatype CloseCall = CloseBrowser(browser: Browser) | ClosePlaywright(playwright: nat)

  /** Whether the `safeClose` of a call lets a throwable through. */
  predicate Escapes(outcome: CloseCall -> CloseOutcome, c: CloseCall)
  {
    SafeClose(outcome(c)).Some?
  }

  /** `Escapes` as the test the close loops apply to each call. */
  function Escaping(outcome: CloseCall -> CloseOutcome): CloseCall -> bool
  {
    c => Escapes(outcome, c)
  }

  /** The call closing a browser field, when the field is set. */
  function CloseIfSet(field: Option<Browser>): (calls: seq<CloseCall>)
  {
    if field.Some? then [CloseBrowser(field.value)] else []
  }

  /** `PlaywrightApiImpl`: the API of one thread. */
  class ApiImpl {
    /** The Playwright instance created with the API. */
    const playwright: nat
    /** The container's `getChromiumWsEndpoint`, `getFirefoxWsEndpoint` and `getWebkitWsEndpoint`. */
    const endpointOf: Engine -> string
    var chromiumBrowser: Option<Browser>
    var firefoxBrowser: Option<Browser>
    var webkitBrowser: Option<Browser>

    /** Each browser field is empty or holds this Playwright's connection to its engine's endpoint. */
    ghost predicate Valid()
      reads this
    {
      && Holds(chromiumBrowser, Chromium) && Holds(firefoxBrowser, Firefox) && Holds(webkitBrowser, Webkit)
    }

    predicate Holds(field: Option<Browser>, e: Engine)
    {
      field.Some? ==> field.value == Browser(e, endpointOf(e), playwright)
    }

    constructor (playwright: nat, endpointOf: Engine -> string)
      ensures Valid()
      ensures this.playwright == playwright && this.endpointOf == endpointOf
      ensures chromiumBrowser == None && firefoxBrowser == None && webkitBrowser == None
    {
      this.playwright := playwright;
      this.endpointOf := endpointOf;
      chromiumBrowser, firefoxBrowser, webkitBrowser := None, None, None;
    }

    /** The browser field of an engine. */
    function Cached(e: Engine): Option<Browser>
      reads this
    {
      match e
      case Chromium => chromiumBrowser
      case Firefox => firefoxBrowser
      case Webkit => webkitBrowser
    }

    /**
     * `chromium()`, `firefox()` and `webkit()`: the cached browser if there is
     * one; otherwise `connect` to the container's endpoint of the same engine,
     * and cache the browser when that succeeds.
     */
    method GetBrowser(e: Engine, connectFails: bool) returns (r: Result<Browser, LaunchError>)
      requires Valid()
      modifies this
      ensures Valid()
      ensures r.Success? ==> r.value == Browser(e, endpointOf(e), playwright) && Cached(e) == Some(r.value)
      ensures old(Cached(e)).Some? ==> r == Success(old(Cached(e)).value) && unchanged(this)
      ensures old(Cached(e)).None? ==>
                r == Connect(e, playwright, endpointOf(e), connectFails) && (r.Failure? ==> Cached(e) == None)
      ensures forall other | other != e :: Cached(other) == old(Cached(other))
    {
      if Cached(e).Some? {
        return Success(Cached(e).value);
      }
      r := Connect(e, playwright, endpointOf(e), connectFails);
      if r.Success? {
        match e
        case Chromium => chromiumBrowser := Some(r.value);
        case Firefox => firefoxBrowser := Some(r.value);
        case Webkit => webkitBrowser := Some(r.value);
      }
    }

    /** What `close` closes, in order: each set browser field, Chromium first, then Playwright. */
    function CloseTargets(): (targets: seq<CloseCall>)
      reads this
    {
      CloseIfSet(chromiumBrowser) + CloseIfSet(firefoxBrowser) + CloseIfSet(webkitBrowser) + [ClosePlaywright(playwright)]
    }

    /**
     * `close`: `safeClose` on each set browser field and then on Playwright.
     * `safeClose` swallows every `Exception`; a JVM `Error` propagates and
     * the remaining calls are not made.
     */
    method Close(outcome: CloseCall -> CloseOutcome) returns (calls: seq<CloseCall>, propagated: Option<Throwable>)
      ensures calls == Attempted(CloseTargets(), Escaping(outcome))
      ensures propagated.Some? <==> FirstEscaping(CloseTargets(), Escaping(outcome)).Some?
      ensures propagated.None? || propagated.value == JvmError
    {
      var escapes := Escaping(outcome);
      var c, f, w := CloseIfSet(chromiumBrowser), CloseIfSet(firefoxBrowser), CloseIfSet(webkitBrowser);
      var p := [ClosePlaywright(playwright)];
      assert CloseTargets() == c + f + w + p;
      calls, propagated := [], None;
      if chromiumBrowser.Some? {
        var x := CloseBrowser(chromiumBrowser.value);
        assert CloseTargets() == calls + [x] + (f + w + p);
        AttemptedStep(calls, x, f + w + p, escapes);
        calls := calls + [x];
        propagated := SafeClose(outcome(x));
        if propagated.Some? {
          return;
        }
      }
      assert calls == c;
      if firefoxBrowser.Some? {
        var x := CloseBrowser(firefoxBrowser.value);
        assert CloseTargets() == calls + [x] + (w + p);
        AttemptedStep(calls, x, w + p, escapes);
        calls := calls + [x];
        propagated := SafeClose(outcome(x));
        if propagated.Some? {
          return;
        }
      }
      assert calls == c + f;
      if webkitBrowser.Some? {
        var x := CloseBrowser(webkitBrowser.value);
        assert CloseTargets() == calls + [x] + p;
        AttemptedStep(calls, x, p, escapes);
        calls := calls + [x];
        propagated := SafeClose(outcome(x));
        if propagated.Some? {
          return;
        }
      }
      var x := ClosePlaywright(playwright);
      assert CloseTargets() == calls + [x] + [];
      AttemptedStep(calls, x, [], escapes);
      calls := calls + [x];
      propagated := SafeClose(outcome(x));
    }
  }

  /**
   * When nothing escapes, `close` closes exactly the browsers that were
   * connected, and Playwright last; an engine never requested is skipped.
   */
  lemma CloseClosesConnectedThenPlaywright(api: ApiImpl, outcome: CloseCall -> CloseOutcome)
    requires api.Valid()
    requires FirstEscaping(api.CloseTargets(), Escaping(outcome)).None?
    ensures var calls := Attempted(api.CloseTargets(), Escaping(outcome));
      && calls[|calls| - 1] == ClosePlaywright(api.playwright)
      && (forall c | c in calls && c.CloseBrowser? :: api.Cached(c.browser.engine) == Some(c.browser))
      && (forall e | api.Cached(e).Some? :: CloseBrowser(api.Cached(e).value) in calls)
  {
    var c, f, w := CloseIfSet(api.chromiumBrowser), CloseIfSet(api.firefoxBrowser), CloseIfSet(api.webkitBrowser);
    var calls := api.CloseTargets();
    assert calls == c + f + w + [ClosePlaywright(api.playwright)];
    forall x | x in calls && x.CloseBrowser?
      ensures api.Cached(x.browser.engine) == Some(x.browser)
    {
      assert x in c || x in f || x in w;
    }
    forall e | api.Cached(e).Some? ensures CloseBrowser(api.Cached(e).value) in calls {
      var x := CloseBrowser(api.Cached(e).value);
      match e
      case Chromium => assert c == [x];
      case Firefox => assert f == [x];
      case Webkit => assert w == [x];
    }
  }

  /** The manager: the `playwrightApis` map from thread id to API, filled by `getPlaywrightApi`. */
  class ApiManager {
    /** The container's endpoint getters. */
    const endpointOf: Engine -> string
    var apis: map<int, ApiImpl>
    /** How many APIs (and Playwright instances) have been created; the next one gets this number. */
    var apiCount: nat
    /** The Playwright instances whose API registered a shutdown hook, in order. */
    var shutdownHooks: seq<nat>

    /** Every API is bound to this manager's container and has its own Playwright instance. */
    ghost predicate Valid()
      reads this, apis.Values
    {
      && (forall t | t in apis :: apis[t].playwright < apiCount && apis[t].endpointOf == endpointOf && apis[t].Valid())
      && (forall t1, t2 | t1 in apis && t2 in apis && t1 != t2 :: apis[t1].playwright != apis[t2].playwright)
    }

    constructor (endpointOf: Engine -> string)
      ensures Valid()
      ensures this.endpointOf == endpointOf && apis == map[] && shutdownHooks == []
    {
      this.endpointOf := endpointOf;
      apis, apiCount, shutdownHooks := map[], 0, [];
    }

    /**
     * `getPlaywrightApi` for the calling thread: the thread's API if it has
     * one; otherwise a fresh API with a new Playwright instance, with a
     * shutdown hook that closes it, recorded for the thread.
     */
    method GetPlaywrightApi(threadId: int) returns (api: ApiImpl)
      requires Valid()
      modifies this
      ensures Valid()
      ensures threadId in apis && apis[threadId] == api
      ensures threadId in old(apis) ==>
                api == old(apis)[threadId] && apis == old(apis) && shutdownHooks == old(shutdownHooks)
      ensures threadId !in old(apis) ==>
                && fresh(api) && apis == old(apis)[threadId := api]
                && shutdownHooks == old(shutdownHooks) + [api.playwright]
                && api.Cached(Chromium) == None && api.Cached(Firefox) == None && api.Cached(Webkit) == None
    {
      if threadId in apis {
        return apis[threadId];
      }
      api := new ApiImpl(apiCount, endpointOf);
      apiCount := apiCount + 1;
      apis := apis[threadId := api];
      shutdownHooks := shutdownHooks + [api.playwright];
    }

    /**
     * `close`: `close` on every API of the map, in the map's iteration order
     * `order` (each thread once); a throwable that escapes one ends the loop.
     */
    method Close(order: seq<int>, outcome: CloseCall -> CloseOutcome)
      returns (calls: seq<CloseCall>, propagated: Option<Throwable>)
      requires forall i | 0 <= i < |order| :: order[i] in apis
      requires forall t | t in apis :: t in order
      requires forall i, j | 0 <= i < j < |order| :: order[i] != order[j]
      ensures calls == Attempted(AllTargets(apis, order), Escaping(outcome))
      ensures propagated.Some? <==> FirstEscaping(AllTargets(apis, order), Escaping(outcome)).Some?
      ensures propagated.None? || propagated.value == JvmError
    {
      var escapes := Escaping(outcome);
      calls, propagated := [], None;
      var i := 0;
      while i < |order|
        invariant 0 <= i <= |order|
        invariant calls == AllTargets(apis, order[..i])
        invariant FirstEscaping(calls, escapes).None?
      {
        var closed, thrown := apis[order[i]].Close(outcome);
        AllTargetsStep(apis, order, i);
        AllTargetsPrefix(apis, order, i + 1);
        AttemptedGroup(calls, apis[order[i]].CloseTargets(), AllTargets(apis, order), escapes);
        if thrown.Some? {
          return calls + closed, thrown;
        }
        calls := calls + closed;
        i := i + 1;
      }
      assert order[..i] == order;
    }
  }

  /** What closing the APIs in `order` closes, API after API. */
  ghost function AllTargets(apis: map<int, ApiImpl>, order: seq<int>): seq<CloseCall>
    requires forall i | 0 <= i < |order| :: order[i] in apis
    reads apis.Values
  {
    if order == [] then []
    else AllTargets(apis, order[..|order| - 1]) + apis[order[|order| - 1]].CloseTargets()
  }

  /** Closing one more API of `order` appends that API's targets. */
  lemma AllTargetsStep(apis: map<int, ApiImpl>, order: seq<int>, i: nat)
    requires i < |order|
    requires forall k | 0 <= k < |order| :: order[k] in apis
    ensures AllTargets(apis, order[..i + 1]) == AllTargets(apis, order[..i]) + apis[order[i]].CloseTargets()
  {
    assert order[..i + 1][..i] == order[..i];
  }

  /** What closing a first part of `order` closes comes first in what closing all of it closes. */
  lemma {:induction false} AllTargetsPrefix(apis: map<int, ApiImpl>, order: seq<int>, i: nat)
    requires i <= |order|
    requires forall k | 0 <= k < |order| :: order[k] in apis
    ensures AllTargets(apis, order[..i]) <= AllTargets(apis, order)
    decreases |order|
  {
    if i == |order| {
      assert order[..i] == order;
    } else {
      var prefix := order[..|order| - 1];
      AllTargetsPrefix(apis, prefix, i);
      assert prefix[..i] == order[..i];
    }
  }

  /** Different threads get different APIs. */
  lemma DistinctThreadsGetDistinctApis(m: ApiManager, t1: int, t2: int)
    requires m.Valid() && t1 in m.apis && t2 in m.apis && t1 != t2
    ensures m.apis[t1] != m.apis[t2]
  {
  }
}
