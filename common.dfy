/**
 * Value types shared by every part of the model: optional values (Kotlin's
 * nullable types), results (a value or the exception the source throws), the
 * closed set of browser engines, the kinds of throwable the source catches or
 * lets through, and a loop of `close()` calls that stops at the first
 * throwable that is not caught.
 */
module Common {

  /** A Kotlin `T?`: absent (`null`) or present. */
  datatype Option<+T> = None | Some(value: T)

  /** The outcome of an operation that either returns a value or throws. */
  datatype Result<+T, +E> = Success(value: T) | Failure(error: E)

  /**
   * The browser engines: `ContainerApi.PlaywrightBrowserType` of the container
   * and the engines named by the `RequiresChromium`, `RequiresFirefox` and
   * `RequiresWebkit` marker annotations.
   */
  datatype Engine = Chromium | Firefox | Webkit

  /** The name under which an engine travels in a launch request. */
  function EngineName(e: Engine): (name: string)
    ensures |name| >= 6
  {
    match e
    case Chromium => "CHROMIUM"
    case Firefox => "FIREFOX"
    case Webkit => "WEBKIT"
  }

  /**
   * What a foreign call may throw, as far as the source's `catch` clauses
   * tell them apart: Playwright's `PlaywrightException`, any other
   * `Exception`, and a JVM `Error` (which no `catch (e: Exception)` catches).
   */
  datatype Throwable = PlaywrightException | OtherException | JvmError

  /** The outcome of a foreign `close()` call. */
  datatype CloseOutcome = Closed | Threw(thrown: Throwable)

  /**
   * The position of the first element whose `close()` lets a throwable
   * escape, if any.
   */
  function FirstEscaping<T>(xs: seq<T>, escapes: T -> bool): (r: Option<nat>)
    ensures r.None? <==> forall j | 0 <= j < |xs| :: !escapes(xs[j])
    ensures r.Some? ==> r.value < |xs| && escapes(xs[r.value])
    ensures r.Some? ==> forall j | 0 <= j < r.value :: !escapes(xs[j])
  {
    if xs == [] then None
    else if escapes(xs[0]) then Some(0)
    else
      match FirstEscaping(xs[1..], escapes)
      case None => None
      case Some(k) => Some(k + 1)
  }

  /**
   * The elements a `forEach { it.close() }` reaches: all of them when no
   * throwable escapes, otherwise those up to and including the first one
   * whose throwable escapes.
   */
  function Attempted<T>(xs: seq<T>, escapes: T -> bool): (tried: seq<T>)
  {
    match FirstEscaping(xs, escapes)
    case None => xs
    case Some(k) => xs[..k + 1]
  }

  /**
   * `xs.forEach { it.close() }`: `close()` on each element in order; a
   * throwable that escapes ends the loop. Returns the elements closed and
   * the position of the one that threw.
   */
  method TryInOrder<T>(xs: seq<T>, escapes: T -> bool) returns (tried: seq<T>, escaped: Option<nat>)
    ensures tried == Attempted(xs, escapes)
    ensures escaped == FirstEscaping(xs, escapes)
  {
    tried, escaped := [], None;
    var i := 0;
    while i < |xs|
      invariant 0 <= i <= |xs|
      invariant tried == xs[..i]
      invariant forall j | 0 <= j < i :: !escapes(xs[j])
    {
      tried := tried + [xs[i]];
      if escapes(xs[i]) {
        escaped := Some(i);
        return;
      }
      i := i + 1;
    }
    assert xs[..i] == xs;
  }

  /** The first escaping position is determined by the elements before it. */
  lemma FirstEscapingAt<T>(xs: seq<T>, escapes: T -> bool, k: nat)
    requires k < |xs| && escapes(xs[k])
    requires forall j | 0 <= j < k :: !escapes(xs[j])
    ensures FirstEscaping(xs, escapes) == Some(k)
  {
  }

  /**
   * Closing `a` and then `b` in one loop reaches what closing `a` reaches,
   * followed by what closing `b` reaches when nothing in `a` escaped.
   */
  lemma AttemptedConcat<T>(a: seq<T>, b: seq<T>, escapes: T -> bool)
    ensures FirstEscaping(a + b, escapes).Some? <==>
              FirstEscaping(a, escapes).Some? || FirstEscaping(b, escapes).Some?
    ensures FirstEscaping(a, escapes).Some? ==>
              && FirstEscaping(a + b, escapes) == FirstEscaping(a, escapes)
              && Attempted(a + b, escapes) == Attempted(a, escapes)
    ensures FirstEscaping(a, escapes).None? ==> Attempted(a + b, escapes) == a + Attempted(b, escapes)
  {
    var ab := a + b;
    match FirstEscaping(a, escapes)
    case Some(k) =>
      FirstEscapingAt(ab, escapes, k);
      assert ab[..k + 1] == a[..k + 1];
    case None =>
      match FirstEscaping(b, escapes)
      case Some(k) =>
        assert ab[|a| + k] == b[k];
        FirstEscapingAt(ab, escapes, |a| + k);
        assert ab[..|a| + k + 1] == a + b[..k + 1];
      case None =>
        assert forall j | 0 <= j < |ab| :: !escapes(ab[j]) by {
          forall j | 0 <= j < |ab| ensures !escapes(ab[j]) {
            if j < |a| {
              assert ab[j] == a[j];
            } else {
              assert ab[j] == b[j - |a|];
            }
          }
        }
  }

  /**
   * One more `close()` after calls that all succeeded: if it throws past the
   * catch, the loop ends there whatever follows; otherwise nothing has
   * escaped yet.
   */
  lemma AttemptedStep<T>(done: seq<T>, x: T, rest: seq<T>, escapes: T -> bool)
    requires FirstEscaping(done, escapes).None?
    ensures escapes(x) ==> FirstEscaping(done + [x] + rest, escapes) == Some(|done|)
    ensures escapes(x) ==> Attempted(done + [x] + rest, escapes) == done + [x]
    ensures !escapes(x) ==> FirstEscaping(done + [x], escapes).None?
  {
    var xs := done + [x] + rest;
    if escapes(x) {
      assert xs[|done|] == x;
      assert forall j | 0 <= j < |done| :: xs[j] == done[j];
      FirstEscapingAt(xs, escapes, |done|);
      assert xs[..|done| + 1] == done + [x];
    } else {
      var ys := done + [x];
      assert forall j | 0 <= j < |ys| :: ys[j] == if j < |done| then done[j] else x;
    }
  }

  /** Once a prefix has a `close()` that escapes, what follows it is never reached. */
  lemma AttemptedPrefix<T>(a: seq<T>, xs: seq<T>, escapes: T -> bool)
    requires a <= xs && FirstEscaping(a, escapes).Some?
    ensures FirstEscaping(xs, escapes) == FirstEscaping(a, escapes)
    ensures Attempted(xs, escapes) == Attempted(a, escapes)
  {
    var k := FirstEscaping(a, escapes).value;
    assert forall j | 0 <= j <= k :: xs[j] == a[j];
    FirstEscapingAt(xs, escapes, k);
    assert xs[..k + 1] == a[..k + 1];
  }

  /**
   * A loop over groups: after groups `done` that all succeeded, closing the
   * next group `next` of the whole sequence `xs` either ends the whole loop
   * at the same place, or leaves nothing escaped so far.
   */
  lemma AttemptedGroup<T>(done: seq<T>, next: seq<T>, xs: seq<T>, escapes: T -> bool)
    requires done + next <= xs && FirstEscaping(done, escapes).None?
    ensures FirstEscaping(next, escapes).Some? ==>
              && FirstEscaping(xs, escapes).Some?
              && Attempted(xs, escapes) == done + Attempted(next, escapes)
    ensures FirstEscaping(next, escapes).None? ==>
              Attempted(next, escapes) == next && FirstEscaping(done + next, escapes).None?
  {
    AttemptedConcat(done, next, escapes);
    if FirstEscaping(next, escapes).Some? {
      AttemptedPrefix(done + next, xs, escapes);
    }
  }
}
