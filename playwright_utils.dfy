/**
 * PlaywrightUtils.kt: detection of the Playwright version on the classpath
 * from the JAR manifests, and the `safeClose` helpers that log and swallow
 * every `Exception` of a `close()` call.
 */
module PlaywrightUtils {
  import opened Common

  /** The main attributes of a `META-INF/MANIFEST.MF` that the detection reads. */
  datatype Manifest = Manifest(implementationTitle: Option<string>, implementationVersion: Option<string>)

  /**
   * One step of the scan over the classpath's manifests: a manifest that was
   * read, or an exception while enumerating, opening or reading one.
   */
  datatype ManifestRead = Read(manifest: Manifest) | ReadFailed

  /** The title of the Playwright Java client's main JAR. */
  const MainLibraryTitle: string := "Playwright - Main Library"

  /** The version a manifest contributes: its version, when it is titled as the main library and has one. */
  function Contribution(m: Manifest): (v: Option<string>)
    ensures v.Some? <==> m.implementationTitle == Some(MainLibraryTitle) && m.implementationVersion.Some?
    ensures v.Some? ==> v == m.implementationVersion
  {
    if m.implementationTitle == Some(MainLibraryTitle) then m.implementationVersion else None
  }

  /** How many manifests the scan reads before the first failure (all of them if none fails). */
  function Scanned(scan: seq<ManifestRead>): (n: nat)
    ensures n <= |scan|
    ensures forall i | 0 <= i < n :: scan[i].Read?
    ensures n < |scan| ==> scan[n].ReadFailed?
  {
    if scan == [] || scan[0].ReadFailed? then 0 else 1 + Scanned(scan[1..])
  }

  /** The versions contributed by the manifests the scan reads. */
  ghost function Versions(scan: seq<ManifestRead>): set<string>
  {
    set i | 0 <= i < Scanned(scan) && Contribution(scan[i].manifest).Some? :: Contribution(scan[i].manifest).value
  }

  /** `playwrightVersions`: insertion-ordered and without repeats, like the `mutableSetOf` it models. */
  predicate NoRepeats(versions: seq<string>)
  {
    forall i, j | 0 <= i < j < |versions| :: versions[i] != versions[j]
  }

  /**
   * The decision after the scan: `null` for no version and for several
   * versions, otherwise the only one.
   */
  function Decide(versions: seq<string>): (r: Option<string>)
    requires NoRepeats(versions)
    ensures r.Some? <==> |versions| == 1
    ensures r.Some? ==> versions == [r.value]
  {
    if |versions| == 0 then None
    else if |versions| > 1 then None
    else Some(versions[0])
  }

  /**
   * `getPlaywrightVersionOnClasspath`: the `while` loop over the manifests adds
   * every contributed version to the set; an exception ends the scan but keeps
   * what was collected. The result is the version when exactly one distinct
   * version was collected, and `null` otherwise.
   */
  method GetPlaywrightVersionOnClasspath(scan: seq<ManifestRead>) returns (r: Option<string>)
    ensures r.Some? ==> Versions(scan) == {r.value}
    ensures r.None? ==> Versions(scan) == {} || exists a, b :: a in Versions(scan) && b in Versions(scan) && a != b
  {
    var versions: seq<string> := [];
    var i := 0;
    while i < |scan| && scan[i].Read?
      invariant 0 <= i <= Scanned(scan)
      invariant NoRepeats(versions)
      invariant forall v :: v in versions <==> exists k :: 0 <= k < i && Contribution(scan[k].manifest) == Some(v)
    {
      var c := Contribution(scan[i].manifest);
      if c.Some? && c.value !in versions {
        versions := versions + [c.value];
      }
      i := i + 1;
    }
    assert i == Scanned(scan);
    assert forall v :: v in versions <==> v in Versions(scan);
    r := Decide(versions);
    if r.None? && |versions| > 1 {
      assert versions[0] in Versions(scan) && versions[1] in Versions(scan);
    }
  }

  /** A version repeated by any number of manifests is still one version. */
  lemma RepeatedVersionIsOneVersion(m: Manifest, n: nat)
    requires Contribution(m).Some? && n >= 1
    ensures Versions(seq(n, _ => Read(m))) == {Contribution(m).value}
  {
    var scan := seq(n, _ => Read(m));
    ScannedAllRead(scan);
    assert Contribution(scan[0].manifest) == Contribution(m);
  }

  /** Nothing after a failed read is scanned. */
  lemma FailureEndsScan(before: seq<ManifestRead>, after: seq<ManifestRead>)
    requires forall i | 0 <= i < |before| :: before[i].Read?
    ensures Versions(before + [ReadFailed] + after) == Versions(before)
  {
    ScannedAllRead(before);
    ScannedPrefix(before, [ReadFailed] + after);
    assert before + [ReadFailed] + after == before + ([ReadFailed] + after);
    var whole := before + ([ReadFailed] + after);
    assert forall i | 0 <= i < |before| :: whole[i] == before[i];
  }

  /** Two main-library manifests with different versions make the detection fail. */
  lemma TwoVersionsAreAmbiguous(m1: Manifest, m2: Manifest, rest: seq<ManifestRead>)
    requires Contribution(m1).Some? && Contribution(m2).Some? && Contribution(m1) != Contribution(m2)
    ensures exists a, b :: a in Versions([Read(m1), Read(m2)] + rest) && b in Versions([Read(m1), Read(m2)] + rest) && a != b
  {
    var scan := [Read(m1), Read(m2)] + rest;
    assert Scanned(scan) >= 2 by {
      assert scan[1..] == [Read(m2)] + rest;
      assert scan[1..][1..] == rest;
    }
    assert Contribution(m1).value in Versions(scan) by {
      assert Contribution(scan[0].manifest) == Some(Contribution(m1).value);
    }
    assert Contribution(m2).value in Versions(scan) by {
      assert Contribution(scan[1].manifest) == Some(Contribution(m2).value);
    }
  }

  lemma {:induction false} ScannedAllRead(scan: seq<ManifestRead>)
    requires forall i | 0 <= i < |scan| :: scan[i].Read?
    ensures Scanned(scan) == |scan|
  {
    if scan != [] {
      ScannedAllRead(scan[1..]);
    }
  }

  lemma {:induction false} ScannedPrefix(before: seq<ManifestRead>, after: seq<ManifestRead>)
    requires forall i | 0 <= i < |before| :: before[i].Read?
    requires after != [] && after[0].ReadFailed?
    ensures Scanned(before + after) == |before|
  {
    if before == [] {
      assert before + after == after;
    } else {
      assert (before + after)[1..] == before[1..] + after;
      ScannedPrefix(before[1..], after);
    }
  }

  /**
   * `Browser.safeClose` and `Playwright.safeClose`: `close()`, with every
   * `Exception` logged and swallowed; only a JVM `Error` propagates.
   */
  function SafeClose(outcome: CloseOutcome): (propagated: Option<Throwable>)
    ensures propagated.Some? ==> outcome == Threw(propagated.value)
    ensures propagated.None? || propagated.value == JvmError
    ensures outcome == Threw(JvmError) ==> propagated == Some(JvmError)
  {
    match outcome
    case Threw(JvmError) => Some(JvmError)
    case _ => None
  }
}
