/**
 * AnnotationsUtils.kt: finding an annotation on a class, method or parameter,
 * either declared on it directly or reachable through meta-annotations (an
 * annotation class that is itself annotated), with a depth-first search that
 * keeps a visited set so that cyclic annotation graphs terminate.
 */
module Annotations {
  import opened Common

  /** An annotation class, named by its qualified class name. */
  type AnnType = string

  /**
   * The annotations declared on each annotation class, in declaration order;
   * an annotation class that is not a key carries no annotations.
   */
  type Graph = map<AnnType, seq<AnnType>>

  /** A class, a method or a parameter: the annotations declared on it, in order. */
  datatype Element = Element(annotations: seq<AnnType>)

  /** Where an annotation instance is declared: on the element itself or on an annotation class. */
  datatype Site = OnElement | OnType(owner: AnnType)

  /** An annotation instance: its annotation class and the place that declares it. */
  datatype Instance = Instance(annotationClass: AnnType, site: Site)

  /** The annotations declared on annotation class `t`. */
  function Children(g: Graph, t: AnnType): seq<AnnType>
  {
    if t in g then g[t] else []
  }

  /** Every annotation declared on a member of `U` is itself in `U`. */
  ghost predicate Closed(g: Graph, U: set<AnnType>)
  {
    forall t, i | t in U && 0 <= i < |Children(g, t)| :: Children(g, t)[i] in U
  }

  ghost predicate AllIn(anns: seq<AnnType>, U: set<AnnType>)
  {
    forall i | 0 <= i < |anns| :: anns[i] in U
  }

  /** All annotation classes a search from `roots` can meet. */
  ghost function Universe(g: Graph, roots: seq<AnnType>): (U: set<AnnType>)
    ensures Closed(g, U) && AllIn(roots, U)
  {
    var U := (set i | 0 <= i < |roots| :: roots[i]) + g.Keys + (set t, c | t in g && c in g[t] :: c);
    assert Closed(g, U) by {
      forall t, i | t in U && 0 <= i < |Children(g, t)| ensures Children(g, t)[i] in U {
        assert g[t][i] in g[t];
      }
    }
    U
  }

  /** `p` is a chain of "is annotated with" steps: each entry is declared on the one before. */
  ghost predicate IsChain(g: Graph, p: seq<AnnType>)
  {
    forall i | 0 <= i < |p| - 1 :: p[i + 1] in Children(g, p[i])
  }

  /**
   * `a` is declared on one of `roots` or reachable from one of them through a
   * chain of meta-annotations.
   */
  ghost predicate Reachable(g: Graph, roots: seq<AnnType>, a: AnnType)
  {
    exists p :: |p| >= 1 && IsChain(g, p) && p[0] in roots && p[|p| - 1] == a
  }

  /** What a search returns: the instance found, the visited set afterwards, and the classes it descended into. */
  datatype Outcome = Outcome(found: Option<Instance>, visited: set<AnnType>, explored: seq<AnnType>)

  /**
   * The depth-first search of `findMetaAnnotation` as a function: the
   * annotations `anns` (declared at `site`) are examined in order; a match is
   * returned at once, otherwise the search descends into the annotation's
   * class if that class can still be added to `visited`.
   */
  function Search(g: Graph, ghost U: set<AnnType>, anns: seq<AnnType>, site: Site, a: AnnType,
                  visited: set<AnnType>): (o: Outcome)
    requires Closed(g, U) && AllIn(anns, U)
    ensures visited <= o.visited
    decreases |U - visited|, |anns|
  {
    if anns == [] then Outcome(None, visited, [])
    else if anns[0] == a then Outcome(Some(Instance(a, site)), visited, [])
    else if anns[0] in visited then Search(g, U, anns[1..], site, a, visited)
    else
      var x := anns[0];
      StrictSubsetCard(U - (visited + {x}), U - visited, x);
      var inner := Search(g, U, Children(g, x), OnType(x), a, visited + {x});
      if inner.found.Some? then Outcome(inner.found, inner.visited, [x] + inner.explored)
      else
        SubsetCard(U - inner.visited, U - visited);
        var rest := Search(g, U, anns[1..], site, a, inner.visited);
        Outcome(rest.found, rest.visited, [x] + inner.explored + rest.explored)
  }

  /**
   * `findMetaAnnotation`: the loop over `anns`, declared at `site`, with the
   * shared visited set passed in and handed back. It returns the instance the
   * depth-first search finds, if any, and the visited set it leaves behind.
   */
  method FindMetaAnnotation(g: Graph, ghost U: set<AnnType>, anns: seq<AnnType>, site: Site, a: AnnType,
                            visited: set<AnnType>)
    returns (r: Option<Instance>, visitedOut: set<AnnType>)
    requires Closed(g, U) && AllIn(anns, U)
    ensures r == Search(g, U, anns, site, a, visited).found
    ensures visitedOut == Search(g, U, anns, site, a, visited).visited
    ensures r.Some? ==> r.value.annotationClass == a
    decreases |U - visited|
  {
    r, visitedOut := None, visited;
    var i := 0;
    while i < |anns|
      invariant 0 <= i <= |anns|
      invariant visited <= visitedOut
      invariant Search(g, U, anns, site, a, visited).found == Search(g, U, anns[i..], site, a, visitedOut).found
      invariant Search(g, U, anns, site, a, visited).visited == Search(g, U, anns[i..], site, a, visitedOut).visited
    {
      var annotation := anns[i];
      assert anns[i..][1..] == anns[i + 1..];
      if annotation == a {
        return Some(Instance(a, site)), visitedOut;
      }
      if annotation !in visitedOut {
        StrictSubsetCard(U - (visitedOut + {annotation}), U - visited, annotation);
        var nextResult, nextVisited := FindMetaAnnotation(g, U, Children(g, annotation), OnType(annotation), a,
                                                          visitedOut + {annotation});
        if nextResult.Some? {
          return nextResult, nextVisited;
        }
        visitedOut := nextVisited;
      }
      i := i + 1;
    }
  }

  /**
   * `getAnnotation`: the annotation declared directly on the element if there
   * is one, otherwise the first one the meta-annotation search finds.
   */
  function Lookup(g: Graph, e: Element, a: AnnType): (r: Option<Instance>)
    ensures a in e.annotations ==> r == Some(Instance(a, OnElement))
    ensures r.Some? ==> r.value.annotationClass == a
  {
    if a in e.annotations then Some(Instance(a, OnElement))
    else
      SearchSound(g, Universe(g, e.annotations), e.annotations, OnElement, a, {});
      Search(g, Universe(g, e.annotations), e.annotations, OnElement, a, {}).found
  }

  /** `findAnnotation`: the annotation of class `a` declared directly on the element. */
  function FindAnnotation(e: Element, a: AnnType): (r: Option<Instance>)
    ensures r.Some? <==> a in e.annotations
    ensures r.Some? ==> r.value == Instance(a, OnElement)
  {
    if a in e.annotations then Some(Instance(a, OnElement)) else None
  }

  /** `getAnnotation(element, annotationClass)`. */
  method GetAnnotation(g: Graph, e: Element, a: AnnType) returns (r: Option<Instance>)
    ensures r == Lookup(g, e, a)
    ensures r.Some? <==> Reachable(g, e.annotations, a)
    ensures r.Some? ==> r.value.annotationClass == a
  {
    r := FindAnnotation(e, a);
    if r.None? {
      ghost var U := Universe(g, e.annotations);
      var visitedAfter;
      r, visitedAfter := FindMetaAnnotation(g, U, e.annotations, OnElement, a, {});
    }
    LookupReachable(g, e, a);
  }

  /** `hasAnnotation(element, annotationClass)`: direct lookup, otherwise meta search. */
  method HasAnnotation(g: Graph, e: Element, a: AnnType) returns (b: bool)
    ensures b == Lookup(g, e, a).Some?
    ensures b <==> Reachable(g, e.annotations, a)
  {
    b := FindAnnotation(e, a).Some?;
    if !b {
      ghost var U := Universe(g, e.annotations);
      var meta, visitedAfter := FindMetaAnnotation(g, U, e.annotations, OnElement, a, {});
      b := meta.Some?;
    }
    LookupReachable(g, e, a);
  }

  /**
   * The lookup is sound and complete: it finds an instance exactly when `a`
   * is declared on the element or reachable through meta-annotations, the
   * instance found is of class `a`, and a direct declaration wins.
   */
  lemma LookupReachable(g: Graph, e: Element, a: AnnType)
    ensures Lookup(g, e, a).Some? <==> Reachable(g, e.annotations, a)
    ensures Lookup(g, e, a).Some? ==> Lookup(g, e, a).value.annotationClass == a
    ensures a in e.annotations ==> Lookup(g, e, a) == Some(Instance(a, OnElement))
  {
    var U := Universe(g, e.annotations);
    if a in e.annotations {
      var p := [a];
      assert IsChain(g, p) && p[0] in e.annotations;
    } else {
      SearchFindsExactlyReachable(g, U, e.annotations, OnElement, a);
    }
  }

  /** A search started with an empty visited set finds `a` exactly when `a` is reachable. */
  lemma SearchFindsExactlyReachable(g: Graph, U: set<AnnType>, roots: seq<AnnType>, site: Site, a: AnnType)
    requires Closed(g, U) && AllIn(roots, U)
    ensures Search(g, U, roots, site, a, {}).found.Some? <==> Reachable(g, roots, a)
    ensures Search(g, U, roots, site, a, {}).found.Some? ==>
              Search(g, U, roots, site, a, {}).found.value.annotationClass == a
  {
    var o := Search(g, U, roots, site, a, {});
    SearchSound(g, U, roots, site, a, {});
    SearchExhaustive(g, U, roots, site, a, {});
    if o.found.None? && Reachable(g, roots, a) {
      var p :| |p| >= 1 && IsChain(g, p) && p[0] in roots && p[|p| - 1] == a;
      ChainAvoids(g, a, p, o.visited);
      assert false;
    }
  }

  /**
   * A chain that starts inside a set closed under "declares", none of whose
   * members declares `a`, never ends at `a`.
   */
  lemma {:induction false} ChainAvoids(g: Graph, a: AnnType, p: seq<AnnType>, V: set<AnnType>)
    requires |p| >= 1 && IsChain(g, p) && p[0] in V && p[0] != a
    requires forall v | v in V :: a !in Children(g, v) && AllIn(Children(g, v), V)
    ensures p[|p| - 1] != a
  {
    if |p| > 1 {
      assert p[1] in Children(g, p[0]);
      assert IsChain(g, p[1..]) by {
        forall i | 0 <= i < |p[1..]| - 1 ensures p[1..][i + 1] in Children(g, p[1..][i]) {
          assert p[i + 2] in Children(g, p[i + 1]);
        }
      }
      ChainAvoids(g, a, p[1..], V);
    }
  }

  /** Reachability from a sub-list carries over to the whole list. */
  lemma ReachableFromPart(g: Graph, anns: seq<AnnType>, part: seq<AnnType>, a: AnnType)
    requires forall x | x in part :: x in anns
    requires Reachable(g, part, a)
    ensures Reachable(g, anns, a)
  {
    var p :| |p| >= 1 && IsChain(g, p) && p[0] in part && p[|p| - 1] == a;
    assert p[0] in anns;
  }

  /** What is reachable from the annotations declared on `x` is reachable from any list holding `x`. */
  lemma ReachableThrough(g: Graph, anns: seq<AnnType>, x: AnnType, a: AnnType)
    requires x in anns && Reachable(g, Children(g, x), a)
    ensures Reachable(g, anns, a)
  {
    var p :| |p| >= 1 && IsChain(g, p) && p[0] in Children(g, x) && p[|p| - 1] == a;
    var q := [x] + p;
    assert IsChain(g, q) by {
      forall i | 0 <= i < |q| - 1 ensures q[i + 1] in Children(g, q[i]) {
        if i > 0 { assert q[i + 1] == p[i] && q[i] == p[i - 1]; }
      }
    }
    assert q[0] in anns && q[|q| - 1] == a;
  }

  /** Soundness: whatever the search finds is an instance of `a`, and `a` is reachable. */
  lemma {:induction false} SearchSound(g: Graph, U: set<AnnType>, anns: seq<AnnType>, site: Site, a: AnnType,
                                       visited: set<AnnType>)
    requires Closed(g, U) && AllIn(anns, U)
    ensures Search(g, U, anns, site, a, visited).found.Some? ==>
              Search(g, U, anns, site, a, visited).found.value.annotationClass == a && Reachable(g, anns, a)
    decreases |U - visited|, |anns|
  {
    if anns == [] {
    } else if anns[0] == a {
      var p := [a];
      assert IsChain(g, p) && p[0] in anns;
    } else if anns[0] in visited {
      SearchSound(g, U, anns[1..], site, a, visited);
      if Search(g, U, anns[1..], site, a, visited).found.Some? {
        ReachableFromPart(g, anns, anns[1..], a);
      }
    } else {
      var x := anns[0];
      StrictSubsetCard(U - (visited + {x}), U - visited, x);
      var inner := Search(g, U, Children(g, x), OnType(x), a, visited + {x});
      SearchSound(g, U, Children(g, x), OnType(x), a, visited + {x});
      if inner.found.Some? {
        ReachableThrough(g, anns, x, a);
      } else {
        SubsetCard(U - inner.visited, U - visited);
        SearchSound(g, U, anns[1..], site, a, inner.visited);
        if Search(g, U, anns[1..], site, a, inner.visited).found.Some? {
          ReachableFromPart(g, anns, anns[1..], a);
        }
      }
    }
  }

  /**
   * A search that finds nothing has looked at every annotation of `anns` and
   * fully explored every class it added to the visited set: none of them
   * declares `a`, and everything they declare ends up visited.
   */
  ghost predicate Exhausted(g: Graph, a: AnnType, anns: seq<AnnType>, before: set<AnnType>, after: set<AnnType>)
  {
    && before <= after
    && a !in anns
    && AllIn(anns, after)
    && forall v | v in after && v !in before :: a !in Children(g, v) && AllIn(Children(g, v), after)
  }

  lemma {:induction false} SearchExhaustive(g: Graph, U: set<AnnType>, anns: seq<AnnType>, site: Site, a: AnnType,
                                            visited: set<AnnType>)
    requires Closed(g, U) && AllIn(anns, U)
    ensures Search(g, U, anns, site, a, visited).found.None? ==>
              Exhausted(g, a, anns, visited, Search(g, U, anns, site, a, visited).visited)
    decreases |U - visited|, |anns|
  {
    var o := Search(g, U, anns, site, a, visited);
    if anns == [] || anns[0] == a {
    } else if anns[0] in visited {
      SearchExhaustive(g, U, anns[1..], site, a, visited);
      if o.found.None? {
        ExhaustedSkip(g, a, anns, visited, o.visited);
      }
    } else {
      var x := anns[0];
      StrictSubsetCard(U - (visited + {x}), U - visited, x);
      var inner := Search(g, U, Children(g, x), OnType(x), a, visited + {x});
      SearchExhaustive(g, U, Children(g, x), OnType(x), a, visited + {x});
      if inner.found.None? {
        SubsetCard(U - inner.visited, U - visited);
        SearchExhaustive(g, U, anns[1..], site, a, inner.visited);
        if o.found.None? {
          ExhaustedDescend(g, a, anns, visited, inner.visited, o.visited);
        }
      }
    }
  }

  /** An annotation already visited adds nothing to what the rest of the loop exhausts. */
  lemma ExhaustedSkip(g: Graph, a: AnnType, anns: seq<AnnType>, before: set<AnnType>, after: set<AnnType>)
    requires anns != [] && anns[0] != a && anns[0] in before
    requires Exhausted(g, a, anns[1..], before, after)
    ensures Exhausted(g, a, anns, before, after)
  {
    assert anns == [anns[0]] + anns[1..];
  }

  /**
   * Descending into the first annotation's class and then going on with the
   * rest: the two exhausted parts make the whole loop exhausted.
   */
  lemma ExhaustedDescend(g: Graph, a: AnnType, anns: seq<AnnType>, before: set<AnnType>, mid: set<AnnType>,
                         after: set<AnnType>)
    requires anns != [] && anns[0] != a
    requires Exhausted(g, a, Children(g, anns[0]), before + {anns[0]}, mid)
    requires Exhausted(g, a, anns[1..], mid, after)
    ensures Exhausted(g, a, anns, before, after)
  {
    assert anns == [anns[0]] + anns[1..];
  }

  /** No annotation class appears twice in a sequence. */
  ghost predicate Distinct(s: seq<AnnType>)
  {
    forall i, j | 0 <= i < j < |s| :: s[i] != s[j]
  }

  /**
   * The search descends into each annotation class at most once: the classes
   * it descends into are distinct, and they are exactly the ones it adds to
   * the visited set.
   */
  lemma {:induction false} SearchExploresEachOnce(g: Graph, U: set<AnnType>, anns: seq<AnnType>, site: Site,
                                                  a: AnnType, visited: set<AnnType>)
    requires Closed(g, U) && AllIn(anns, U)
    ensures var o := Search(g, U, anns, site, a, visited);
              Distinct(o.explored) && forall x :: x in o.explored <==> x in o.visited && x !in visited
    decreases |U - visited|, |anns|
  {
    if anns == [] || anns[0] == a {
    } else if anns[0] in visited {
      SearchExploresEachOnce(g, U, anns[1..], site, a, visited);
    } else {
      var x := anns[0];
      StrictSubsetCard(U - (visited + {x}), U - visited, x);
      var inner := Search(g, U, Children(g, x), OnType(x), a, visited + {x});
      SearchExploresEachOnce(g, U, Children(g, x), OnType(x), a, visited + {x});
      DistinctConcat([x], inner.explored);
      if inner.found.None? {
        SubsetCard(U - inner.visited, U - visited);
        var rest := Search(g, U, anns[1..], site, a, inner.visited);
        SearchExploresEachOnce(g, U, anns[1..], site, a, inner.visited);
        DistinctConcat([x] + inner.explored, rest.explored);
      }
    }
  }

  lemma DistinctConcat(s: seq<AnnType>, t: seq<AnnType>)
    requires Distinct(s) && Distinct(t)
    requires forall x | x in s :: x !in t
    ensures Distinct(s + t)
  {
    forall i, j | 0 <= i < j < |s + t| ensures (s + t)[i] != (s + t)[j] {
      if i < |s| && j >= |s| {
        assert (s + t)[i] in s && (s + t)[j] in t;
      }
    }
  }

  lemma StrictSubsetCard(A: set<AnnType>, B: set<AnnType>, x: AnnType)
    requires A <= B && x in B && x !in A
    ensures |A| < |B|
  {
    SubsetCard(A, B - {x});
  }

  lemma SubsetCard(A: set<AnnType>, B: set<AnnType>)
    requires A <= B
    ensures |A| <= |B|
  {
    assert B == A + (B - A);
  }
}
