/** The data-disk difference helper of the snapshot workflow: the resources of one
    list that do not occur in another, kept in the first list's order and with its
    duplicates. Resources are compared by value, so the element type only needs
    equality. */
module DataDiskDifference {

  /** Specification: the elements of `a` that do not occur in `b`, in `a`'s order.
      It is written from the back, one (possible) append per element of `a`, which
      is how the helper's second loop builds its output. */
  function Difference<T(==)>(a: seq<T>, b: seq<T>): (r: seq<T>)
    ensures |r| <= |a|
  {
    if a == [] then []
    else
      var x := a[|a| - 1];
      Difference(a[..|a| - 1], b) + (if x in b then [] else [x])
  }

  /** The helper itself: a first loop records every element of `b` in a membership
      map, a second loop walks `a` and appends each element the map does not hold. */
  method DifferenceDataDisks<T(==)>(a: seq<T>, b: seq<T>) returns (diff: seq<T>)
    ensures diff == Difference(a, b)
  {
    var mb: map<T, ()> := map[];
    for j := 0 to |b|
      invariant mb.Keys == set x | x in b[..j]
    {
      assert b[..j + 1] == b[..j] + [b[j]];
      mb := mb[b[j] := ()];
    }
    assert b[..|b|] == b;
    diff := [];
    for i := 0 to |a|
      invariant diff == Difference(a[..i], b)
    {
      assert a[..i + 1][..i] == a[..i];
      if a[i] !in mb {
        diff := diff + [a[i]];
      }
    }
    assert a[..|a|] == a;
  }

  /** Splitting `a` anywhere splits the difference in the same place: the result
      keeps the relative order of `a`. */
  lemma {:induction false} DifferenceAppend<T>(a1: seq<T>, a2: seq<T>, b: seq<T>)
    ensures Difference(a1 + a2, b) == Difference(a1, b) + Difference(a2, b)
    decreases |a2|
  {
    if a2 == [] {
      assert a1 + a2 == a1;
    } else {
      var init, x := a2[..|a2| - 1], a2[|a2| - 1];
      assert (a1 + a2)[..|a1 + a2| - 1] == a1 + init;
      assert (a1 + a2)[|a1 + a2| - 1] == x;
      DifferenceAppend(a1, init, b);
    }
  }

  /** The same function read from the front: an element of `a` is kept exactly when
      it does not occur in `b`, and the rest is filtered alike. */
  lemma DifferenceCons<T>(x: T, a: seq<T>, b: seq<T>)
    ensures Difference([x] + a, b) == (if x in b then [] else [x]) + Difference(a, b)
  {
    var single := [x];
    assert single[..|single| - 1] == [] && single[|single| - 1] == x;
    assert Difference(single, b) == (if x in b then [] else [x]);
    DifferenceAppend(single, a, b);
  }

  /** An element is in the result exactly when it is in `a` and not in `b`. */
  lemma {:induction false} DifferenceMembership<T>(a: seq<T>, b: seq<T>, x: T)
    ensures x in Difference(a, b) <==> x in a && x !in b
  {
    if a != [] {
      var init := a[..|a| - 1];
      assert a == init + [a[|a| - 1]];
      DifferenceMembership(init, b, x);
    }
  }

  /** Multiplicities: an element of `b` never occurs in the result, and every other
      element occurs as often as in `a` (duplicates of `a` are all kept). */
  lemma {:induction false} DifferenceCount<T>(a: seq<T>, b: seq<T>, x: T)
    ensures multiset(Difference(a, b))[x] == if x in b then 0 else multiset(a)[x]
  {
    if a != [] {
      var init, last := a[..|a| - 1], a[|a| - 1];
      assert a == init + [last];
      DifferenceCount(init, b, x);
    }
  }

  /** `idx` lists, in strictly increasing order, exactly the positions of `a` whose
      element does not occur in `b`, and `r` holds the elements at those positions. */
  ghost predicate SelectsPositionsNotIn<T>(idx: seq<nat>, r: seq<T>, a: seq<T>, b: seq<T>)
  {
    && |idx| == |r|
    && (forall k :: 0 <= k < |idx| ==> idx[k] < |a| && a[idx[k]] !in b && r[k] == a[idx[k]])
    && (forall k, l :: 0 <= k < l < |idx| ==> idx[k] < idx[l])
    && (forall j :: 0 <= j < |a| && a[j] !in b ==> j in idx)
  }

  /** The result is the subsequence of `a` made of all positions not filtered out:
      it is disjoint from `b`, a subsequence of `a`, in `a`'s order, and misses no
      occurrence of an element absent from `b`. */
  lemma {:induction false} DifferenceSelectsPositions<T>(a: seq<T>, b: seq<T>)
    returns (idx: seq<nat>)
    ensures SelectsPositionsNotIn(idx, Difference(a, b), a, b)
  {
    if a == [] {
      idx := [];
    } else {
      var n := |a| - 1;
      var prev := DifferenceSelectsPositions(a[..n], b);
      idx := SelectionExtends(prev, Difference(a[..n], b), a[..n], a[n], b);
      assert a[..n] + [a[n]] == a;
    }
  }

  /** One step of DifferenceSelectsPositions: appending `x` to `init` keeps the
      selection, extended by the new last position when `x` is not in `b`. */
  lemma SelectionExtends<T>(prev: seq<nat>, r: seq<T>, init: seq<T>, x: T, b: seq<T>)
    returns (idx: seq<nat>)
    requires SelectsPositionsNotIn(prev, r, init, b)
    ensures SelectsPositionsNotIn(idx, r + (if x in b then [] else [x]), init + [x], b)
  {
    var a, n := init + [x], |init|;
    assert forall k :: 0 <= k < |prev| ==> prev[k] < n && a[prev[k]] == init[prev[k]];
    assert forall j :: 0 <= j < n ==> a[j] == init[j];
    if x in b {
      idx := prev;
      assert r + [] == r;
    } else {
      idx := prev + [n];
      var r2 := r + [x];
      forall k | 0 <= k < |idx|
        ensures idx[k] < |a| && a[idx[k]] !in b && r2[k] == a[idx[k]]
      {
        if k < |prev| { assert idx[k] == prev[k]; }
      }
      forall j | 0 <= j < |a| && a[j] !in b
        ensures j in idx
      {
        if j < n { assert j in prev; }
      }
    }
  }

  /** Nothing to subtract leaves `a` unchanged; nothing to filter gives nothing. */
  lemma {:induction false} DifferenceEdgeCases<T>(a: seq<T>, b: seq<T>)
    ensures Difference(a, []) == a
    ensures Difference([], b) == []
  {
    if a != [] {
      var init := a[..|a| - 1];
      DifferenceEdgeCases(init, b);
      assert a == init + [a[|a| - 1]];
    }
  }

  /** Disks present after a snapshot that were not present before it: the set the
      dormant reconciliation step means to register. */
  function NewDataDisks<T(==,!new)>(before: seq<T>, after: seq<T>): (r: seq<T>)
    ensures forall d :: d in r <==> d in after && d !in before
  {
    var r := Difference(after, before);
    assert forall d :: d in r <==> d in after && d !in before by {
      forall d ensures d in r <==> d in after && d !in before {
        DifferenceMembership(after, before, d);
      }
    }
    r
  }

  /** The reconciliation step's intended result keeps every occurrence a new disk has
      in `after`, and holds nothing that was already there. */
  lemma NewDataDisksExact<T(!new)>(before: seq<T>, after: seq<T>, d: T)
    ensures d in NewDataDisks(before, after) <==> d in after && d !in before
    ensures d !in before ==> multiset(NewDataDisks(before, after))[d] == multiset(after)[d]
  {
    DifferenceMembership(after, before, d);
    DifferenceCount(after, before, d);
  }

  /** The disabled call site passes the lists as (before, after), which yields the
      disks that disappeared, not the ones that appeared. */
  function NewDataDisksAsWritten<T(==,!new)>(before: seq<T>, after: seq<T>): (r: seq<T>)
    ensures forall d :: d in r <==> d in before && d !in after
  {
    var r := Difference(before, after);
    assert forall d :: d in r <==> d in before && d !in after by {
      forall d ensures d in r <==> d in before && d !in after {
        DifferenceMembership(before, after, d);
      }
    }
    r
  }

  /** A disk created by the snapshot is missed by the call as written, and a disk that
      disappeared is reported as new. */
  lemma AsWrittenCallMissesNewDisk<T(!new)>(d: T)
    ensures d !in NewDataDisksAsWritten([], [d]) && d in NewDataDisks([], [d])
    ensures NewDataDisksAsWritten([d], []) == [d] && NewDataDisks([d], []) == []
  {
  }
}
