/** The two calls of Python's sorted() in the writers:
    the primer records by the key (ref, start, end) in write_sanitized_bed
    (viramp_hub/scheme.py:98-104), and the amplicon ids in write_insert_bed
    (viramp_hub/scheme.py:137). sorted() is stable, so records with equal
    keys keep their order; the model sorts record indices by the key and
    breaks ties by the index, which is the same arrangement. */
module Sorting {
  import opened Text
  import opened BedRecords

  // ---------------------------------------------------------------------
  // The record key (ref, start, end), compared as a Python tuple.

  predicate KeyLess(a: Record, b: Record)
  {
    || StrLess(a.ref, b.ref)
    || (a.ref == b.ref && a.primer.start < b.primer.start)
    || (a.ref == b.ref && a.primer.start == b.primer.start && a.primer.end < b.primer.end)
  }

  predicate SameKey(a: Record, b: Record)
  {
    a.ref == b.ref && a.primer.start == b.primer.start && a.primer.end == b.primer.end
  }

  lemma KeyLessIrreflexive(a: Record)
    ensures !KeyLess(a, a)
  {
    StrLessIrreflexive(a.ref);
  }

  lemma KeyLessTransitive(a: Record, b: Record, c: Record)
    requires KeyLess(a, b) && KeyLess(b, c)
    ensures KeyLess(a, c)
  {
    if StrLess(a.ref, b.ref) && StrLess(b.ref, c.ref) {
      StrLessTransitive(a.ref, b.ref, c.ref);
    }
  }

  /** Two keys are equal or ordered one way, and never both ways. */
  lemma KeyTrichotomy(a: Record, b: Record)
    ensures SameKey(a, b) || KeyLess(a, b) || KeyLess(b, a)
    ensures KeyLess(a, b) ==> !KeyLess(b, a) && !SameKey(a, b)
  {
    if a.ref != b.ref {
      StrLessTotal(a.ref, b.ref);
    }
    if StrLess(a.ref, b.ref) {
      StrLessAsymmetric(a.ref, b.ref);
      StrLessIrreflexive(a.ref);
    }
    StrLessIrreflexive(b.ref);
  }

  // ---------------------------------------------------------------------
  // Stable sort of the records, on indices.

  /** Record i comes before record j in the sorted output. */
  predicate Before(recs: seq<Record>, i: nat, j: nat)
    requires i < |recs| && j < |recs|
  {
    KeyLess(recs[i], recs[j]) || (SameKey(recs[i], recs[j]) && i < j)
  }

  predicate IndicesIn(recs: seq<Record>, p: seq<nat>)
  {
    forall k :: 0 <= k < |p| ==> p[k] < |recs|
  }

  predicate SortedBy(recs: seq<Record>, p: seq<nat>)
    requires IndicesIn(recs, p)
  {
    forall a, b :: 0 <= a < b < |p| ==> Before(recs, p[a], p[b])
  }

  /** Where record i goes among the sorted indices p: after every record
      whose key is not greater than its own. */
  function InsertPos(recs: seq<Record>, p: seq<nat>, i: nat): (j: nat)
    requires i < |recs| && IndicesIn(recs, p)
    ensures j <= |p|
    decreases |p|
  {
    if p == [] then 0
    else if KeyLess(recs[i], recs[p[|p| - 1]]) then InsertPos(recs, p[..|p| - 1], i)
    else |p|
  }

  function InsertIndex(recs: seq<Record>, p: seq<nat>, i: nat): (q: seq<nat>)
    requires i < |recs| && IndicesIn(recs, p)
    ensures |q| == |p| + 1 && IndicesIn(recs, q)
  {
    var j := InsertPos(recs, p, i);
    p[..j] + [i] + p[j..]
  }

  /** The first n records sorted, as indices. */
  function SortIndices(recs: seq<Record>, n: nat): (p: seq<nat>)
    requires n <= |recs|
    ensures |p| == n && IndicesIn(recs, p)
    ensures forall k :: 0 <= k < |p| ==> p[k] < n
    decreases n
  {
    if n == 0 then []
    else
      var p0 := SortIndices(recs, n - 1);
      var q := InsertIndex(recs, p0, n - 1);
      assert forall k :: 0 <= k < |q| ==> q[k] in p0 || q[k] == n - 1;
      q
  }

  /** The records at the given indices. */
  function Pick(recs: seq<Record>, p: seq<nat>): (r: seq<Record>)
    requires IndicesIn(recs, p)
    ensures |r| == |p| && forall k :: 0 <= k < |p| ==> r[k] == recs[p[k]]
  {
    seq(|p|, k requires 0 <= k < |p| => recs[p[k]])
  }

  /** `sorted(records, key=lambda x: (x[1], x[0][0], x[0][1]))` */
  function SortRecords(recs: seq<Record>): seq<Record>
  {
    Pick(recs, SortIndices(recs, |recs|))
  }

  /** Every index of p before the insertion point comes before record i,
      and record i comes before every index after it. */
  lemma {:induction false} InsertPosSplits(recs: seq<Record>, p: seq<nat>, i: nat)
    requires i < |recs| && IndicesIn(recs, p) && SortedBy(recs, p)
    requires forall k :: 0 <= k < |p| ==> p[k] < i
    ensures forall k :: 0 <= k < InsertPos(recs, p, i) ==> Before(recs, p[k], i)
    ensures forall k :: InsertPos(recs, p, i) <= k < |p| ==> Before(recs, i, p[k])
    decreases |p|
  {
    if p != [] {
      var last := p[|p| - 1];
      if KeyLess(recs[i], recs[last]) {
        InsertPosSplits(recs, p[..|p| - 1], i);
      } else {
        KeyTrichotomy(recs[i], recs[last]);
        forall k | 0 <= k < |p| ensures Before(recs, p[k], i) {
          if k < |p| - 1 {
            assert Before(recs, p[k], last);
            if KeyLess(recs[p[k]], recs[last]) && KeyLess(recs[last], recs[i]) {
              KeyLessTransitive(recs[p[k]], recs[last], recs[i]);
            }
          }
        }
      }
    }
  }

  lemma InsertIndexSorted(recs: seq<Record>, p: seq<nat>, i: nat)
    requires i < |recs| && IndicesIn(recs, p) && SortedBy(recs, p)
    requires forall k :: 0 <= k < |p| ==> p[k] < i
    ensures SortedBy(recs, InsertIndex(recs, p, i))
  {
    var j := InsertPos(recs, p, i);
    var q := InsertIndex(recs, p, i);
    InsertPosSplits(recs, p, i);
    forall a, b | 0 <= a < b < |q| ensures Before(recs, q[a], q[b]) {
      if b < j {
        assert q[a] == p[a] && q[b] == p[b];
      } else if b == j {
        assert q[a] == p[a] && q[b] == i;
      } else if a < j {
        assert q[a] == p[a] && q[b] == p[b - 1];
      } else if a == j {
        assert q[a] == i && q[b] == p[b - 1];
      } else {
        assert q[a] == p[a - 1] && q[b] == p[b - 1];
      }
    }
  }

  lemma {:induction false} SortIndicesSorted(recs: seq<Record>, n: nat)
    requires n <= |recs|
    ensures SortedBy(recs, SortIndices(recs, n))
    decreases n
  {
    if n > 0 {
      SortIndicesSorted(recs, n - 1);
      SortedStep(recs, n);
    }
  }

  /** Inserting an index adds its record to the picked ones. */
  lemma SortedStep(recs: seq<Record>, n: nat)
    requires 0 < n <= |recs| && SortedBy(recs, SortIndices(recs, n - 1))
    ensures SortedBy(recs, SortIndices(recs, n))
  {
    var p := SortIndices(recs, n - 1);
    InsertIndexSorted(recs, p, n - 1);
    SortIndicesStep(recs, n);
  }

  lemma PickInsert(recs: seq<Record>, p: seq<nat>, i: nat)
    requires i < |recs| && IndicesIn(recs, p)
    ensures multiset(Pick(recs, InsertIndex(recs, p, i))) == multiset(Pick(recs, p)) + multiset{recs[i]}
  {
    var j := InsertPos(recs, p, i);
    var left, right := p[..j], p[j..];
    assert p == left + right;
    assert InsertIndex(recs, p, i) == left + [i] + right;
    PickAround(recs, left, i, right);
  }

  lemma PickAround(recs: seq<Record>, left: seq<nat>, i: nat, right: seq<nat>)
    requires i < |recs| && IndicesIn(recs, left) && IndicesIn(recs, right)
    ensures IndicesIn(recs, left + right) && IndicesIn(recs, left + [i] + right)
    ensures multiset(Pick(recs, left + [i] + right)) == multiset(Pick(recs, left + right)) + multiset{recs[i]}
  {
    var l, r := Pick(recs, left), Pick(recs, right);
    PickCat(recs, left, [i]);
    PickCat(recs, left + [i], right);
    PickCat(recs, left, right);
    assert Pick(recs, [i]) == [recs[i]];
  }

  lemma PickCat(recs: seq<Record>, a: seq<nat>, b: seq<nat>)
    requires IndicesIn(recs, a) && IndicesIn(recs, b)
    ensures IndicesIn(recs, a + b)
    ensures Pick(recs, a + b) == Pick(recs, a) + Pick(recs, b)
  {
    assert IndicesIn(recs, a + b);
    var x, y := Pick(recs, a + b), Pick(recs, a) + Pick(recs, b);
    assert |x| == |y|;
    forall k | 0 <= k < |x| ensures x[k] == y[k] {
      if k < |a| { assert (a + b)[k] == a[k]; } else { assert (a + b)[k] == b[k - |a|]; }
    }
  }

  lemma {:induction false} SortIndicesPermutes(recs: seq<Record>, n: nat)
    requires n <= |recs|
    ensures multiset(Pick(recs, SortIndices(recs, n))) == multiset(recs[..n])
    decreases n
  {
    if n > 0 {
      var p := SortIndices(recs, n - 1);
      SortIndicesStep(recs, n);
      SortIndicesPermutes(recs, n - 1);
      PickInsert(recs, p, n - 1);
      TakeOneMore(recs, n);
    }
  }

  lemma TakeOneMore(recs: seq<Record>, n: nat)
    requires 0 < n <= |recs|
    ensures multiset(recs[..n]) == multiset(recs[..n - 1]) + multiset{recs[n - 1]}
  {
    assert recs[..n] == recs[..n - 1] + [recs[n - 1]];
  }

  lemma SortIndicesStep(recs: seq<Record>, n: nat)
    requires 0 < n <= |recs|
    ensures SortIndices(recs, n) == InsertIndex(recs, SortIndices(recs, n - 1), n - 1)
  {
  }

  /** sorted() with the key (ref, start, end) is a stable sort: the output
      takes every input record exactly once (the indices are a permutation
      of the input positions), the keys never decrease, and records with
      equal keys keep their input order. */
  lemma SortRecordsSpec(recs: seq<Record>)
    ensures multiset(SortRecords(recs)) == multiset(recs)
    ensures var p := SortIndices(recs, |recs|);
      && |p| == |recs|
      && (forall k :: 0 <= k < |p| ==> p[k] < |recs| && SortRecords(recs)[k] == recs[p[k]])
      && (forall a, b :: 0 <= a < b < |p| ==> p[a] != p[b])
      && (forall a, b :: 0 <= a < b < |p| ==> !KeyLess(recs[p[b]], recs[p[a]]))
      && (forall a, b :: 0 <= a < b < |p| && SameKey(recs[p[a]], recs[p[b]]) ==> p[a] < p[b])
  {
    var p := SortIndices(recs, |recs|);
    SortIndicesPermutes(recs, |recs|);
    assert recs[..|recs|] == recs;
    SortIndicesSorted(recs, |recs|);
    forall a, b | 0 <= a < b < |p|
      ensures p[a] != p[b]
      ensures !KeyLess(recs[p[b]], recs[p[a]]) && (SameKey(recs[p[a]], recs[p[b]]) ==> p[a] < p[b])
    {
      assert Before(recs, p[a], p[b]);
      KeyTrichotomy(recs[p[a]], recs[p[b]]);
      KeyLessIrreflexive(recs[p[a]]);
    }
  }

  // ---------------------------------------------------------------------
  // The amplicon ids, ascending.

  function InsertId(sorted: seq<int>, x: int): (r: seq<int>)
    ensures multiset(r) == multiset(sorted) + multiset{x}
    decreases |sorted|
  {
    if sorted == [] then [x]
    else if x < sorted[|sorted| - 1] then
      var front := sorted[..|sorted| - 1];
      assert sorted == front + [sorted[|sorted| - 1]];
      InsertId(front, x) + [sorted[|sorted| - 1]]
    else sorted + [x]
  }

  predicate Ascending(s: seq<int>)
  {
    forall a, b :: 0 <= a < b < |s| ==> s[a] <= s[b]
  }

  /** `sorted(ids)` for the dict keys. */
  function SortIds(ids: seq<int>): (r: seq<int>)
    ensures multiset(r) == multiset(ids)
    decreases |ids|
  {
    if ids == [] then []
    else
      var front := ids[..|ids| - 1];
      assert ids == front + [ids[|ids| - 1]];
      InsertId(SortIds(front), ids[|ids| - 1])
  }

  lemma {:induction false} InsertIdAscending(sorted: seq<int>, x: int)
    requires Ascending(sorted)
    ensures Ascending(InsertId(sorted, x))
    decreases |sorted|
  {
    if sorted == [] {
    } else if x < sorted[|sorted| - 1] {
      var front := sorted[..|sorted| - 1];
      var last := sorted[|sorted| - 1];
      InsertIdAscending(front, x);
      InsertIdBounded(front, x, last);
      AscendingSnoc(InsertId(front, x), last);
    } else {
      AscendingSnoc(sorted, x);
    }
  }

  /** Inserting a value into a list bounded by y keeps it bounded by y
      when the value is. */
  lemma InsertIdBounded(s: seq<int>, x: int, y: int)
    requires x <= y && forall k :: 0 <= k < |s| ==> s[k] <= y
    ensures forall k :: 0 <= k < |InsertId(s, x)| ==> InsertId(s, x)[k] <= y
  {
    var r := InsertId(s, x);
    forall k | 0 <= k < |r| ensures r[k] <= y {
      assert r[k] in multiset(r);
      if r[k] != x {
        assert r[k] in multiset(s);
      }
    }
  }

  lemma AscendingSnoc(s: seq<int>, y: int)
    requires Ascending(s) && forall k :: 0 <= k < |s| ==> s[k] <= y
    ensures Ascending(s + [y])
  {
  }

  /** The ids come out ascending and each id as often as it went in. */
  lemma {:induction false} SortIdsSpec(ids: seq<int>)
    ensures multiset(SortIds(ids)) == multiset(ids)
    ensures Ascending(SortIds(ids))
    decreases |ids|
  {
    if ids != [] {
      SortIdsSpec(ids[..|ids| - 1]);
      InsertIdAscending(SortIds(ids[..|ids| - 1]), ids[|ids| - 1]);
    }
  }
}
