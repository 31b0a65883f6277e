/** The primer selections the writers make inline
    (viramp_hub/scheme.py:116-127, 138-145): Python's min() or max() with a
    key, over the primers of one strand in the amplicon's append order.
    Both builtins keep the first element with the extreme key and raise
    ValueError on an empty iterable. */
module Geometry {
  import opened Outcomes
  import opened BedRecords

  /** The key of the selection: `x[0]` (start) or `x[1]` (end). */
  datatype Coord = Start | End

  /** min() or max(). */
  datatype Extreme = Least | Greatest

  function Key(p: Primer, c: Coord): int
  {
    match c
    case Start => p.start
    case End => p.end
  }

  /** x beats y: min() replaces its pick only on a strictly smaller key,
      max() only on a strictly larger one. */
  predicate Beats(x: int, y: int, e: Extreme)
  {
    match e
    case Least => x < y
    case Greatest => x > y
  }

  /** The index of the primer min()/max() returns over the primers of the
      given strand, or None when there is none (the ValueError case). The
      pick has the strand, no primer of that strand beats it, and it beats
      every earlier primer of that strand: it is the first extreme one. */
  function Select(ps: seq<Primer>, strand: string, c: Coord, e: Extreme): (r: Option<nat>)
    ensures r.None? <==> forall k :: 0 <= k < |ps| ==> ps[k].strand != strand
    ensures r.Some? ==> r.value < |ps| && ps[r.value].strand == strand
    ensures r.Some? ==> forall k :: 0 <= k < |ps| && ps[k].strand == strand ==>
      !Beats(Key(ps[k], c), Key(ps[r.value], c), e)
    ensures r.Some? ==> forall k :: 0 <= k < r.value && ps[k].strand == strand ==>
      Beats(Key(ps[r.value], c), Key(ps[k], c), e)
    decreases |ps|
  {
    if ps == [] then None
    else
      var front := ps[..|ps| - 1];
      var last := ps[|ps| - 1];
      var r0 := Select(front, strand, c, e);
      if last.strand != strand then r0
      else if r0.None? then Some(|ps| - 1)
      else if Beats(Key(last, c), Key(ps[r0.value], c), e) then Some(|ps| - 1)
      else r0
  }

  /** `min(+ primers, key=start)`: the outer forward primer. */
  function OuterForward(ps: seq<Primer>): Option<nat> { Select(ps, "+", Start, Least) }

  /** `max(- primers, key=end)`: the outer reverse primer. */
  function OuterReverse(ps: seq<Primer>): Option<nat> { Select(ps, "-", End, Greatest) }

  /** `max(+ primers, key=start)`: the inner forward primer. */
  function InnerForward(ps: seq<Primer>): Option<nat> { Select(ps, "+", Start, Greatest) }

  /** `min(- primers, key=end)`: the inner reverse primer. */
  function InnerReverse(ps: seq<Primer>): Option<nat> { Select(ps, "-", End, Least) }

  /** The selection only looks at the primers of its strand: appending a
      primer of another strand at the end changes nothing. */
  lemma {:induction false} SelectIgnoresOtherStrands(ps: seq<Primer>, q: Primer, strand: string, c: Coord, e: Extreme)
    requires q.strand != strand
    ensures Select(ps + [q], strand, c, e) == Select(ps, strand, c, e)
  {
    assert (ps + [q])[..|ps|] == ps;
  }

  /** Among primers of one strand with the same key the earliest is
      picked: the pick never moves to a later primer on a tie. */
  lemma {:induction false} SelectKeepsFirstOnTie(ps: seq<Primer>, q: Primer, strand: string, c: Coord, e: Extreme)
    requires Select(ps, strand, c, e).Some?
    requires Key(q, c) == Key(ps[Select(ps, strand, c, e).value], c)
    ensures Select(ps + [q], strand, c, e) == Select(ps, strand, c, e)
  {
    assert (ps + [q])[..|ps|] == ps;
  }

  /** The outer pair encloses the inner pair: the outer forward primer
      starts no later than the inner one, and the outer reverse primer ends
      no earlier than the inner one. */
  lemma OuterEnclosesInner(ps: seq<Primer>)
    ensures OuterForward(ps).Some? <==> InnerForward(ps).Some?
    ensures OuterReverse(ps).Some? <==> InnerReverse(ps).Some?
    ensures OuterForward(ps).Some? ==>
      ps[OuterForward(ps).value].start <= ps[InnerForward(ps).value].start
    ensures OuterReverse(ps).Some? ==>
      ps[InnerReverse(ps).value].end <= ps[OuterReverse(ps).value].end
  {
  }
}
