/** Order-preserving selection, the shape shared by every "append when ..." loop of the adapters. */
module Seqs {

  /** The elements of `s` that satisfy `p`, in their original order. Defined from the back so
      that one step of a left-to-right loop is one unfolding. */
  function Filter<T>(s: seq<T>, p: T -> bool): (kept: seq<T>)
    ensures |kept| <= |s|
    ensures forall x :: x in kept ==> x in s && p(x)
    decreases |s|
  {
    if s == [] then []
    else
      var init, last := s[..|s| - 1], s[|s| - 1];
      assert forall x :: x in init ==> x in s;
      Filter(init, p) + (if p(last) then [last] else [])
  }

  /** One more element considered: it is appended exactly when it satisfies `p`. */
  lemma FilterSnoc<T>(s: seq<T>, x: T, p: T -> bool)
    ensures Filter(s + [x], p) == Filter(s, p) + (if p(x) then [x] else [])
  {
    assert (s + [x])[..|s|] == s;
  }

  /** Filtering distributes over concatenation. */
  lemma {:induction false} FilterConcat<T>(a: seq<T>, b: seq<T>, p: T -> bool)
    ensures Filter(a + b, p) == Filter(a, p) + Filter(b, p)
    decreases |b|
  {
    if b == [] {
      assert a + b == a;
    } else {
      var init, last := b[..|b| - 1], b[|b| - 1];
      var tail := if p(last) then [last] else [];
      assert b == init + [last];
      assert a + b == (a + init) + [last];
      calc {
        Filter(a + b, p);
        { FilterSnoc(a + init, last, p); }
        Filter(a + init, p) + tail;
        { FilterConcat(a, init, p); }
        Filter(a, p) + Filter(init, p) + tail;
        { FilterSnoc(init, last, p); }
        Filter(a, p) + Filter(b, p);
      }
    }
  }

  /** Every element of `s` that satisfies `p` is kept. */
  lemma {:induction false} FilterComplete<T>(s: seq<T>, p: T -> bool, x: T)
    requires x in s && p(x)
    ensures x in Filter(s, p)
    decreases |s|
  {
    var init, last := s[..|s| - 1], s[|s| - 1];
    assert s == init + [last];
    if x != last {
      FilterComplete(init, p, x);
    }
  }

  /** Nothing is kept when no element satisfies `p`. */
  lemma FilterNone<T>(s: seq<T>, p: T -> bool)
    requires forall i :: 0 <= i < |s| ==> !p(s[i])
    ensures Filter(s, p) == []
  {
  }

  /** `pos` lists, in increasing order, exactly the positions of `s` whose element satisfies
      `p`, and reading `s` there gives `kept`. */
  ghost predicate PositionsOf<T>(s: seq<T>, p: T -> bool, kept: seq<T>, pos: seq<nat>) {
    && |pos| == |kept|
    && (forall j :: 0 <= j < |pos| ==> pos[j] < |s| && kept[j] == s[pos[j]])
    && (forall j, k :: 0 <= j < k < |pos| ==> pos[j] < pos[k])
    && (forall i :: 0 <= i < |s| ==> (p(s[i]) <==> i in pos))
  }

  /** Appending an element extends the positions by its own when it is kept. */
  lemma PositionsSnoc<T>(init: seq<T>, last: T, p: T -> bool, kept: seq<T>, pos: seq<nat>)
    requires PositionsOf(init, p, kept, pos)
    ensures p(last) ==> PositionsOf(init + [last], p, kept + [last], pos + [|init|])
    ensures !p(last) ==> PositionsOf(init + [last], p, kept, pos)
  {
    var s := init + [last];
    forall i | 0 <= i < |init|
      ensures s[i] == init[i]
    {
    }
    if p(last) {
      var pos' := pos + [|init|];
      forall j | 0 <= j < |pos'|
        ensures pos'[j] < |s| && (kept + [last])[j] == s[pos'[j]]
      {
        if j < |pos| {
          assert pos'[j] == pos[j];
        }
      }
    }
  }

  /** The result is a subsequence of `s`: it is `s` read at strictly increasing positions, and
      those positions are exactly the ones whose element satisfies `p`. So no element is taken
      twice and none is reordered. */
  lemma {:induction false} FilterPositions<T>(s: seq<T>, p: T -> bool) returns (pos: seq<nat>)
    ensures |pos| == |Filter(s, p)|
    ensures forall j :: 0 <= j < |pos| ==> pos[j] < |s| && Filter(s, p)[j] == s[pos[j]]
    ensures forall j, k :: 0 <= j < k < |pos| ==> pos[j] < pos[k]
    ensures forall i :: 0 <= i < |s| ==> (p(s[i]) <==> i in pos)
    decreases |s|
  {
    if s == [] {
      pos := [];
    } else {
      var init, last := s[..|s| - 1], s[|s| - 1];
      var before := FilterPositions(init, p);
      assert s == init + [last];
      FilterSnoc(init, last, p);
      PositionsSnoc(init, last, p, Filter(init, p), before);
      pos := if p(last) then before + [|init|] else before;
      assert PositionsOf(s, p, Filter(s, p), pos);
    }
  }

  /** Each value is kept exactly as often as it occurs in `s` when it satisfies `p`, and never
      otherwise. */
  lemma {:induction false} FilterCount<T>(s: seq<T>, p: T -> bool, x: T)
    ensures multiset(Filter(s, p))[x] == if p(x) then multiset(s)[x] else 0
    decreases |s|
  {
    if s != [] {
      var init, last := s[..|s| - 1], s[|s| - 1];
      assert s == init + [last];
      FilterCount(init, p, x);
    }
  }
}
