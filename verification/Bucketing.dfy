/**
  What length bucketing saves: the padded size of a whole request, batch length times longest
  member, summed over the batches. Sorting by length is optimal for every request of `n` texts
  exactly when the batches are all full or there is only one.
*/
module Bucketing {
  import opened Reranker

  lemma {:induction false} MaxIsMax(ls: seq<nat>)
    ensures forall i :: 0 <= i < |ls| ==> ls[i] <= Max(ls)
    ensures ls != [] ==> exists i :: 0 <= i < |ls| && ls[i] == Max(ls)
  {
    if ls != [] {
      var front := ls[..|ls| - 1];
      MaxIsMax(front);
      if front != [] && ls[|ls| - 1] <= Max(front) {
        var i :| 0 <= i < |front| && front[i] == Max(front);
        assert ls[i] == Max(ls);
      } else {
        assert ls[|ls| - 1] == Max(ls);
      }
    }
  }

  lemma {:induction false} PaddedToIsProduct(n: nat, to: nat)
    ensures PaddedTo(n, to) == n * to
  {
    if n > 0 {
      PaddedToIsProduct(n - 1, to);
    }
  }

  // ---------------------------------------------------------------------------
  // Counting by threshold
  // ---------------------------------------------------------------------------

  // How many lengths are at least `t`.
  function Reach(ls: seq<nat>, t: nat): nat {
    if ls == [] then 0 else Reach(ls[..|ls| - 1], t) + (if ls[|ls| - 1] >= t then 1 else 0)
  }

  // How many texts are in batches with a longest member of at least `t`.
  function Cover(ls: seq<nat>, size: nat, t: nat): nat
    requires size >= 1
    decreases |ls|
  {
    if ls == [] then 0
    else (if Max(First(ls, size)) >= t then |First(ls, size)| else 0) + Cover(Rest(ls, size), size, t)
  }

  lemma {:induction false} ReachOfConcat(a: seq<nat>, b: seq<nat>, t: nat)
    ensures Reach(a + b, t) == Reach(a, t) + Reach(b, t)
  {
    if b == [] {
      assert a + b == a;
    } else {
      assert (a + b)[..|a + b| - 1] == a + b[..|b| - 1];
      ReachOfConcat(a, b[..|b| - 1], t);
    }
  }

  lemma WithoutOne(a: seq<nat>, x: nat, b: seq<nat>)
    ensures multiset(a + [x] + b) == multiset(a + b) + multiset{x}
  {
  }

  lemma OrderWithoutLast(order: seq<nat>, p: nat, n: nat)
    requires IsOrder(order, n + 1) && p < |order| && order[p] == n
    ensures IsOrder(order[..p] + order[p + 1..], n)
  {
    var rest := order[..p] + order[p + 1..];
    WithoutOne(order[..p], n, order[p + 1..]);
    assert order == order[..p] + [n] + order[p + 1..];
    assert Indices(n + 1) == Indices(n) + [n];
    assert multiset(rest) + multiset{n} == multiset(Indices(n)) + multiset{n};
    assert multiset(rest) == multiset(rest) + multiset{n} - multiset{n};
    assert multiset(Indices(n)) == multiset(Indices(n)) + multiset{n} - multiset{n};
  }

  // The count depends on the multiset of lengths only.
  lemma {:induction false} ReachOfArranged(order: seq<nat>, lengths: seq<nat>, t: nat)
    requires IsOrder(order, |lengths|) && Below(order, |lengths|)
    ensures Reach(Arranged(order, lengths), t) == Reach(lengths, t)
    decreases |lengths|
  {
    if lengths == [] {
      OrderVisitsOnce(order, 0);
    } else {
      var n := |lengths| - 1;
      OrderVisitsOnce(order, n + 1);
      assert n in order;
      var p :| 0 <= p < |order| && order[p] == n;
      OrderWithoutLast(order, p, n);
      var before, after := order[..p], order[p + 1..];
      OrderVisitsOnce(before + after, n);
      ReachOfArranged(before + after, lengths[..n], t);
      ReachOfSplit(order, p, lengths, t);
    }
  }

  lemma ReachOfSplit(order: seq<nat>, p: nat, lengths: seq<nat>, t: nat)
    requires lengths != [] && p < |order| && order[p] == |lengths| - 1
    requires Below(order, |lengths|) && Below(order[..p] + order[p + 1..], |lengths| - 1)
    ensures Reach(Arranged(order, lengths), t) ==
            Reach(Arranged(order[..p] + order[p + 1..], lengths[..|lengths| - 1]), t) +
            (if lengths[|lengths| - 1] >= t then 1 else 0)
  {
    var last := lengths[|lengths| - 1];
    var a, b := Arranged(order[..p], lengths), Arranged(order[p + 1..], lengths);
    assert Arranged(order[..p] + order[p + 1..], lengths[..|lengths| - 1]) == a + b;
    assert Arranged(order, lengths) == (a + [last]) + b;
    ReachOfConcat(a, b, t);
    ReachOfConcat(a + [last], b, t);
    assert (a + [last])[..|a|] == a;
  }

  lemma {:induction false} ReachBounds(ls: seq<nat>, t: nat)
    ensures Reach(ls, t) <= |ls|
    ensures Max(ls) < t ==> Reach(ls, t) == 0
    ensures (forall i :: 0 <= i < |ls| ==> ls[i] >= t) ==> Reach(ls, t) == |ls|
    ensures (exists i :: 0 <= i < |ls| && ls[i] >= t) ==> Reach(ls, t) > 0
  {
    if ls != [] {
      var front := ls[..|ls| - 1];
      ReachBounds(front, t);
      if i :| 0 <= i < |ls| && ls[i] >= t {
        assert i < |front| ==> front[i] == ls[i];
      }
    }
  }

  // A multiple of `size`: that many texts fill all their batches.
  predicate Multiple(n: nat, size: nat)
    requires size >= 1
  {
    n == 0 || (n >= size && Multiple(n - size, size))
  }

  lemma Parts(ls: seq<nat>, size: nat)
    requires size >= 1
    ensures ls == First(ls, size) + Rest(ls, size)
  {
  }

  // Every length of at least `t` sits in a batch counted for `t`.
  lemma {:induction false} CoverReaches(ls: seq<nat>, size: nat, t: nat)
    requires size >= 1
    ensures Reach(ls, t) <= Cover(ls, size, t) <= |ls|
    decreases |ls|
  {
    if ls != [] {
      Parts(ls, size);
      CoverReaches(Rest(ls, size), size, t);
      ReachOfConcat(First(ls, size), Rest(ls, size), t);
      ReachBounds(First(ls, size), t);
    }
  }

  lemma {:induction false} CoverIsMultiple(ls: seq<nat>, size: nat, t: nat)
    requires size >= 1 && Multiple(|ls|, size)
    ensures Multiple(Cover(ls, size, t), size)
    decreases |ls|
  {
    if ls != [] {
      assert |Rest(ls, size)| == |ls| - size;
      CoverIsMultiple(Rest(ls, size), size, t);
    }
  }

  lemma {:induction false} NextMultiple(x: nat, y: nat, size: nat)
    requires size >= 1 && Multiple(x, size) && Multiple(y, size) && x < y + size
    ensures x <= y
  {
    if x > 0 && y > 0 {
      NextMultiple(x - size, y - size, size);
    }
  }

  ghost predicate Ascending(ls: seq<nat>) {
    forall i, k :: 0 <= i < k < |ls| ==> ls[i] <= ls[k]
  }

  // Behind a batch that reaches `t`, ascending lengths all do.
  lemma TailReaches(ls: seq<nat>, size: nat, t: nat)
    requires size >= 1 && ls != [] && Ascending(ls) && Max(First(ls, size)) >= t
    ensures Reach(First(ls, size), t) > 0
    ensures Reach(Rest(ls, size), t) == |Rest(ls, size)|
  {
    var first, rest := First(ls, size), Rest(ls, size);
    MaxIsMax(first);
    var i :| 0 <= i < |first| && first[i] == Max(first);
    ReachBounds(first, t);
    if |ls| > size {
      forall k | 0 <= k < |rest|
        ensures rest[k] >= t
      {
        assert ls[i] <= ls[size + k];
      }
    }
    ReachBounds(rest, t);
  }

  lemma ReachOfFirst(ls: seq<nat>, size: nat, t: nat)
    requires size >= 1
    ensures Reach(ls, t) == Reach(First(ls, size), t) + Reach(Rest(ls, size), t)
  {
    Parts(ls, size);
    ReachOfConcat(First(ls, size), Rest(ls, size), t);
  }

  // The first batch adds its size to every layer up to its longest member.
  lemma CoverOfFirst(ls: seq<nat>, size: nat, t: nat)
    requires size >= 1 && ls != []
    ensures Cover(ls, size, t) ==
            (if Max(First(ls, size)) >= t then |First(ls, size)| else 0) + Cover(Rest(ls, size), size, t)
    ensures 1 <= |First(ls, size)| <= size && |Rest(ls, size)| < |ls|
  {
  }

  // In ascending order only the first counted batch can hold lengths below `t`.
  lemma {:induction false} AscendingIsTight(ls: seq<nat>, size: nat, t: nat)
    requires size >= 1 && Ascending(ls)
    ensures Cover(ls, size, t) < Reach(ls, t) + size
    decreases |ls|
  {
    if ls != [] {
      CoverOfFirst(ls, size, t);
      ReachOfFirst(ls, size, t);
      if Max(First(ls, size)) >= t {
        TailReaches(ls, size, t);
        CoverReaches(Rest(ls, size), size, t);
      } else {
        RestAscends(ls, size);
        AscendingIsTight(Rest(ls, size), size, t);
      }
    }
  }

  lemma RestAscends(ls: seq<nat>, size: nat)
    requires size >= 1 && Ascending(ls)
    ensures Ascending(Rest(ls, size))
  {
  }

  // The padded size, counted threshold by threshold.
  function Layers(ls: seq<nat>, size: nat, top: nat): nat
    requires size >= 1
  {
    if top == 0 then 0 else Layers(ls, size, top - 1) + Cover(ls, size, top)
  }

  function Clip(x: nat, top: nat): nat { if x <= top then x else top }

  lemma {:induction false} PaddedToSteps(n: nat, to: nat)
    ensures PaddedTo(n, 0) == 0 && PaddedTo(n, 1) == n
    ensures PaddedTo(n, to + 1) == PaddedTo(n, to) + n
  {
    if n > 0 {
      PaddedToSteps(n - 1, to);
    }
  }

  // The layers of one batch of `n` texts.
  function BatchLayers(n: nat, longest: nat, top: nat): nat {
    if top == 0 then 0 else BatchLayers(n, longest, top - 1) + (if longest >= top then n else 0)
  }

  lemma {:induction false} BatchLayersIs(n: nat, longest: nat, top: nat)
    ensures BatchLayers(n, longest, top) == PaddedTo(n, Clip(longest, top))
  {
    if top == 0 {
      PaddedToSteps(n, 0);
    } else {
      BatchLayersIs(n, longest, top - 1);
      PaddedToSteps(n, top - 1);
    }
  }

  lemma {:induction false} LayersOfFirst(ls: seq<nat>, size: nat, top: nat)
    requires size >= 1 && ls != []
    ensures Layers(ls, size, top) ==
            BatchLayers(|First(ls, size)|, Max(First(ls, size)), top) + Layers(Rest(ls, size), size, top)
  {
    if top > 0 {
      LayersOfFirst(ls, size, top - 1);
      LayersStep(ls, size, top);
      LayersStep(Rest(ls, size), size, top);
      CoverOfFirst(ls, size, top);
    }
  }

  lemma LayersStep(ls: seq<nat>, size: nat, top: nat)
    requires size >= 1 && top > 0
    ensures Layers(ls, size, top) == Layers(ls, size, top - 1) + Cover(ls, size, top)
  {
  }

  lemma PaddedOfFirst(ls: seq<nat>, size: nat)
    requires size >= 1 && ls != []
    ensures Padded(ls, size) == PaddedTo(|First(ls, size)|, Max(First(ls, size))) + Padded(Rest(ls, size), size)
    ensures |First(ls, size)| >= 1 && |Rest(ls, size)| < |ls|
  {
  }

  lemma {:induction false} PaddedByLayers(ls: seq<nat>, size: nat, top: nat)
    requires size >= 1
    requires forall i :: 0 <= i < |ls| ==> ls[i] <= top
    ensures Padded(ls, size) == Layers(ls, size, top)
    decreases |ls|
  {
    if ls == [] {
      NoLayers(size, top);
    } else {
      PaddedOfFirst(ls, size);
      LayersOfFirst(ls, size, top);
      FirstBelow(ls, size, top);
      BatchLayersIs(|First(ls, size)|, Max(First(ls, size)), top);
      PaddedByLayers(Rest(ls, size), size, top);
    }
  }

  lemma FirstBelow(ls: seq<nat>, size: nat, top: nat)
    requires size >= 1 && ls != [] && forall i :: 0 <= i < |ls| ==> ls[i] <= top
    ensures Max(First(ls, size)) <= top
    ensures forall i :: 0 <= i < |Rest(ls, size)| ==> Rest(ls, size)[i] <= top
  {
    MaxIsMax(First(ls, size));
  }

  lemma {:induction false} NoLayers(size: nat, top: nat)
    requires size >= 1
    ensures Layers([], size, top) == 0
  {
    if top > 0 {
      NoLayers(size, top - 1);
    }
  }

  lemma {:induction false} FewerLayers(sorted: seq<nat>, other: seq<nat>, size: nat, top: nat)
    requires size >= 1 && Multiple(|sorted|, size) && |sorted| == |other| && Ascending(sorted)
    requires forall t :: 0 <= t <= top ==> Reach(sorted, t) == Reach(other, t)
    ensures Layers(sorted, size, top) <= Layers(other, size, top)
  {
    if top > 0 {
      FewerLayers(sorted, other, size, top - 1);
      FewerCovered(sorted, other, size, top);
    }
  }

  lemma FewerCovered(sorted: seq<nat>, other: seq<nat>, size: nat, t: nat)
    requires size >= 1 && Multiple(|sorted|, size) && |sorted| == |other| && Ascending(sorted)
    requires Reach(sorted, t) == Reach(other, t)
    ensures Cover(sorted, size, t) <= Cover(other, size, t)
  {
    AscendingIsTight(sorted, size, t);
    CoverReaches(other, size, t);
    CoverIsMultiple(sorted, size, t);
    CoverIsMultiple(other, size, t);
    NextMultiple(Cover(sorted, size, t), Cover(other, size, t), size);
  }

  // ---------------------------------------------------------------------------
  // The optimum
  // ---------------------------------------------------------------------------

  function SortedLengths(lengths: seq<nat>): seq<nat> {
    Arranged(SortedOrder(lengths, |lengths|), lengths)
  }

  // The sorted lengths reach every threshold as often as those in any other order.
  lemma SortedReach(lengths: seq<nat>, order: seq<nat>, t: nat)
    requires IsOrder(order, |lengths|) && Below(order, |lengths|)
    ensures Reach(SortedLengths(lengths), t) == Reach(Arranged(order, lengths), t)
  {
    ReachOfArranged(SortedOrder(lengths, |lengths|), lengths, t);
    ReachOfArranged(order, lengths, t);
  }

  lemma ArrangedBelow(order: seq<nat>, lengths: seq<nat>)
    requires IsOrder(order, |lengths|) && Below(order, |lengths|)
    ensures |Arranged(order, lengths)| == |lengths|
    ensures forall i :: 0 <= i < |lengths| ==> Arranged(order, lengths)[i] <= Max(lengths)
  {
    OrderVisitsOnce(order, |lengths|);
    MaxIsMax(lengths);
  }

  lemma FullBatchesOptimal(lengths: seq<nat>, order: seq<nat>, size: nat)
    requires size >= 1 && Multiple(|lengths|, size)
    requires IsOrder(order, |lengths|) && Below(order, |lengths|)
    ensures Padded(SortedLengths(lengths), size) <= Padded(Arranged(order, lengths), size)
  {
    var sorted, other, top := SortedLengths(lengths), Arranged(order, lengths), Max(lengths);
    SortedAscends(lengths);
    ArrangedBelow(SortedOrder(lengths, |lengths|), lengths);
    ArrangedBelow(order, lengths);
    forall t | 0 <= t <= top
      ensures Reach(sorted, t) == Reach(other, t)
    {
      SortedReach(lengths, order, t);
    }
    LeastPadded(sorted, other, size, top);
  }

  lemma LeastPadded(sorted: seq<nat>, other: seq<nat>, size: nat, top: nat)
    requires size >= 1 && Multiple(|sorted|, size) && |sorted| == |other| && Ascending(sorted)
    requires forall i :: 0 <= i < |sorted| ==> sorted[i] <= top && other[i] <= top
    requires forall t :: 0 <= t <= top ==> Reach(sorted, t) == Reach(other, t)
    ensures Padded(sorted, size) <= Padded(other, size)
  {
    FewerLayers(sorted, other, size, top);
    PaddedByLayers(sorted, size, top);
    PaddedByLayers(other, size, top);
  }

  lemma SortedAscends(lengths: seq<nat>)
    ensures Ascending(SortedLengths(lengths))
  {
    var perm := SortedOrder(lengths, |lengths|);
    forall i, k | 0 <= i < k < |perm|
      ensures lengths[perm[i]] <= lengths[perm[k]]
    {
      assert Precedes(perm[i], perm[k], lengths);
    }
  }

  // A single batch costs the same in every order.
  lemma OneBatchIsAll(lengths: seq<nat>, order: seq<nat>, size: nat)
    requires |lengths| < size && IsOrder(order, |lengths|) && Below(order, |lengths|)
    ensures Padded(Arranged(order, lengths), size) == PaddedTo(|lengths|, Max(lengths))
  {
    OrderVisitsOnce(order, |lengths|);
    var ls := Arranged(order, lengths);
    MaxIsMax(ls);
    MaxIsMax(lengths);
    if ls != [] {
      var i :| 0 <= i < |lengths| && lengths[i] == Max(lengths);
      assert i in order;
      var k :| 0 <= k < |order| && order[k] == i;
      assert ls[k] == Max(lengths);
    }
  }

  // ---------------------------------------------------------------------------
  // Where it is not optimal
  // ---------------------------------------------------------------------------

  function Fill(n: nat, x: nat): seq<nat> {
    seq(n, _ => x)
  }

  lemma InsertLast(order: seq<nat>, i: nat, lengths: seq<nat>)
    requires i < |lengths| && Ascending(lengths) && Below(order, i)
    ensures Insert(order, i, lengths) == order + [i]
  {
  }

  lemma IndicesNext(n: nat)
    requires n > 0
    ensures Indices(n) == Indices(n - 1) + [n - 1] && Below(Indices(n - 1), n - 1)
  {
  }

  lemma InsertKeepsIndices(lengths: seq<nat>, n: nat)
    requires 0 < n <= |lengths| && Ascending(lengths)
    ensures Below(Indices(n - 1), |lengths|) && Insert(Indices(n - 1), n - 1, lengths) == Indices(n)
  {
    IndicesNext(n);
    InsertLast(Indices(n - 1), n - 1, lengths);
  }

  lemma {:induction false} AscendingStays(lengths: seq<nat>, n: nat)
    requires n <= |lengths| && Ascending(lengths)
    ensures Inserted(lengths, n) == Indices(n)
  {
    if n > 0 {
      AscendingStays(lengths, n - 1);
      InsertKeepsIndices(lengths, n);
    }
  }

  lemma AscendingKept(lengths: seq<nat>)
    requires Ascending(lengths)
    ensures SortedLengths(lengths) == lengths
  {
    AscendingStays(lengths, |lengths|);
    assert Arranged(Indices(|lengths|), lengths) == lengths;
  }

  lemma RotationSwaps(a: seq<nat>, b: seq<nat>)
    ensures Below(Indices(|a + b|)[|a|..] + Indices(|a + b|)[..|a|], |a + b|)
    ensures Arranged(Indices(|a + b|)[|a|..] + Indices(|a + b|)[..|a|], a + b) == b + a
  {
  }

  lemma PaddedStep(first: seq<nat>, rest: seq<nat>, size: nat)
    requires size >= 1 && |first| == size
    ensures Padded(first + rest, size) == PaddedTo(size, Max(first)) + Padded(rest, size)
  {
    assert First(first + rest, size) == first;
    assert Rest(first + rest, size) == rest;
  }

  // A batch of zeros and at least one 1 costs its length.
  lemma UnitBatch(first: seq<nat>, rest: seq<nat>, size: nat)
    requires size >= 1 && |first| == size && first[size - 1] == 1
    requires forall i :: 0 <= i < size ==> first[i] <= 1
    ensures Padded(first + rest, size) == size + Padded(rest, size)
  {
    MaxIsMax(first);
    assert Max(first) == 1;
    PaddedToSteps(size, 0);
    PaddedStep(first, rest, size);
  }

  lemma ZerosCost(zeros: nat, size: nat)
    requires zeros < size
    ensures Padded(Fill(zeros, 0), size) == 0
  {
    MaxIsMax(Fill(zeros, 0));
    PaddedToSteps(zeros, 0);
  }

  lemma FillSplits(n: nat, size: nat, x: nat)
    requires size <= n
    ensures Fill(n, x) == Fill(size, x) + Fill(n - size, x)
  {
  }

  lemma FullOfOnes(whole: seq<nat>, rest: seq<nat>, size: nat, cost: nat)
    requires size >= 1 && whole == Fill(size, 1) + rest && Padded(rest, size) == cost
    ensures Padded(whole, size) == size + cost
  {
    UnitBatch(Fill(size, 1), rest, size);
  }

  // Full batches of ones and a last batch of zeros: only the ones are paid for.
  lemma {:induction false} ZerosLast(ones: nat, zeros: nat, size: nat)
    requires size >= 1 && zeros < size && Multiple(ones, size)
    ensures Padded(Fill(ones, 1) + Fill(zeros, 0), size) == ones
    decreases ones
  {
    if ones == 0 {
      assert Fill(ones, 1) + Fill(zeros, 0) == Fill(zeros, 0);
      ZerosCost(zeros, size);
    } else {
      ZerosLast(ones - size, zeros, size);
      FillApart(ones, size, zeros);
      FullOfOnes(Fill(ones, 1) + Fill(zeros, 0), Fill(ones - size, 1) + Fill(zeros, 0), size, ones - size);
    }
  }

  lemma FillApart(ones: nat, size: nat, zeros: nat)
    requires size <= ones
    ensures Fill(ones, 1) + Fill(zeros, 0) == Fill(size, 1) + (Fill(ones - size, 1) + Fill(zeros, 0))
  {
  }

  lemma FewOnesCost(n: nat, size: nat)
    requires n < size
    ensures Padded(Fill(n, 1), size) == n
  {
    if n > 0 {
      MaxIsMax(Fill(n, 1));
      PaddedToSteps(n, 0);
      assert Fill(n, 1)[0] == 1;
    }
  }

  lemma {:induction false} OnesCost(n: nat, size: nat)
    requires size >= 1
    ensures Padded(Fill(n, 1), size) == n
  {
    if n >= size {
      OnesCost(n - size, size);
      FillSplits(n, size, 1);
      FullOfOnes(Fill(n, 1), Fill(n - size, 1), size, n - size);
    } else {
      FewOnesCost(n, size);
    }
  }

  // Ascending, the zeros share their batch with ones and the last batch is all ones.
  lemma ZerosFirst(ones: nat, zeros: nat, size: nat)
    requires zeros < size <= ones
    ensures Padded(Fill(zeros, 0) + Fill(ones, 1), size) == zeros + ones
  {
    var left := size - zeros;
    FillMixed(ones, zeros, left);
    UnitBatch(Fill(zeros, 0) + Fill(left, 1), Fill(ones - left, 1), size);
    OnesCost(ones - left, size);
  }

  lemma FillMixed(ones: nat, zeros: nat, left: nat)
    requires left <= ones
    ensures Fill(zeros, 0) + Fill(ones, 1) == (Fill(zeros, 0) + Fill(left, 1)) + Fill(ones - left, 1)
  {
  }

  lemma RotationIsOrder(n: nat, k: nat)
    requires k <= n
    ensures IsOrder(Indices(n)[k..] + Indices(n)[..k], n)
    ensures Below(Indices(n)[k..] + Indices(n)[..k], n)
  {
    assert Indices(n) == Indices(n)[..k] + Indices(n)[k..];
  }

  // Every text longer by `base`: what each prompt carries besides its document.
  function Raise(ls: seq<nat>, base: nat): (r: seq<nat>)
    ensures |r| == |ls|
  {
    seq(|ls|, i requires 0 <= i < |ls| => ls[i] + base)
  }

  lemma RaisedMax(ls: seq<nat>, base: nat)
    requires ls != []
    ensures Max(Raise(ls, base)) == Max(ls) + base
  {
    MaxIsMax(ls);
    MaxIsMax(Raise(ls, base));
    var i :| 0 <= i < |ls| && ls[i] == Max(ls);
    assert Raise(ls, base)[i] <= Max(Raise(ls, base));
  }

  lemma {:induction false} PaddedToOfSum(n: nat, to: nat, more: nat)
    ensures PaddedTo(n, to + more) == PaddedTo(n, to) + PaddedTo(n, more)
  {
    if n > 0 {
      PaddedToOfSum(n - 1, to, more);
    }
  }

  lemma {:induction false} PaddedToOfTexts(n: nat, m: nat, to: nat)
    ensures PaddedTo(n + m, to) == PaddedTo(n, to) + PaddedTo(m, to)
  {
    if n > 0 {
      PaddedToOfTexts(n - 1, m, to);
    }
  }

  lemma RaisedParts(ls: seq<nat>, size: nat, base: nat)
    requires size >= 1
    ensures First(Raise(ls, base), size) == Raise(First(ls, size), base)
    ensures Rest(Raise(ls, base), size) == Raise(Rest(ls, size), base)
  {
  }

  lemma RaisedBatch(first: seq<nat>, base: nat)
    requires first != []
    ensures PaddedTo(|first|, Max(Raise(first, base))) == PaddedTo(|first|, Max(first)) + PaddedTo(|first|, base)
  {
    RaisedMax(first, base);
    PaddedToOfSum(|first|, Max(first), base);
  }

  lemma PaddedToOfFirst(ls: seq<nat>, size: nat, to: nat)
    requires size >= 1
    ensures PaddedTo(|ls|, to) == PaddedTo(|First(ls, size)|, to) + PaddedTo(|Rest(ls, size)|, to)
  {
    PaddedToOfTexts(|First(ls, size)|, |Rest(ls, size)|, to);
  }

  // What all texts have in common costs the same in every order.
  lemma {:induction false} RaisedCost(ls: seq<nat>, size: nat, base: nat)
    requires size >= 1
    ensures Padded(Raise(ls, base), size) == Padded(ls, size) + PaddedTo(|ls|, base)
    decreases |ls|
  {
    if ls != [] {
      PaddedOfFirst(ls, size);
      PaddedOfFirst(Raise(ls, base), size);
      RaisedParts(ls, size, base);
      RaisedCost(Rest(ls, size), size, base);
      RaisedBatch(First(ls, size), base);
      PaddedToOfFirst(ls, size, base);
    }
  }

  // With more than one batch and a last batch that is not full, some short texts before texts
  // one token longer are batched better with the short ones last, whatever their length.
  lemma PartialBatchLoses(ones: nat, zeros: nat, size: nat, base: nat) returns (lengths: seq<nat>, order: seq<nat>)
    requires 0 < zeros < size <= ones && Multiple(ones, size)
    ensures |lengths| == ones + zeros && forall i :: 0 <= i < |lengths| ==> base <= lengths[i] <= base + 1
    ensures IsOrder(order, |lengths|) && Below(order, |lengths|)
    ensures Padded(SortedLengths(lengths), size) > Padded(Arranged(order, lengths), size)
  {
    var a, b := Fill(zeros, 0), Fill(ones, 1);
    lengths := Raise(a, base) + Raise(b, base);
    order := Rotation(|lengths|, zeros);
    ZerosFirst(ones, zeros, size);
    ZerosLast(ones, zeros, size);
    RaisedSwap(a, b, size, base);
    TwoLengths(zeros, ones, base);
    RotationPays(Raise(a, base), Raise(b, base), size);
  }

  function Rotation(n: nat, k: nat): seq<nat>
    requires k <= n
  {
    Indices(n)[k..] + Indices(n)[..k]
  }

  lemma TwoLengths(zeros: nat, ones: nat, base: nat)
    ensures var lengths := Raise(Fill(zeros, 0), base) + Raise(Fill(ones, 1), base);
            |lengths| == zeros + ones && Ascending(lengths) && forall i :: 0 <= i < |lengths| ==>
              base <= lengths[i] <= base + 1
  {
  }

  lemma RotationPays(a: seq<nat>, b: seq<nat>, size: nat)
    requires size >= 1 && Ascending(a + b) && Padded(a + b, size) > Padded(b + a, size)
    ensures IsOrder(Rotation(|a + b|, |a|), |a + b|) && Below(Rotation(|a + b|, |a|), |a + b|)
    ensures Padded(SortedLengths(a + b), size) > Padded(Arranged(Rotation(|a + b|, |a|), a + b), size)
  {
    RotationIsOrder(|a + b|, |a|);
    AscendingKept(a + b);
    RotationSwaps(a, b);
  }

  lemma RaiseConcat(a: seq<nat>, b: seq<nat>, base: nat)
    ensures Raise(a, base) + Raise(b, base) == Raise(a + b, base)
  {
  }

  lemma RaisedSwap(a: seq<nat>, b: seq<nat>, size: nat, base: nat)
    requires size >= 1
    ensures Padded(Raise(a, base) + Raise(b, base), size) - Padded(Raise(b, base) + Raise(a, base), size) ==
            Padded(a + b, size) - Padded(b + a, size)
  {
    RaiseConcat(a, b, base);
    RaiseConcat(b, a, base);
    RaisedCost(a + b, size, base);
    RaisedCost(b + a, size, base);
  }

  // The texts that fill whole batches.
  function Whole(n: nat, size: nat): (whole: nat)
    requires size >= 1
    ensures Multiple(whole, size) && whole <= n < whole + size
  {
    if n < size then 0 else Whole(n - size, size) + size
  }

  lemma {:induction false} MultiplesApart(size: nat, a: nat, b: nat)
    ensures a > b ==> size * a >= size * b + size
    decreases a
  {
    if a > b {
      assert size * a == size * (a - 1) + size;
      MultiplesApart(size, a - 1, b);
    }
  }

  lemma ModOfSum(n: nat, size: nat)
    requires 1 <= size <= n
    ensures n % size == (n - size) % size
  {
    var a, b := n / size, (n - size) / size;
    assert n == size * a + n % size;
    assert n - size == size * b + (n - size) % size;
    assert size * (b + 1) == size * b + size;
    MultiplesApart(size, a, b + 1);
    MultiplesApart(size, b + 1, a);
  }

  lemma {:induction false} MultipleIsDivisible(n: nat, size: nat)
    requires size >= 1
    ensures Multiple(n, size) <==> n % size == 0
  {
    if n >= size {
      ModOfSum(n, size);
      MultipleIsDivisible(n - size, size);
    } else {
      Remainder(n, size);
    }
  }

  lemma Remainder(n: nat, size: nat)
    requires n < size
    ensures n % size == n
  {
  }

  predicate Between(lengths: seq<nat>, floor: nat, ceiling: nat) {
    forall i :: 0 <= i < |lengths| ==> floor <= lengths[i] <= ceiling
  }

  // Sorting is optimal for every request of `n` texts with lengths in a range.
  ghost predicate AlwaysOptimal(n: nat, size: nat, floor: nat, ceiling: nat)
    requires size >= 1
  {
    forall lengths: seq<nat>, order: seq<nat> ::
      |lengths| == n && Between(lengths, floor, ceiling) && IsOrder(order, n) && Below(order, n) ==>
        Padded(SortedLengths(lengths), size) <= Padded(Arranged(order, lengths), size)
  }

  /** Whatever two lengths the shortest and the longest text may have, length bucketing is optimal
      exactly when no batch is partly filled or there is only one. */
  lemma BucketingOptimal(n: nat, size: nat, floor: nat, ceiling: nat)
    requires size >= 1 && floor < ceiling
    ensures AlwaysOptimal(n, size, floor, ceiling) <==> n % size == 0 || n < size
  {
    MultipleIsDivisible(n, size);
    if Multiple(n, size) || n < size {
      forall lengths: seq<nat>, order: seq<nat> | |lengths| == n && IsOrder(order, n) && Below(order, n)
        ensures Padded(SortedLengths(lengths), size) <= Padded(Arranged(order, lengths), size)
      {
        if Multiple(n, size) {
          FullBatchesOptimal(lengths, order, size);
        } else {
          OneBatchIsAll(lengths, order, size);
          OneBatchIsAll(lengths, SortedOrder(lengths, n), size);
        }
      }
    } else {
      var ones := Whole(n, size);
      var lengths, order := PartialBatchLoses(ones, n - ones, size, floor);
      assert Between(lengths, floor, ceiling);
    }
  }
}
