/**
  The reranker's batched inference: texts are batched in an order of their token lengths, each
  batch is padded to its longest member, and the scores go back to the caller's order.
*/
module Reranker {
  type Tokens = seq<int>

  // ---------------------------------------------------------------------------
  // Orders
  // ---------------------------------------------------------------------------

  function Indices(n: nat): seq<nat> {
    seq(n, i requires 0 <= i < n => i)
  }

  ghost predicate IsOrder(order: seq<nat>, n: nat) {
    multiset(order) == multiset(Indices(n))
  }

  lemma {:induction false} IndicesOnce(n: nat, i: nat)
    ensures multiset(Indices(n))[i] == if i < n then 1 else 0
  {
    if n > 0 {
      assert Indices(n) == Indices(n - 1) + [n - 1];
      IndicesOnce(n - 1, i);
    }
  }

  // An order visits every index, and none twice.
  lemma {:induction false} OrderVisitsOnce(order: seq<nat>, n: nat)
    requires IsOrder(order, n)
    ensures |order| == n
    ensures forall i :: 0 <= i < n ==> i in order
    ensures forall k :: 0 <= k < n ==> order[k] < n
    ensures forall a, b :: 0 <= a < b < n ==> order[a] != order[b]
  {
    assert |multiset(order)| == |multiset(Indices(n))| == n;
    forall i | 0 <= i < n
      ensures i in order
    {
      IndicesOnce(n, i);
      assert i in multiset(order);
    }
    forall k | 0 <= k < n
      ensures order[k] < n
    {
      IndicesOnce(n, order[k]);
      assert order[k] in multiset(order);
    }
    forall a, b | 0 <= a < b < n
      ensures order[a] != order[b]
    {
      IndicesOnce(n, order[a]);
      assert order == order[..b] + [order[b]] + order[b + 1..];
      assert order[..b][a] == order[a];
      assert order[a] in multiset(order[..b]);
    }
  }

  predicate Below(order: seq<nat>, n: nat) {
    forall k :: 0 <= k < |order| ==> order[k] < n
  }

  // Inserts `i` behind every index whose length is at most its own.
  function Insert(order: seq<nat>, i: nat, lengths: seq<nat>): (r: seq<nat>)
    requires i < |lengths| && Below(order, |lengths|)
    ensures multiset(r) == multiset(order) + multiset{i}
    ensures forall k :: 0 <= k < |r| ==> r[k] == i || r[k] in order
  {
    if order == [] || lengths[order[|order| - 1]] <= lengths[i] then order + [i]
    else
      assert order == order[..|order| - 1] + [order[|order| - 1]];
      Insert(order[..|order| - 1], i, lengths) + [order[|order| - 1]]
  }

  predicate Precedes(i: nat, k: nat, lengths: seq<nat>)
    requires i < |lengths| && k < |lengths|
  {
    lengths[i] < lengths[k] || (lengths[i] == lengths[k] && i < k)
  }

  // Ascending lengths, equal lengths in index order.
  predicate StablySorted(order: seq<nat>, lengths: seq<nat>)
    requires Below(order, |lengths|)
  {
    forall a, b :: 0 <= a < b < |order| ==> Precedes(order[a], order[b], lengths)
  }

  lemma {:induction false} InsertSorts(order: seq<nat>, i: nat, lengths: seq<nat>)
    requires i < |lengths| && Below(order, i) && StablySorted(order, lengths)
    ensures Below(Insert(order, i, lengths), i + 1)
    ensures StablySorted(Insert(order, i, lengths), lengths)
  {
    if order != [] {
      var front, last := order[..|order| - 1], order[|order| - 1];
      if lengths[last] > lengths[i] {
        InsertSorts(front, i, lengths);
        var r := Insert(front, i, lengths);
        forall a | 0 <= a < |r|
          ensures Precedes(r[a], last, lengths)
        {
          if r[a] != i {
            var k :| 0 <= k < |front| && front[k] == r[a];
            assert order[k] == front[k];
          }
        }
      } else {
        assert forall a :: 0 <= a < |order| - 1 ==> Precedes(order[a], last, lengths);
      }
    }
  }

  lemma InsertKeepsOrder(order: seq<nat>, i: nat, lengths: seq<nat>)
    requires i < |lengths| && IsOrder(order, i) && Below(order, i) && StablySorted(order, lengths)
    ensures var r := Insert(order, i, lengths);
            IsOrder(r, i + 1) && Below(r, i + 1) && StablySorted(r, lengths)
  {
    InsertSorts(order, i, lengths);
    assert Indices(i + 1) == Indices(i) + [i];
  }

  // The indexes below `n`, inserted one after the other.
  function Inserted(lengths: seq<nat>, n: nat): (order: seq<nat>)
    requires n <= |lengths|
    ensures Below(order, n)
  {
    if n == 0 then [] else Insert(Inserted(lengths, n - 1), n - 1, lengths)
  }

  lemma {:induction false} InsertedSorts(lengths: seq<nat>, n: nat)
    requires n <= |lengths|
    ensures IsOrder(Inserted(lengths, n), n) && StablySorted(Inserted(lengths, n), lengths)
  {
    if n == 0 {
      assert Indices(0) == [];
    } else {
      InsertedSorts(lengths, n - 1);
      InsertKeepsOrder(Inserted(lengths, n - 1), n - 1, lengths);
    }
  }

  // `sorted(range(n), key=length)`: ascending, and stable as Python's sort is.
  function SortedOrder(lengths: seq<nat>, n: nat): (order: seq<nat>)
    requires n <= |lengths|
    ensures IsOrder(order, n) && Below(order, n) && StablySorted(order, lengths)
  {
    InsertedSorts(lengths, n);
    Inserted(lengths, n)
  }

  // ---------------------------------------------------------------------------
  // The padded size
  // ---------------------------------------------------------------------------

  function Max(ls: seq<nat>): nat {
    if ls == [] then 0
    else if ls[|ls| - 1] > Max(ls[..|ls| - 1]) then ls[|ls| - 1]
    else Max(ls[..|ls| - 1])
  }

  function First(ls: seq<nat>, size: nat): seq<nat> {
    if |ls| <= size then ls else ls[..size]
  }

  function Rest(ls: seq<nat>, size: nat): seq<nat> {
    if |ls| <= size then [] else ls[size..]
  }

  // `n` texts, each padded to length `to`.
  function PaddedTo(n: nat, to: nat): nat {
    if n == 0 then 0 else PaddedTo(n - 1, to) + to
  }

  // The padded size of a request whose texts are batched in the order of `ls`.
  function Padded(ls: seq<nat>, size: nat): nat
    requires size >= 1
    decreases |ls|
  {
    if ls == [] then 0 else PaddedTo(|First(ls, size)|, Max(First(ls, size))) + Padded(Rest(ls, size), size)
  }

  // The texts' lengths in the order they are batched.
  function Arranged(order: seq<nat>, lengths: seq<nat>): seq<nat>
    requires Below(order, |lengths|)
  {
    seq(|order|, k requires 0 <= k < |order| => lengths[order[k]])
  }

  // ---------------------------------------------------------------------------
  // The batched loop
  // ---------------------------------------------------------------------------

  function Lengths(encoded: seq<Tokens>): (lengths: seq<nat>)
    ensures |lengths| == |encoded|
  {
    seq(|encoded|, i requires 0 <= i < |encoded| => |encoded[i]|)
  }

  function BatchOrder(encoded: seq<Tokens>, bucket: bool): (order: seq<nat>)
    ensures IsOrder(order, |encoded|)
  {
    if bucket then SortedOrder(Lengths(encoded), |encoded|) else Indices(|encoded|)
  }

  /** `rerank`. `logit` is the model's score of one prompt, which padding does not change.
      `written` lists the score writes in the order they happen, `padded` adds up the sizes of
      the padded batches. */
  method Rerank(encoded: seq<Tokens>, logit: Tokens -> real, bucket: bool, batchSize: nat)
    returns (results: seq<(nat, real)>, ghost written: seq<nat>, ghost padded: nat)
    requires batchSize >= 1
    ensures |results| == |encoded|
    ensures forall i :: 0 <= i < |encoded| ==> results[i] == (i, logit(encoded[i]))
    ensures IsOrder(written, |encoded|)
    ensures Below(written, |encoded|) && padded == Padded(Arranged(written, Lengths(encoded)), batchSize)
    ensures if bucket then StablySorted(written, Lengths(encoded))
            else forall k :: 0 <= k < |written| ==> written[k] == k
  {
    if encoded == [] {
      assert Indices(0) == [];
      return [], [], 0;
    }
    var order := BatchOrder(encoded, bucket);
    OrderVisitsOnce(order, |encoded|);
    ghost var lengths := Arranged(order, Lengths(encoded));
    var scores := new real[|encoded|](_ => 0.0);
    written, padded := ScoreBatches(encoded, logit, order, batchSize, scores, lengths);
    PaddedWhole(lengths, batchSize);
    results := Results(encoded, logit, order, scores[..]);
  }

  method Results(encoded: seq<Tokens>, logit: Tokens -> real, ghost order: seq<nat>, scores: seq<real>)
    returns (results: seq<(nat, real)>)
    requires |scores| == |encoded| == |order| && Below(order, |encoded|)
    requires forall i :: 0 <= i < |encoded| ==> i in order
    requires forall k :: 0 <= k < |order| ==> scores[order[k]] == logit(encoded[order[k]])
    ensures |results| == |encoded|
    ensures forall i :: 0 <= i < |encoded| ==> results[i] == (i, logit(encoded[i]))
  {
    results := seq(|scores|, i requires 0 <= i < |scores| => (i, scores[i]));
    forall i | 0 <= i < |encoded|
      ensures scores[i] == logit(encoded[i])
    {
      assert i in order;
    }
  }

  // The padded size of the batches from position `b` on.
  function PaddedFrom(lengths: seq<nat>, b: nat, size: nat): nat
    requires size >= 1
    decreases |lengths| - b
  {
    if b >= |lengths| then 0
    else
      var end := if b + size < |lengths| then b + size else |lengths|;
      PaddedTo(end - b, Max(lengths[b..end])) + PaddedFrom(lengths, end, size)
  }

  lemma {:induction false} PaddedFromIsPadded(lengths: seq<nat>, b: nat, size: nat)
    requires size >= 1 && b <= |lengths|
    ensures PaddedFrom(lengths, b, size) == Padded(lengths[b..], size)
    decreases |lengths| - b
  {
    if b < |lengths| {
      var end := if b + size < |lengths| then b + size else |lengths|;
      assert First(lengths[b..], size) == lengths[b..end];
      assert Rest(lengths[b..], size) == lengths[end..];
      PaddedFromIsPadded(lengths, end, size);
    }
  }

  lemma PaddedWhole(lengths: seq<nat>, size: nat)
    requires size >= 1
    ensures PaddedFrom(lengths, 0, size) == Padded(lengths, size)
  {
    PaddedFromIsPadded(lengths, 0, size);
    assert lengths[0..] == lengths;
  }

  method ScoreBatches(
    encoded: seq<Tokens>, logit: Tokens -> real, order: seq<nat>, batchSize: nat, scores: array<real>,
    ghost lengths: seq<nat>)
    returns (ghost written: seq<nat>, ghost padded: nat)
    requires batchSize >= 1 && |order| == |encoded| == scores.Length == |lengths|
    requires Below(order, |encoded|)
    requires forall i, k :: 0 <= i < k < |order| ==> order[i] != order[k]
    modifies scores
    ensures forall k :: 0 <= k < |order| ==> scores[order[k]] == logit(encoded[order[k]])
    ensures written == order && padded == PaddedFrom(lengths, 0, batchSize)
  {
    written, padded := [], 0;
    var n, b := |order|, 0;
    while b < n
      invariant 0 <= b <= n
      invariant written == order[..b]
      invariant padded + PaddedFrom(lengths, b, batchSize) == PaddedFrom(lengths, 0, batchSize)
      invariant forall k :: 0 <= k < b ==> scores[order[k]] == logit(encoded[order[k]])
    {
      var end := if b + batchSize < n then b + batchSize else n;
      ScoreBatch(encoded, logit, order, b, end, scores);
      written := written + order[b..end];
      padded := padded + PaddedTo(end - b, Max(lengths[b..end]));
      b := end;
    }
  }

  // One batch: the scores of `order[b..end]`, scattered to their own indices.
  method ScoreBatch(
    encoded: seq<Tokens>, logit: Tokens -> real, order: seq<nat>, b: nat, end: nat, scores: array<real>)
    requires b <= end <= |order| == |encoded| == scores.Length
    requires Below(order, |encoded|)
    requires forall i, k :: 0 <= i < k < |order| ==> order[i] != order[k]
    modifies scores
    ensures forall k :: b <= k < end ==> scores[order[k]] == logit(encoded[order[k]])
    ensures forall k :: 0 <= k < |order| && !(b <= k < end) ==> scores[order[k]] == old(scores[order[k]])
  {
    var idxs := order[b..end];
    var vals := seq(|idxs|, j requires 0 <= j < |idxs| => logit(encoded[idxs[j]]));
    for j := 0 to |idxs|
      invariant forall k :: b <= k < b + j ==> scores[order[k]] == logit(encoded[order[k]])
      invariant forall k :: 0 <= k < |order| && !(b <= k < b + j) ==> scores[order[k]] == old(scores[order[k]])
    {
      assert idxs[j] == order[b + j];
      scores[idxs[j]] := vals[j];
    }
  }
}
