/**
  The rotating window of the fleet refresh: how many sources one tick checks, and how soon all
  of them have been checked.
*/
module FleetWindow {
  type SourceId = nat

  // The cursor after one tick over `n` sources.
  function NextCursor(cursor: nat, n: nat, cap: nat): nat {
    if n > cap then (cursor % n + cap) % n else cursor
  }

  // The indexes one tick checks.
  predicate Checked(cursor: nat, n: nat, cap: nat, i: nat) {
    i < n && (n <= cap || Distance(cursor % n, i, n) < cap)
  }

  // How far `i` is ahead of the window's start, going around.
  function Distance(start: nat, i: nat, n: nat): nat
    requires start < n && i < n
  {
    if i >= start then i - start else n - start + i
  }

  class Fleet {
    var cursor: nat

    constructor ()
      ensures cursor == 0
    {
      cursor := 0;
    }

    /** The window of one tick: `cap` sources from the cursor on, around the end of the list;
        or all of them when there are no more than that. */
    method Tick(sources: seq<SourceId>, cap: nat) returns (window: seq<SourceId>)
      modifies this
      ensures cursor == NextCursor(old(cursor), |sources|, cap)
      ensures |sources| <= cap ==> window == sources
      ensures |sources| > cap ==> |window| == cap
      ensures |sources| > cap ==> forall i :: 0 <= i < |sources| ==>
        var ahead := Distance(old(cursor) % |sources|, i, |sources|);
        ahead < cap ==> window[ahead] == sources[i]
      ensures forall i :: 0 <= i < |sources| && Checked(old(cursor), |sources|, cap, i) ==> sources[i] in window
      ensures Distinct(sources) ==> Distinct(window)
      ensures Distinct(sources) ==>
        forall i :: 0 <= i < |sources| ==> (sources[i] in window <==> Checked(old(cursor), |sources|, cap, i))
    {
      var n := |sources|;
      if n > cap {
        var start := cursor % n;
        window := (sources + sources)[start..start + cap];
        cursor := (start + cap) % n;
        WindowIsDistinct(sources, start, window);
      } else {
        window := sources;
      }
    }

    /** Consecutive ticks over the same sources check every source, once their windows add up
        to the number of sources. */
    method Sweep(sources: seq<SourceId>, cap: nat, ticks: nat) returns (checked: set<SourceId>)
      modifies this
      ensures forall i :: 0 <= i < |sources| && CheckedWithin(old(cursor), |sources|, cap, ticks, i) ==>
              sources[i] in checked
      ensures ticks >= 1 && ticks * cap >= |sources| ==> forall i :: 0 <= i < |sources| ==> sources[i] in checked
    {
      checked := {};
      var n := |sources|;
      for t := 0 to ticks
        invariant forall i :: 0 <= i < n && CheckedWithin(old(cursor), n, cap, ticks, i) ==>
          sources[i] in checked || CheckedWithin(cursor, n, cap, ticks - t, i)
      {
        var window := Tick(sources, cap);
        checked := checked + set s | s in window;
      }
      if ticks >= 1 && ticks * cap >= n {
        if cap < n {
          FleetCovered(old(cursor), n, cap, ticks);
        } else {
          assert forall i :: 0 <= i < n ==> Checked(old(cursor), n, cap, i);
        }
      }
    }
  }

  predicate Distinct(s: seq<SourceId>) {
    forall i, k :: 0 <= i < k < |s| ==> s[i] != s[k]
  }

  // The position `d` places ahead of the window's start, going around.
  function Around(start: nat, d: nat, n: nat): (i: nat)
    requires start < n && d < n
    ensures i < n && Distance(start, i, n) == d
  {
    if start + d < n then start + d else start + d - n
  }

  // Different positions are at different distances, so a window names no position twice.
  lemma DistanceIsPosition(start: nat, i: nat, k: nat, n: nat)
    requires start < n && i < n && k < n
    ensures Distance(start, i, n) == Distance(start, k, n) <==> i == k
  {
  }

  lemma WindowIsDistinct(sources: seq<SourceId>, start: nat, window: seq<SourceId>)
    requires start < |sources| && |window| < |sources| && window == (sources + sources)[start..start + |window|]
    ensures forall i :: 0 <= i < |sources| && Distance(start, i, |sources|) < |window| ==> sources[i] in window
    ensures Distinct(sources) ==> Distinct(window)
    ensures Distinct(sources) ==>
      forall i :: 0 <= i < |sources| && sources[i] in window ==> Distance(start, i, |sources|) < |window|
  {
    var n := |sources|;
    assert forall d :: 0 <= d < |window| ==> window[d] == sources[Around(start, d, n)];
    forall i | 0 <= i < n && Distance(start, i, n) < |window|
      ensures sources[i] in window
    {
      assert window[Distance(start, i, n)] == sources[i];
    }
    if Distinct(sources) {
      forall d, e | 0 <= d < e < |window|
        ensures window[d] != window[e]
      {
        DistanceIsPosition(start, Around(start, d, n), Around(start, e, n), n);
      }
    }
  }

  lemma CursorMoves(cursor: nat, n: nat, cap: nat, i: nat)
    requires cap < n && i < n
    ensures NextCursor(cursor, n, cap) < n
    ensures NextCursor(cursor, n, cap) % n == NextCursor(cursor, n, cap)
    ensures Distance(NextCursor(cursor, n, cap), i, n) ==
            var d := Distance(cursor % n, i, n);
            if d >= cap then d - cap else d - cap + n
  {
    var start := cursor % n;
    Wraps(start + cap, n);
    Wraps(NextCursor(cursor, n, cap), n);
  }

  lemma Wraps(x: nat, n: nat)
    requires 0 < n && x < n + n
    ensures x % n == if x < n then x else x - n
  {
    if x >= n {
      assert x == n + (x - n);
    }
  }

  // Source `i` is checked by one of the next `ticks` ticks.
  predicate CheckedWithin(cursor: nat, n: nat, cap: nat, ticks: nat, i: nat)
    decreases ticks
  {
    ticks > 0 && (Checked(cursor, n, cap, i) || CheckedWithin(NextCursor(cursor, n, cap), n, cap, ticks - 1, i))
  }

  // `reach` is the number of positions `ticks` windows advance.
  lemma {:induction false} ReachedByDistance(cursor: nat, n: nat, cap: nat, ticks: nat, reach: nat, i: nat)
    requires cap < n && i < n && reach == ticks * cap
    ensures CheckedWithin(cursor, n, cap, ticks, i) <==> Distance(cursor % n, i, n) < reach
    decreases ticks
  {
    if ticks > 0 {
      assert ticks * cap == (ticks - 1) * cap + cap;
      CursorMoves(cursor, n, cap, i);
      ReachedByDistance(NextCursor(cursor, n, cap), n, cap, ticks - 1, reach - cap, i);
    }
  }

  /** With more sources than the cap, any `ticks` consecutive ticks check every source exactly
      when their windows add up to the number of sources, from any cursor. */
  lemma FleetCovered(cursor: nat, n: nat, cap: nat, ticks: nat)
    requires cap < n
    ensures (forall i :: 0 <= i < n ==> CheckedWithin(cursor, n, cap, ticks, i)) <==> ticks * cap >= n
  {
    FleetReached(cursor, n, cap, ticks, ticks * cap);
  }

  lemma FleetReached(cursor: nat, n: nat, cap: nat, ticks: nat, reach: nat)
    requires cap < n && reach == ticks * cap
    ensures (forall i :: 0 <= i < n ==> CheckedWithin(cursor, n, cap, ticks, i)) <==> reach >= n
  {
    if reach >= n {
      forall i | 0 <= i < n
        ensures CheckedWithin(cursor, n, cap, ticks, i)
      {
        ReachedByDistance(cursor, n, cap, ticks, reach, i);
      }
    } else {
      var start := cursor % n;
      var last := if start + reach < n then start + reach else start + reach - n;
      assert Distance(start, last, n) == reach;
      ReachedByDistance(cursor, n, cap, ticks, reach, last);
      assert !CheckedWithin(cursor, n, cap, ticks, last);
    }
  }

  /** So the least number of ticks that check every source is the quotient rounded up. */
  lemma LeastTicks(cursor: nat, n: nat, cap: nat, ticks: nat)
    requires 1 <= cap < n
    ensures (forall i :: 0 <= i < n ==> CheckedWithin(cursor, n, cap, ticks, i)) <==> ticks >= (n + cap - 1) / cap
  {
    var least := (n + cap - 1) / cap;
    FleetCovered(cursor, n, cap, ticks);
    QuotientUp(n, cap, least);
    if ticks >= least {
      MoreTicks(ticks, least, cap);
    } else {
      MoreTicks(least - 1, ticks, cap);
    }
  }

  lemma QuotientUp(n: nat, cap: nat, least: nat)
    requires 1 <= cap < n && least == (n + cap - 1) / cap
    ensures least >= 1 && least * cap >= n && (least - 1) * cap < n
  {
    assert n + cap - 1 == cap * least + (n + cap - 1) % cap;
    assert (least - 1) * cap == least * cap - cap;
  }

  lemma {:induction false} MoreTicks(a: nat, b: nat, cap: nat)
    requires a >= b
    ensures a * cap >= b * cap
  {
    if a > b {
      MoreTicks(a - 1, b, cap);
      assert a * cap == (a - 1) * cap + cap;
    }
  }
}
