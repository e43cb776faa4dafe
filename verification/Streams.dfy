/** `Pool.mapStream`, which yields in completion order from a sliding window, and the
    barrier of `Pool.drain`. */
module Streams {
  import opened Collections
  import opened Options

  /** `Promise.race` settles with one of its entries. */
  ghost predicate Races(pick: seq<nat> -> nat) {
    forall slots :: slots != [] ==> pick(slots) < |slots|
  }

  ghost predicate AllBelow(xs: seq<nat>, limit: nat) {
    forall i :: 0 <= i < |xs| ==> xs[i] < limit
  }

  /** No index is yielded before the window has reached it. */
  ghost predicate WithinReach(yielded: seq<nat>, concurrency: int) {
    forall i :: 0 <= i < |yielded| ==> yielded[i] < i + concurrency
  }

  /** The indices yielded and those in flight are the ones dispatched so far, each once. */
  ghost predicate Windowed(n: nat, concurrency: int, cursor: nat, yielded: seq<nat>, slots: seq<nat>) {
    && cursor <= n && |yielded| + |slots| == cursor
    && Distinct(yielded + slots) && AllBelow(yielded + slots, cursor)
    && |slots| <= concurrency && (cursor < n ==> |slots| == concurrency)
    && WithinReach(yielded, concurrency)
  }

  lemma WindowFacts(n: nat, concurrency: int, cursor: nat, yielded: seq<nat>, slots: seq<nat>)
    requires Windowed(n, concurrency, cursor, yielded, slots)
    ensures Distinct(yielded) && AllBelow(yielded, n)
    ensures forall w :: 0 <= w < |slots| ==> slots[w] < n && slots[w] !in yielded
  {
    var all := yielded + slots;
    forall i | 0 <= i < |yielded| ensures yielded[i] == all[i] {
    }
    forall w | 0 <= w < |slots| ensures slots[w] == all[|yielded| + w] {
    }
  }

  lemma WinnerLeaves(n: nat, concurrency: int, cursor: nat, yielded: seq<nat>, slots: seq<nat>, w: nat)
    requires Windowed(n, concurrency, cursor, yielded, slots) && w < |slots|
    ensures var y, rest := yielded + [slots[w]], slots[..w] + slots[w + 1..];
            Distinct(y + rest) && AllBelow(y + rest, cursor) && WithinReach(y, concurrency)
  {
    var all, m := yielded + slots, |yielded|;
    var next := yielded + [slots[w]] + (slots[..w] + slots[w + 1..]);
    forall i | 0 <= i < |next|
      ensures next[i] == all[if i < m then i else if i == m then m + w else if i <= m + w then i - 1 else i]
    {
    }
    assert slots[w] == all[m + w];
  }

  lemma NextJoins(cursor: nat, yielded: seq<nat>, slots: seq<nat>)
    requires Distinct(yielded + slots) && AllBelow(yielded + slots, cursor)
    ensures Distinct(yielded + (slots + [cursor])) && AllBelow(yielded + (slots + [cursor]), cursor + 1)
  {
    assert yielded + (slots + [cursor]) == (yielded + slots) + [cursor];
  }

  lemma WindowMoves(n: nat, concurrency: int, cursor: nat, yielded: seq<nat>, slots: seq<nat>, w: nat)
    requires Windowed(n, concurrency, cursor, yielded, slots) && w < |slots|
    ensures var y, rest := yielded + [slots[w]], slots[..w] + slots[w + 1..];
            if cursor < n then Windowed(n, concurrency, cursor + 1, y, rest + [cursor])
            else Windowed(n, concurrency, cursor, y, rest)
  {
    WinnerLeaves(n, concurrency, cursor, yielded, slots, w);
    NextJoins(cursor, yielded + [slots[w]], slots[..w] + slots[w + 1..]);
  }

  /** Whoever wins each race: every index is yielded once, none before the window has
      reached it, until one fails; that one's error ends the stream. A window that is not
      positive yields nothing at all. */
  method MapStream(n: nat, concurrency: int, pick: seq<nat> -> nat, fails: nat -> bool)
    returns (yielded: seq<nat>, threw: Option<nat>)
    requires Races(pick)
    ensures Distinct(yielded) && AllBelow(yielded, n) && WithinReach(yielded, concurrency)
    ensures forall i :: 0 <= i < |yielded| ==> !fails(yielded[i])
    ensures concurrency >= 1 && threw.None? ==> |yielded| == n
    ensures threw.Some? ==> threw.value < n && fails(threw.value) && threw.value !in yielded
    ensures concurrency < 1 ==> yielded == [] && threw.None?
  {
    yielded, threw := [], None;
    var slots: seq<nat> := [];
    var cursor := 0;
    while |slots| < concurrency && cursor < n
      invariant |slots| == cursor <= n && (cursor == 0 || cursor <= concurrency)
      invariant forall i :: 0 <= i < |slots| ==> slots[i] == i
    {
      slots := slots + [cursor];
      cursor := cursor + 1;
    }
    if concurrency < 1 {
      return;
    }
    assert [] + slots == slots;
    while |slots| > 0
      invariant Windowed(n, concurrency, cursor, yielded, slots)
      invariant forall i :: 0 <= i < |yielded| ==> !fails(yielded[i])
      decreases n - |yielded|
    {
      var winner := pick(slots);
      WindowFacts(n, concurrency, cursor, yielded, slots);
      if fails(slots[winner]) {
        threw := Some(slots[winner]);
        return;
      }
      WindowMoves(n, concurrency, cursor, yielded, slots, winner);
      yielded, slots := yielded + [slots[winner]], slots[..winner] + slots[winner + 1..];
      if cursor < n {
        slots := slots + [cursor];
        cursor := cursor + 1;
      }
    }
    WindowFacts(n, concurrency, cursor, yielded, slots);
  }

  // ---- drain ------------------------------------------------------------------------------------

  /** The counter of a pool and the promises that wait for it. `resolved` lists the
      barriers released so far; a barrier is named by the order of its creation. */
  class DrainCounter {
    var inFlight: nat
    var barrier: Option<nat>
    var created: nat
    var resolved: seq<nat>

    /** A barrier waits only while something is in flight, and all the earlier ones have
        been released, in order. */
    ghost predicate Valid()
      reads this
    {
      && (barrier.Some? ==> inFlight != 0 && created == |resolved| + 1 && barrier.value == |resolved|)
      && (barrier.None? ==> created == |resolved|)
      && forall i :: 0 <= i < |resolved| ==> resolved[i] == i
    }

    constructor ()
      ensures Valid() && inFlight == 0 && barrier == None && resolved == []
    {
      inFlight, barrier, created, resolved := 0, None, 0, [];
    }

    /** `None` is a promise that is already resolved. */
    method Drain() returns (wait: Option<nat>)
      requires Valid()
      modifies this
      ensures Valid() && inFlight == old(inFlight) && resolved == old(resolved)
      ensures wait.None? <==> inFlight == 0
      ensures wait == if old(inFlight) == 0 then None else barrier
      ensures old(barrier).Some? ==> barrier == old(barrier)
    {
      if inFlight == 0 {
        return None;
      }
      if barrier.None? {
        barrier := Some(created);
        created := created + 1;
      }
      return barrier;
    }

    /** Counting up releases nobody. */
    method Inc(n: nat)
      requires Valid()
      modifies this
      ensures Valid() && inFlight == old(inFlight) + n && barrier == old(barrier) && resolved == old(resolved)
    {
      inFlight := inFlight + n;
    }

    /** Every waiting drain is released exactly when the counter returns to zero. */
    method Dec(n: nat)
      requires Valid() && n <= inFlight
      modifies this
      ensures Valid() && inFlight == old(inFlight) - n
      ensures barrier == if inFlight == 0 then None else old(barrier)
      ensures resolved == old(resolved) + if inFlight == 0 && old(barrier).Some? then [old(barrier).value] else []
    {
      inFlight := inFlight - n;
      if inFlight == 0 && barrier.Some? {
        var b := barrier.value;
        barrier := None;
        resolved := resolved + [b];
      }
    }
  }
}
