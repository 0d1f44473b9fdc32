/**
 * The stored round history, capped at the 300 most recent rounds
 * (pushHistory), and the lifetime totals (updateTotals).
 */
module History {
  import opened Moves
  import opened Predictors

  /** How many rounds the history keeps. */
  const HistoryCap: nat := 300

  function Min(a: nat, b: nat): nat { if a <= b then a else b }

  /** The history after appending e and dropping the oldest entries beyond the cap. */
  function AppendCapped(h: seq<HistoryEntry>, e: HistoryEntry): (r: seq<HistoryEntry>)
    ensures |r| == Min(|h| + 1, HistoryCap)
    ensures r[|r| - 1] == e
    ensures forall i :: 0 <= i < |r| - 1 ==> r[i] == h[|h| + 1 - |r| + i]
  {
    var all := h + [e];
    if |all| > HistoryCap then all[|all| - HistoryCap..] else all
  }

  /** The most recent n entries, all of them when there are fewer (`slice(-n)`). */
  function Recent(h: seq<HistoryEntry>, n: nat): (r: seq<HistoryEntry>)
    ensures |r| == Min(|h|, n)
    ensures forall i :: 0 <= i < |r| ==> r[i] == h[|h| - |r| + i]
  {
    if |h| <= n then h else h[|h| - n..]
  }

  /** The n-gram detector sees the same last six moves in the recent window of eight. */
  lemma {:induction false} RecentKeepsTail(h: seq<HistoryEntry>, k: nat)
    requires 1 <= k <= 8 && k <= |h|
    ensures |Recent(h, 8)| >= k
    ensures FromEnd(Recent(h, 8), k) == FromEnd(h, k)
  {
    var r := Recent(h, 8);
    assert r[|r| - k] == h[|h| - |r| + (|r| - k)];
  }

  /** The persisted round history. */
  class RoundHistory {
    var entries: seq<HistoryEntry>

    ghost predicate Valid()
      reads this
    {
      |entries| <= HistoryCap
    }

    constructor ()
      ensures Valid() && entries == []
    {
      entries := [];
    }

    /** pushHistory: append, then splice away the oldest entries beyond the cap. */
    method Push(e: HistoryEntry)
      requires Valid()
      modifies this
      ensures Valid()
      ensures entries == AppendCapped(old(entries), e)
    {
      entries := entries + [e];
      if |entries| > HistoryCap {
        entries := entries[|entries| - HistoryCap..];
      }
    }
  }

  /** Lifetime results of the player; sessions is kept but never counted here. */
  class Totals {
    var wins: nat
    var losses: nat
    var draws: nat
    var sessions: nat

    constructor ()
      ensures wins == 0 && losses == 0 && draws == 0 && sessions == 0
    {
      wins, losses, draws, sessions := 0, 0, 0, 0;
    }

    function Played(): nat
      reads this
    {
      wins + losses + draws
    }

    /** updateTotals: one more win, loss or draw. */
    method Update(res: Result)
      modifies this
      ensures wins == old(wins) + (if res == Win then 1 else 0)
      ensures losses == old(losses) + (if res == Lose then 1 else 0)
      ensures draws == old(draws) + (if res == Draw then 1 else 0)
      ensures sessions == old(sessions)
      ensures Played() == old(Played()) + 1
    {
      if res == Win {
        wins := wins + 1;
      } else if res == Lose {
        losses := losses + 1;
      } else {
        draws := draws + 1;
      }
    }
  }
}
