/**
 * The predictors of the player's next move. Each one gives a distribution
 * or has no opinion (None). The model state they read (counts, tables, the
 * move window, the hover snapshot, the recent history) is passed in.
 */
module Predictors {
  import opened Wrappers
  import opened Moves
  import opened Distributions

  /** What the pointer sensor recorded during one round. */
  datatype Snapshot = Snapshot(hoverMs: Dist, switches: nat, path: real) {
    /** Hover times and the pointer path are accumulated distances, never negative. */
    predicate Valid() {
      NonNegative(hoverMs) && path >= 0.0
    }
  }

  /** One stored round. */
  datatype HistoryEntry = HistoryEntry(
    t: int, player: Move, ai: Move, res: Result,
    decisionMs: real, hoverMs: Dist, switches: nat, path: real)

  /** The bucket under k, or the empty bucket when the table has none (`table[k] || {}`). */
  function Bucket<K>(t: map<K, Dist>, k: K): Dist {
    if k in t then t[k] else Zero()
  }

  ghost predicate TableNonNegative<K>(t: map<K, Dist>) {
    forall k :: k in t ==> NonNegative(t[k])
  }

  /** distFromCounts applied to the bucket of a table under key k. */
  function DistFromCounts<K>(t: map<K, Dist>, k: K): (r: Dist)
    ensures k !in t ==> r == Uniform()
    ensures Bucket(t, k).Total() <= Tiny ==> r == Uniform()
    ensures Bucket(t, k).Total() > Tiny ==> forall m :: r.Get(m) * Bucket(t, k).Total() == Bucket(t, k).Get(m)
    ensures TableNonNegative(t) ==> IsDistribution(r)
    ensures forall a, b :: Bucket(t, k).Get(a) <= Bucket(t, k).Get(b) ==> r.Get(a) <= r.Get(b)
  {
    NormKeepsOrder(Bucket(t, k));
    NormDist(Bucket(t, k))
  }

  /** Global frequency of the player's moves. */
  function PredFreq(counts: Dist): (r: Dist)
    ensures counts.Total() <= Tiny ==> r == Uniform()
    ensures counts.Total() > Tiny ==> forall m :: r.Get(m) * counts.Total() == counts.Get(m)
    ensures NonNegative(counts) ==> IsDistribution(r)
    ensures forall a, b :: counts.Get(a) <= counts.Get(b) ==> r.Get(a) <= r.Get(b)
  {
    NormKeepsOrder(counts);
    NormDist(counts)
  }

  /** First-order transition: the distribution of moves that followed lastMove. */
  function PredTrans1(trans1: map<Move, Dist>, lastMove: Option<Move>): (r: Option<Dist>)
    ensures r.None? <==> lastMove.None?
    ensures r.Some? ==> r.value == DistFromCounts(trans1, lastMove.value)
    ensures r.Some? && TableNonNegative(trans1) ==> IsDistribution(r.value)
  {
    if lastMove.None? then None else Some(DistFromCounts(trans1, lastMove.value))
  }

  /** Second-order transition: the distribution of moves that followed the last two. */
  function PredTrans2(trans2: map<(Move, Move), Dist>, lastTwoKey: Option<(Move, Move)>): (r: Option<Dist>)
    ensures r.None? <==> lastTwoKey.None?
    ensures r.Some? ==> r.value == DistFromCounts(trans2, lastTwoKey.value)
    ensures r.Some? && lastTwoKey.value !in trans2 ==> r.value == Uniform()
    ensures r.Some? && TableNonNegative(trans2) ==> IsDistribution(r.value)
  {
    if lastTwoKey.None? then None else Some(DistFromCounts(trans2, lastTwoKey.value))
  }

  /** Post-result: the distribution of moves that followed the last result. */
  function PredPostRes(postRes: map<Result, Dist>, lastResult: Option<Result>): (r: Option<Dist>)
    ensures r.None? <==> lastResult.None?
    ensures r.Some? ==> r.value == DistFromCounts(postRes, lastResult.value)
    ensures r.Some? && TableNonNegative(postRes) ==> IsDistribution(r.value)
  {
    if lastResult.None? then None else Some(DistFromCounts(postRes, lastResult.value))
  }

  /**
   * The repeat heuristic: a winner repeats, a loser splits 0.4 / 0.6 between
   * repeating and moving to the counter of the last move, otherwise a lean of
   * 0.55 on repeating; a streak of two or more adds 0.5 to repeating.
   */
  function PredRepeat(lastMove: Option<Move>, lastResult: Option<Result>, streak: nat): (r: Option<Dist>)
    ensures r.None? <==> lastMove.None?
    ensures r.Some? ==> IsDistribution(r.value)
    ensures lastMove.Some? && lastResult != Some(Lose) ==> r == Some(PointMass(lastMove.value))
    ensures lastMove.Some? && lastResult == Some(Lose) && streak < 2 ==>
      r.value.Get(lastMove.value) == 0.4 && r.value.Get(Counter(lastMove.value)) == 0.6
    ensures lastMove.Some? && lastResult == Some(Lose) && streak >= 2 ==>
      r.value.Get(lastMove.value) == 0.6 && r.value.Get(Counter(lastMove.value)) == 0.4
  {
    if lastMove.None? then None
    else
      RepeatShares(lastMove.value, lastResult, streak);
      Some(NormDist(RepeatBucket(lastMove.value, lastResult, streak)))
  }

  /** The unnormalised votes of the repeat heuristic. */
  function RepeatBucket(m: Move, lastResult: Option<Result>, streak: nat): Dist {
    var d :=
      if lastResult == Some(Win) then Zero().With(m, 1.0)
      else if lastResult == Some(Lose) then Zero().With(m, 0.4).With(Counter(m), 0.6)
      else Zero().With(m, 0.55);
    if streak >= 2 then d.With(m, d.Get(m) + 0.5) else d
  }

  lemma RepeatShares(m: Move, lastResult: Option<Result>, streak: nat)
    ensures IsDistribution(NormDist(RepeatBucket(m, lastResult, streak)))
    ensures lastResult != Some(Lose) ==> NormDist(RepeatBucket(m, lastResult, streak)) == PointMass(m)
    ensures lastResult == Some(Lose) && streak < 2 ==>
      NormDist(RepeatBucket(m, lastResult, streak)).Get(m) == 0.4
      && NormDist(RepeatBucket(m, lastResult, streak)).Get(Counter(m)) == 0.6
    ensures lastResult == Some(Lose) && streak >= 2 ==>
      NormDist(RepeatBucket(m, lastResult, streak)).Get(m) == 0.6
      && NormDist(RepeatBucket(m, lastResult, streak)).Get(Counter(m)) == 0.4
  {
    var d := RepeatBucket(m, lastResult, streak);
    assert NonNegative(d);
    if lastResult == Some(Lose) {
      var a := if streak >= 2 then 0.9 else 0.4;
      assert d == Zero().With(m, a).With(Counter(m), 0.6);
      NormPair(m, a, 0.6);
    } else {
      var v := d.Get(m);
      assert v >= 0.55;
      assert d == Zero().With(m, v);
      NormSingle(m, v);
    }
  }

  /** Normalising a bucket with mass only on m and on Counter(m). */
  lemma NormPair(m: Move, a: real, b: real)
    requires a > 0.0 && b > 0.0 && a + b > Tiny
    ensures NormDist(Zero().With(m, a).With(Counter(m), b)).Get(m) * (a + b) == a
    ensures NormDist(Zero().With(m, a).With(Counter(m), b)).Get(Counter(m)) * (a + b) == b
  {
    var d := Zero().With(m, a).With(Counter(m), b);
    assert Counter(m) != m;
    assert d.Get(m) == a && d.Get(Counter(m)) == b;
    var s := d.Total();
    assert s == a + b by {
      match m
      case Tesoura =>
      case Pedra =>
      case Papel =>
    }
    NormEntry(d, m);
    NormEntry(d, Counter(m));
  }

  lemma NormEntry(d: Dist, m: Move)
    requires d.Total() > Tiny
    ensures NormDist(d).Get(m) * d.Total() == d.Get(m)
  {
  }

  /** The move of the entry k places from the end of the history (k = 1 is the latest). */
  function FromEnd(history: seq<HistoryEntry>, k: nat): Move
    requires 1 <= k <= |history|
  {
    history[|history| - k].player
  }

  /** The last four player moves read A, B, A, B with A different from B. */
  predicate Abab(history: seq<HistoryEntry>)
    requires |history| >= 4
  {
    FromEnd(history, 4) == FromEnd(history, 2) && FromEnd(history, 3) == FromEnd(history, 1)
    && FromEnd(history, 4) != FromEnd(history, 3)
  }

  /** The last six player moves read A, B, C, A, B, C. */
  predicate Abcabc(history: seq<HistoryEntry>)
    requires |history| >= 6
  {
    FromEnd(history, 6) == FromEnd(history, 3) && FromEnd(history, 5) == FromEnd(history, 2)
    && FromEnd(history, 4) == FromEnd(history, 1)
  }

  /** The two patterns never hold together. */
  lemma PatternsExclusive(history: seq<HistoryEntry>)
    requires |history| >= 6
    ensures !(Abab(history) && Abcabc(history))
  {
  }

  /**
   * The short n-gram detector over the last six moves: an A, B, A, B tail
   * votes 1 for A, an A, B, C, A, B, C tail votes 0.8 for A; no vote means
   * no opinion.
   */
  function PredNgram(history: seq<HistoryEntry>): (r: Option<Dist>)
    ensures |history| < 4 ==> r.None?
    ensures |history| >= 4 && Abab(history) ==> r == Some(PointMass(FromEnd(history, 4)))
    ensures |history| >= 6 && Abcabc(history) ==> r == Some(PointMass(FromEnd(history, 6)))
    ensures |history| >= 4 && !Abab(history) && (|history| >= 6 ==> !Abcabc(history)) ==> r.None?
    ensures r.Some? ==> IsDistribution(r.value)
  {
    if |history| < 4 then None
    else
      var d0 := Zero();
      var d1 := if Abab(history) then d0.With(FromEnd(history, 4), d0.Get(FromEnd(history, 4)) + 1.0) else d0;
      var d2 :=
        if |history| >= 6 && Abcabc(history)
        then d1.With(FromEnd(history, 6), d1.Get(FromEnd(history, 6)) + 0.8)
        else d1;
      var nd := NormDist(d2);
      NgramVote(history, d1, d2);
      if nd == Uniform() then None else Some(nd)
  }

  lemma NgramVote(history: seq<HistoryEntry>, d1: Dist, d2: Dist)
    requires |history| >= 4
    requires d1 == if Abab(history) then Zero().With(FromEnd(history, 4), 1.0) else Zero()
    requires d2 ==
      if |history| >= 6 && Abcabc(history)
      then d1.With(FromEnd(history, 6), d1.Get(FromEnd(history, 6)) + 0.8)
      else d1
    ensures Abab(history) ==> NormDist(d2) == PointMass(FromEnd(history, 4))
    ensures |history| >= 6 && Abcabc(history) ==> NormDist(d2) == PointMass(FromEnd(history, 6))
    ensures !Abab(history) && (|history| >= 6 ==> !Abcabc(history)) ==> NormDist(d2) == Uniform()
    ensures NormDist(d2) == PointMass(Tesoura) || NormDist(d2) == PointMass(Pedra)
      || NormDist(d2) == PointMass(Papel) || NormDist(d2) == Uniform()
  {
    if |history| >= 6 {
      PatternsExclusive(history);
    }
    if Abab(history) {
      NormSingle(FromEnd(history, 4), 1.0);
    } else if |history| >= 6 && Abcabc(history) {
      NormSingle(FromEnd(history, 6), 0.8);
    } else {
      assert d2 == Zero();
    }
  }

  /** The moves pedra, papel, pedra, papel put all the mass on pedra. */
  lemma NgramAbabExample(history: seq<HistoryEntry>)
    requires |history| == 4
    requires history[0].player == Pedra && history[1].player == Papel
    requires history[2].player == Pedra && history[3].player == Papel
    ensures PredNgram(history) == Some(PointMass(Pedra))
  {
    assert Abab(history);
  }

  /** Hover intent: the distribution proportional to the hover times of this round. */
  function PredHoverIntent(snap: Snapshot): (r: Option<Dist>)
    ensures r.None? <==> snap.hoverMs.Total() <= 0.0
    ensures r.Some? && snap.hoverMs.Total() > Tiny ==>
      forall m :: r.value.Get(m) * snap.hoverMs.Total() == snap.hoverMs.Get(m)
    ensures r.Some? && snap.Valid() ==> IsDistribution(r.value)
  {
    if snap.hoverMs.Total() <= 0.0 then None else Some(NormDist(snap.hoverMs))
  }

  /** Hover times of 900, 50 and 10 ms on scissors, rock and paper give scissors more than 0.8. */
  lemma HoverFavoursScissors()
    ensures PredHoverIntent(Snapshot(Dist(900.0, 50.0, 10.0), 0, 0.0)).Some?
    ensures PredHoverIntent(Snapshot(Dist(900.0, 50.0, 10.0), 0, 0.0)).value.Get(Tesoura) > 0.8
  {
    var r := PredHoverIntent(Snapshot(Dist(900.0, 50.0, 10.0), 0, 0.0));
    assert r.value.Get(Tesoura) * 960.0 == 900.0;
  }

  /** The latency floor and multiplier of the hesitation test. */
  const SlowFloorMs: real := 700.0
  const SlowFactor: real := 1.25

  function Max(a: real, b: real): real { if a >= b then a else b }

  /** A decision is slow when it exceeds both 700 ms and 1.25 times the running average. */
  predicate IsSlow(decisionMs: real, avgDecisionMs: real) {
    decisionMs > Max(SlowFloorMs, avgDecisionMs * SlowFactor)
  }

  /** isHesitant: a slow decision, three or more hover switches, or a pointer path over 800. */
  function IsHesitant(snap: Snapshot, decisionMs: real, avgDecisionMs: real): (h: bool)
    ensures h <==> (decisionMs > SlowFloorMs && decisionMs > avgDecisionMs * SlowFactor)
                   || snap.switches >= 3 || snap.path > 800.0
  {
    IsSlow(decisionMs, avgDecisionMs) || snap.switches >= 3 || snap.path > 800.0
  }

  /** A lower running average never makes a hesitant round less hesitant. */
  lemma HesitationBarRises(snap: Snapshot, decisionMs: real, avg1: real, avg2: real)
    requires avg1 <= avg2 && IsHesitant(snap, decisionMs, avg2)
    ensures IsHesitant(snap, decisionMs, avg1)
  {
  }

  /** The most hovered move; among equal times the first in Order (the reduce in the source). */
  function MostHovered(hover: Dist): (m: Move)
    ensures forall k :: hover.Get(k) <= hover.Get(m)
    ensures forall k :: hover.Get(k) == hover.Get(m) ==> OrderIndex(m) <= OrderIndex(k)
  {
    var best0 := Tesoura;
    var best1 := if hover.Get(Pedra) > hover.Get(best0) then Pedra else best0;
    if hover.Get(Papel) > hover.Get(best1) then Papel else best1
  }

  /**
   * The hesitation pivot: in a hesitant round, the recorded distribution of
   * the moves actually chosen when the most hovered move was the current one.
   */
  function PredPivot(snap: Snapshot, hesitant: bool, pivot: map<Move, Dist>): (r: Option<Dist>)
    ensures r.None? <==> !hesitant
    ensures r.Some? ==> r.value == NormDist(if MostHovered(snap.hoverMs) in pivot then pivot[MostHovered(snap.hoverMs)] else Ones())
    ensures r.Some? && MostHovered(snap.hoverMs) !in pivot ==> r.value == Uniform()
    ensures r.Some? && TableNonNegative(pivot) ==> IsDistribution(r.value)
  {
    if !hesitant then None
    else
      var most := MostHovered(snap.hoverMs);
      Some(NormDist(if most in pivot then pivot[most] else Ones()))
  }
}
