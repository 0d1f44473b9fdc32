/**
 * The per-round changes to the learned tables (decayCounts, decayNested and
 * the increments of updateModelAfterRound), the window fields and the
 * performance scores. Each change is a function of the old value; the
 * loops of the source are the methods DecayNested and LearnPerf.
 */
module Tables {
  import opened Wrappers
  import opened Moves
  import opened Distributions
  import opened Predictors
  import opened Combination

  /** Every bucket of the table has only positive entries. */
  ghost predicate TablePositive<K>(t: map<K, Dist>) {
    forall k :: k in t ==> Positive(t[k])
  }

  lemma PositiveTableNonNegative<K>(t: map<K, Dist>)
    requires TablePositive(t)
    ensures TableNonNegative(t)
  {
  }

  /** Every bucket multiplied by f. */
  function ScaleTable<K>(t: map<K, Dist>, f: real): (r: map<K, Dist>)
    ensures r.Keys == t.Keys
    ensures forall k :: k in t ==> r[k] == Scale(t[k], f)
  {
    map k | k in t :: Scale(t[k], f)
  }

  lemma {:induction false} ScaleTablePositive<K>(t: map<K, Dist>, f: real)
    ensures TablePositive(t) && f > 0.0 ==> TablePositive(ScaleTable(t, f))
  {
    if TablePositive(t) && f > 0.0 {
      forall k | k in t ensures Positive(ScaleTable(t, f)[k]) {
        ScalePositive(t[k], f);
      }
    }
  }

  /** decayNested: decays every bucket of a table, visiting the keys one at a time. */
  method DecayNested<K>(t: map<K, Dist>, decay: real) returns (r: map<K, Dist>)
    ensures r == ScaleTable(t, decay)
  {
    r := t;
    var todo := t.Keys;
    while todo != {}
      invariant todo <= t.Keys
      invariant r.Keys == t.Keys
      invariant forall k :: k in t && k !in todo ==> r[k] == Scale(t[k], decay)
      invariant forall k :: k in todo ==> r[k] == t[k]
      decreases todo
    {
      var k :| k in todo;
      var c := DecayCounts(r[k], decay);
      r := r[k := c];
      todo := todo - {k};
    }
  }

  /** Global counts after a round: decayed, then one more for the move played. */
  function NextCounts(counts: Dist, decay: real, player: Move): (r: Dist)
    ensures r.Get(player) == decay * counts.Get(player) + 1.0
    ensures forall k :: k != player ==> r.Get(k) == decay * counts.Get(k)
    ensures Positive(counts) && decay > 0.0 ==> Positive(r)
  {
    if Positive(counts) && decay > 0.0 then ScalePositive(counts, decay); Bump(Scale(counts, decay), player)
    else Bump(Scale(counts, decay), player)
  }

  /**
   * The first-order table after a round: every bucket decayed, then the
   * bucket of the previous move (created from ones if missing) counts the
   * move played.
   */
  function NextTrans1(t: map<Move, Dist>, decay: real, lastMove: Option<Move>, player: Move): (r: map<Move, Dist>)
    ensures lastMove.None? ==> r == ScaleTable(t, decay)
    ensures lastMove.Some? ==> r.Keys == t.Keys + {lastMove.value}
    ensures lastMove.Some? && lastMove.value in t ==>
      r[lastMove.value] == NextCounts(t[lastMove.value], decay, player)
    ensures lastMove.Some? && lastMove.value !in t ==> r[lastMove.value] == Bump(Ones(), player)
    ensures forall k :: k in t && Some(k) != lastMove ==> r[k] == Scale(t[k], decay)
    ensures TablePositive(t) && decay > 0.0 ==> TablePositive(r)
  {
    var s := ScaleTable(t, decay);
    ScaleTablePositive(t, decay);
    if lastMove.None? then s
    else
      var m := lastMove.value;
      s[m := Bump(if m in s then s[m] else Ones(), player)]
  }

  /**
   * One bucket after a round in which it was touched: created from ones if
   * missing, decayed, then one more for the move played. The other buckets
   * are not decayed.
   */
  function DecayBump<K>(t: map<K, Dist>, key: K, decay: real, player: Move): (r: map<K, Dist>)
    ensures r.Keys == t.Keys + {key}
    ensures key in t ==> r[key] == NextCounts(t[key], decay, player)
    ensures key !in t ==> r[key] == NextCounts(Ones(), decay, player)
    ensures forall k :: k in t && k != key ==> r[k] == t[k]
    ensures TablePositive(t) && decay > 0.0 ==> TablePositive(r)
  {
    var bucket := if key in t then t[key] else Ones();
    t[key := NextCounts(bucket, decay, player)]
  }

  /** The second-order table after a round: only the bucket of the last two moves changes. */
  function NextTrans2(t: map<(Move, Move), Dist>, decay: real, lastTwoKey: Option<(Move, Move)>, player: Move)
    : (r: map<(Move, Move), Dist>)
    ensures lastTwoKey.None? ==> r == t
    ensures lastTwoKey.Some? ==> r == DecayBump(t, lastTwoKey.value, decay, player)
    ensures TablePositive(t) && decay > 0.0 ==> TablePositive(r)
  {
    if lastTwoKey.None? then t else DecayBump(t, lastTwoKey.value, decay, player)
  }

  /**
   * The post-result table after a round: every bucket decayed, then the
   * bucket of the previous result (draw before the first round) counts the
   * move played.
   */
  function NextPostRes(t: map<Result, Dist>, decay: real, lastResult: Option<Result>, player: Move)
    : (r: map<Result, Dist>)
    ensures r.Keys == t.Keys
    ensures lastResult.GetOr(Draw) in t ==>
      r[lastResult.GetOr(Draw)] == NextCounts(t[lastResult.GetOr(Draw)], decay, player)
    ensures forall k :: k in t && k != lastResult.GetOr(Draw) ==> r[k] == Scale(t[k], decay)
    ensures TablePositive(t) && decay > 0.0 ==> TablePositive(r)
  {
    var s := ScaleTable(t, decay);
    ScaleTablePositive(t, decay);
    var key := lastResult.GetOr(Draw);
    if key in s then s[key := Bump(s[key], player)] else s
  }

  /** The repeat streak after a round: one longer when the move is repeated, else 1. */
  function NextStreak(lastMove: Option<Move>, streak: nat, player: Move): (s: nat)
    ensures s >= 1
    ensures lastMove == Some(player) ==> s == streak + 1
    ensures lastMove != Some(player) ==> s == 1
  {
    if lastMove.Some? && lastMove.value == player then streak + 1 else 1
  }

  /** The length of the run of equal moves that ends a sequence of moves. */
  function TrailingRun(moves: seq<Move>): nat {
    if |moves| == 0 then 0
    else if |moves| >= 2 && moves[|moves| - 2] == moves[|moves| - 1] then TrailingRun(moves[..|moves| - 1]) + 1
    else 1
  }

  /** The streak counts the trailing run of equal moves, before and after every round. */
  lemma {:induction false} StreakIsTrailingRun(moves: seq<Move>, streak: nat, player: Move)
    requires streak == TrailingRun(moves)
    ensures NextStreak(if |moves| == 0 then None else Some(moves[|moves| - 1]), streak, player)
      == TrailingRun(moves + [player])
  {
    var ms := moves + [player];
    assert ms[..|ms| - 1] == moves;
  }

  /** Math.round: the nearest integer, halves rounded up. */
  function JsRound(x: real): (n: int)
    ensures x - 0.5 < n as real <= x + 0.5
  {
    (x + 0.5).Floor
  }

  /**
   * The running average of decision times: 0.9 of the old average plus 0.1
   * of the new time, rounded to whole milliseconds.
   */
  function NextAvg(avg: real, decisionMs: real): (a: real)
    ensures a.Floor as real == a
    ensures 0.9 * avg + 0.1 * decisionMs - 0.5 < a <= 0.9 * avg + 0.1 * decisionMs + 0.5
    ensures avg <= decisionMs ==> avg - 0.5 < a <= decisionMs + 0.5
    ensures decisionMs <= avg ==> decisionMs - 0.5 < a <= avg + 0.5
  {
    JsRound(0.9 * avg + 0.1 * decisionMs) as real
  }

  /** The key of the second-order table after `player` follows `lastMove`. */
  function NextTwoKey(lastMove: Option<Move>, player: Move): (k: Option<(Move, Move)>)
    ensures k.None? <==> lastMove.None?
    ensures k.Some? ==> k.value.0 == lastMove.value && k.value.1 == player
  {
    if lastMove.None? then None else Some((lastMove.value, player))
  }

  /** Learning rate of the performance scores. */
  const Eta: real := 0.15

  /** Every recorded performance score lies in [0, 1]. */
  ghost predicate PerfInRange(perf: map<Predictor, real>) {
    forall n :: n in perf ==> 0.0 <= perf[n] <= 1.0
  }

  lemma EntryAtMostOne(d: Dist, m: Move)
    requires IsDistribution(d)
    ensures 0.0 <= d.Get(m) <= 1.0
  {
  }

  /**
   * The performance scores after a round: each predictor that had an opinion
   * moves its score 0.15 of the way towards the probability it gave to the
   * move actually played (starting from 0.5 when it had no score yet); the
   * other scores stay.
   */
  function NextPerf(perf: map<Predictor, real>, used: map<Predictor, Dist>, player: Move): (r: map<Predictor, real>)
    ensures r.Keys == perf.Keys + used.Keys
    ensures forall n :: n in used ==> r[n] == (1.0 - Eta) * PerfOf(perf, n) + Eta * used[n].Get(player)
    ensures forall n :: n in perf && n !in used ==> r[n] == perf[n]
  {
    map n | n in perf.Keys + used.Keys ::
      if n in used then (1.0 - Eta) * PerfOf(perf, n) + Eta * used[n].Get(player) else perf[n]
  }

  /** Scores stay in [0, 1] when every opinion is a distribution. */
  lemma NextPerfInRange(perf: map<Predictor, real>, used: map<Predictor, Dist>, player: Move)
    requires PerfInRange(perf)
    requires forall n :: n in used ==> IsDistribution(used[n])
    ensures PerfInRange(NextPerf(perf, used, player))
  {
    var r := NextPerf(perf, used, player);
    forall n | n in r ensures 0.0 <= r[n] <= 1.0 {
      if n in used {
        EntryAtMostOne(used[n], player);
      }
    }
  }

  /** The loop that ends updateModelAfterRound: the scores updated one opinion at a time. */
  method LearnPerf(perf: map<Predictor, real>, used: map<Predictor, Dist>, player: Move)
    returns (r: map<Predictor, real>)
    ensures r == NextPerf(perf, used, player)
  {
    r := perf;
    var todo := used.Keys;
    while todo != {}
      invariant todo <= used.Keys
      invariant r.Keys == perf.Keys + (used.Keys - todo)
      invariant forall n :: n in used && n !in todo ==> r[n] == (1.0 - Eta) * PerfOf(perf, n) + Eta * used[n].Get(player)
      invariant forall n :: n in perf && (n !in used || n in todo) ==> r[n] == perf[n]
      decreases todo
    {
      var n :| n in todo;
      r := r[n := (1.0 - Eta) * PerfOf(r, n) + Eta * used[n].Get(player)];
      todo := todo - {n};
    }
    assert r == NextPerf(perf, used, player);
  }
}
