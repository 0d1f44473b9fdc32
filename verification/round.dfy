/**
 * One round as the move-button click handler plays it: predict the
 * player's next move from the recent history, pick the AI's move, decide
 * the round, store it in the history, count it in the lifetime totals and
 * let the model learn from it.
 */
module Round {
  import opened Wrappers
  import opened Moves
  import opened Distributions
  import opened Predictors
  import opened Combination
  import opened Policy
  import opened Progression
  import opened Tables
  import opened History
  import opened Engine

  /** How many of the latest history entries the n-gram predictor sees. */
  const RecentWindow: nat := 8

  /**
   * The click handler after the snapshot was taken: `now` is the entry's
   * timestamp and r1, r2 are the two random draws of pickAiMove.
   */
  method PlayRound(model: Model, totals: Totals, log: RoundHistory, player: Move, snap: Snapshot,
                   decisionMs: real, now: int, r1: real, r2: real)
    returns (ai: Move, res: Result)
    requires model.Valid() && PerfInRange(model.perf) && log.Valid() && snap.Valid()
    requires 0.0 <= r1 < 1.0 && 0.0 <= r2 < 1.0
    modifies model, totals, log
    ensures model.Valid() && PerfInRange(model.perf) && log.Valid()
    ensures ai == PickAiMove(
      old(NormDist(WeightedSum(model.Parts(snap, decisionMs, Recent(log.entries, RecentWindow)), model.perf))),
      old(model.epsilon), r1, r2)
    ensures res == Outcome(player, ai)
    ensures log.entries == AppendCapped(old(log.entries),
      HistoryEntry(now, player, ai, res, decisionMs, snap.hoverMs, snap.switches, JsRound(snap.path) as real))
    ensures totals.wins == old(totals.wins) + (if res == Win then 1 else 0)
    ensures totals.losses == old(totals.losses) + (if res == Lose then 1 else 0)
    ensures totals.draws == old(totals.draws) + (if res == Draw then 1 else 0)
    ensures totals.Played() == old(totals.Played()) + 1
    ensures totals.sessions == old(totals.sessions)
    ensures model.counts == NextCounts(old(model.counts), model.decay, player)
    ensures model.trans1 == NextTrans1(old(model.trans1), model.decay, old(model.lastMove), player)
    ensures model.trans2 == NextTrans2(old(model.trans2), model.decay, old(model.lastTwoKey), player)
    ensures model.postRes == NextPostRes(old(model.postRes), model.decay, old(model.lastResult), player)
    ensures model.avgDecisionMs == NextAvg(old(model.avgDecisionMs), decisionMs)
    ensures model.samples == old(model.samples) + 1
    ensures model.pivot == if IsHesitant(snap, decisionMs, model.avgDecisionMs)
                           then DecayBump(old(model.pivot), MostHovered(snap.hoverMs), model.decay, player)
                           else old(model.pivot)
    ensures model.streak == NextStreak(old(model.lastMove), old(model.streak), player)
    ensures model.lastTwoKey == NextTwoKey(old(model.lastMove), player)
    ensures model.perf == NextPerf(old(model.perf),
      old(UsedDists(model.Parts(snap, decisionMs, Recent(log.entries, RecentWindow)))), player)
    ensures model.roundsSeen == old(model.roundsSeen) + 1
    ensures model.lastMove == Some(player) && model.prevMove == old(model.lastMove) && model.lastResult == Some(res)
    ensures Tier(model.level, model.epsilon) == Progress(model.roundsSeen, totals.wins, totals.losses, totals.draws)
  {
    var history := Recent(log.entries, RecentWindow);
    var dist, used := model.PredictNextPlayerDist(snap, decisionMs, history);
    ai := PickAiMove(dist, model.epsilon, r1, r2);
    res := Outcome(player, ai);
    log.Push(HistoryEntry(now, player, ai, res, decisionMs, snap.hoverMs, snap.switches, JsRound(snap.path) as real));
    totals.Update(res);
    model.UpdateModelAfterRound(player, ai, res, snap, decisionMs, used, totals);
  }
}
