/**
 * The AI's choice of move (pickAiMove): epsilon-greedy over scores, where
 * the score of an AI move is the predicted probability of the player move
 * it beats. The two uniform draws of the source are the parameters r1, r2.
 */
module Policy {
  import opened Moves
  import opened Distributions

  /** The score of AI move `ai`: the predicted probability of the player move it beats. */
  function Score(d: Dist, ai: Move): (s: real)
    ensures s == d.Get(Beaten(ai))
    ensures Outcome(Beaten(ai), ai) == Lose
  {
    match ai
    case Pedra => d.tesoura
    case Papel => d.pedra
    case Tesoura => d.papel
  }

  function MaxScore(d: Dist): (mx: real)
    ensures forall a :: Score(d, a) <= mx
    ensures exists a :: Score(d, a) == mx
  {
    var p := Score(d, Pedra);
    var q := Score(d, Papel);
    var t := Score(d, Tesoura);
    if p >= q && p >= t then p else if q >= t then q else t
  }

  function Abs(x: real): real { if x < 0.0 then -x else x }

  /** Threshold under which all scores count as close to the best one. */
  const CloseGap: real := 0.05

  /** Every score lies within CloseGap of the best score. */
  predicate Close(d: Dist) {
    forall a :: Abs(Score(d, a) - MaxScore(d)) < CloseGap
  }

  /** Position of an AI move in the score table; the sort keeps this order among equal scores. */
  function TieRank(a: Move): nat {
    match a
    case Pedra => 0
    case Papel => 1
    case Tesoura => 2
  }

  /** The first entry after a stable sort of the scores from high to low. */
  function BestMove(d: Dist): (a: Move)
    ensures forall b :: Score(d, b) <= Score(d, a)
    ensures forall b :: Score(d, b) == Score(d, a) ==> TieRank(a) <= TieRank(b)
  {
    var p := Score(d, Pedra);
    var q := Score(d, Papel);
    var t := Score(d, Tesoura);
    if p >= q && p >= t then Pedra else if q >= t then Papel else Tesoura
  }

  /** Index into Order drawn from a uniform r in [0, 1). */
  function ExploreIndex(r: real): (i: int)
    requires 0.0 <= r < 1.0
    ensures 0 <= i < |Order|
    ensures i == 0 <==> r < 1.0 / 3.0
    ensures i == 1 <==> 1.0 / 3.0 <= r < 2.0 / 3.0
    ensures i == 2 <==> 2.0 / 3.0 <= r
  {
    (r * 3.0).Floor
  }

  /** The total score, or 1 when it is zero (`sum || 1`). */
  function ScoreTotal(d: Dist): (s: real)
    ensures s != 0.0
    ensures Score(d, Pedra) + Score(d, Papel) + Score(d, Tesoura) != 0.0 ==>
      s == Score(d, Pedra) + Score(d, Papel) + Score(d, Tesoura)
    ensures Score(d, Pedra) + Score(d, Papel) + Score(d, Tesoura) == 0.0 ==> s == 1.0
    ensures IsDistribution(d) ==> s == 1.0
  {
    var s := Score(d, Pedra) + Score(d, Papel) + Score(d, Tesoura);
    if s == 0.0 then 1.0 else s
  }

  /** Proportional sampling: each AI move gets a slice of [0, total) as wide as its score. */
  function ProportionalPick(d: Dist, r: real): Move {
    var x := r * ScoreTotal(d);
    if x < Score(d, Pedra) then Pedra
    else if x < Score(d, Pedra) + Score(d, Papel) then Papel
    else Tesoura
  }

  /**
   * pickAiMove: explores uniformly when r1 < eps; otherwise samples in
   * proportion to the scores when they are all close to the best, and
   * otherwise takes the best score, preferring pedra, papel, tesoura on ties.
   */
  function PickAiMove(d: Dist, eps: real, r1: real, r2: real): (a: Move)
    requires 0.0 <= r1 < 1.0 && 0.0 <= r2 < 1.0
    ensures r1 < eps ==>
      (a == Tesoura <==> r2 < 1.0 / 3.0)
      && (a == Pedra <==> 1.0 / 3.0 <= r2 < 2.0 / 3.0)
      && (a == Papel <==> 2.0 / 3.0 <= r2)
    ensures r1 >= eps && !Close(d) ==> forall b :: Score(d, b) <= Score(d, a)
    ensures r1 >= eps && !Close(d) ==> forall b :: Score(d, b) == Score(d, a) ==> TieRank(a) <= TieRank(b)
    ensures r1 >= eps && Close(d) ==> MaxScore(d) - Score(d, a) < CloseGap
    ensures r1 >= eps && Close(d) && IsDistribution(d) ==>
      (a == Pedra <==> r2 < Score(d, Pedra))
      && (a == Papel <==> Score(d, Pedra) <= r2 < Score(d, Pedra) + Score(d, Papel))
      && (a == Tesoura <==> Score(d, Pedra) + Score(d, Papel) <= r2)
  {
    if r1 < eps then Order[ExploreIndex(r2)]
    else if Close(d) then ProportionalPick(d, r2)
    else BestMove(d)
  }
}
