/**
 * The three moves of the game, the result of a round and the rule that
 * decides it (scripts.js: ORDER, COUNTER and outcome).
 */
module Moves {
  /** Scissors, rock and paper, under the names the game uses. */
  datatype Move = Tesoura | Pedra | Papel

  /** The result of a round, seen from the player. */
  datatype Result = Win | Lose | Draw

  /** The fixed move order used for uniform exploration (ORDER). */
  const Order: seq<Move> := [Tesoura, Pedra, Papel]

  /** Position of a move in Order. */
  function OrderIndex(m: Move): (i: nat)
    ensures i < |Order| && Order[i] == m
  {
    match m
    case Tesoura => 0
    case Pedra => 1
    case Papel => 2
  }

  /** The move that beats m (COUNTER). */
  function Counter(m: Move): (c: Move)
    ensures c != m
  {
    match m
    case Tesoura => Pedra
    case Pedra => Papel
    case Papel => Tesoura
  }

  /** The move that m beats: the inverse of Counter. */
  function Beaten(m: Move): (b: Move)
    ensures Counter(b) == m
    ensures forall x :: Counter(x) == m ==> x == b
  {
    match m
    case Pedra => Tesoura
    case Papel => Pedra
    case Tesoura => Papel
  }

  /** Cyclic dominance: each move beats exactly one other and loses to exactly one other. */
  lemma CyclicDominance(m: Move)
    ensures Counter(Counter(m)) != m
    ensures Counter(Counter(Counter(m))) == m
    ensures Beaten(m) != Counter(m)
  {
  }

  /** The result of a round in which the player chose `player` and the AI chose `ai`. */
  function Outcome(player: Move, ai: Move): (r: Result)
    ensures r == Draw <==> player == ai
    ensures r == Win <==> player == Counter(ai)
    ensures r == Lose <==> ai == Counter(player)
  {
    if player == ai then Draw
    else if (player == Pedra && ai == Tesoura)
         || (player == Tesoura && ai == Papel)
         || (player == Papel && ai == Pedra) then Win
    else Lose
  }

  /** The same round seen from the other side. */
  function Swap(r: Result): Result {
    match r
    case Win => Lose
    case Lose => Win
    case Draw => Draw
  }

  /** Exchanging the two moves exchanges a win and a loss. */
  lemma OutcomeSwap(player: Move, ai: Move)
    ensures Outcome(ai, player) == Swap(Outcome(player, ai))
  {
  }
}
