/**
 * The level controller (updateProgression): level and exploration rate
 * recomputed from scratch from the rounds seen and the lifetime win rate.
 */
module Progression {
  import opened Combination

  /** A level with its exploration rate. */
  datatype Tier = Tier(level: nat, epsilon: real)

  /** Lifetime wins over lifetime games, with 1 game assumed when none was recorded. */
  function WinRate(wins: nat, losses: nat, draws: nat): (wr: real)
    ensures wins + losses + draws == 0 ==> wr == 0.0
    ensures wins + losses + draws > 0 ==> wr * (wins + losses + draws) as real == wins as real
    ensures 0.0 <= wr <= 1.0
  {
    var total := wins + losses + draws;
    var plays := if total == 0 then 1 else total;
    (wins as real) / (plays as real)
  }

  /**
   * Level 3 once 40 rounds were seen or the win rate exceeds 0.6; otherwise
   * 2 from 15 rounds, 1 from 5 rounds, else 0.
   */
  function Progress(roundsSeen: nat, wins: nat, losses: nat, draws: nat): (t: Tier)
    ensures t.level <= 3
    ensures t.level == 3 <==> roundsSeen >= 40 || WinRate(wins, losses, draws) > 0.6
    ensures t.level == 2 <==> 15 <= roundsSeen < 40 && WinRate(wins, losses, draws) <= 0.6
    ensures t.level == 1 <==> 5 <= roundsSeen < 15 && WinRate(wins, losses, draws) <= 0.6
    ensures t.level == 0 <==> roundsSeen < 5 && WinRate(wins, losses, draws) <= 0.6
    ensures t.epsilon == LevelWeights(t.level).eps
  {
    var byRounds :=
      if roundsSeen >= 15 then Tier(2, 0.12)
      else if roundsSeen >= 5 then Tier(1, 0.20)
      else Tier(0, 0.30);
    if roundsSeen >= 40 || WinRate(wins, losses, draws) > 0.6 then Tier(3, 0.08)
    else byRounds
  }

  /** updateProgression's steps: the level by rounds, then the win-rate override. */
  method ComputeTier(roundsSeen: nat, wins: nat, losses: nat, draws: nat) returns (t: Tier)
    ensures t == Progress(roundsSeen, wins, losses, draws)
  {
    var lv: nat, eps := 0, 0.30;
    if roundsSeen >= 5 {
      lv, eps := 1, 0.20;
    }
    if roundsSeen >= 15 {
      lv, eps := 2, 0.12;
    }
    var totalPlays := wins + losses + draws;
    if totalPlays == 0 {
      totalPlays := 1;
    }
    var wr := (wins as real) / (totalPlays as real);
    if roundsSeen >= 40 || wr > 0.6 {
      lv, eps := 3, 0.08;
    }
    t := Tier(lv, eps);
  }

  /** Forty rounds without a single recorded win still reach level 3. */
  lemma FortyRoundsReachTopLevel(roundsSeen: nat, losses: nat, draws: nat)
    requires roundsSeen >= 40
    ensures Progress(roundsSeen, 0, losses, draws) == Tier(3, 0.08)
  {
  }

  /**
   * The level is not monotone: 13 wins in 20 rounds give level 3, and two
   * more losses bring the win rate under 0.6 and the level back to 2.
   */
  lemma LevelCanFall()
    ensures Progress(20, 13, 7, 0).level == 3
    ensures Progress(22, 13, 9, 0).level == 2
  {
    assert WinRate(13, 7, 0) == 13.0 / 20.0;
    assert WinRate(13, 9, 0) == 13.0 / 22.0;
  }

  /** Once 40 rounds were seen, the level stays at 3 whatever the results. */
  lemma TopLevelSticksAfterForty(r1: nat, r2: nat, w1: nat, l1: nat, d1: nat, w2: nat, l2: nat, d2: nat)
    requires 40 <= r1 <= r2
    ensures Progress(r1, w1, l1, d1).level == 3 && Progress(r2, w2, l2, d2).level == 3
  {
  }
}
