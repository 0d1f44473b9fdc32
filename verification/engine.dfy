/**
 * The learned model of one player (MODEL) as an object: its defaults
 * (defaultModel), the combined prediction (predictNextPlayerDist), the
 * level controller (updateProgression) and the per-round update
 * (updateModelAfterRound).
 */
module Engine {
  import opened Wrappers
  import opened Moves
  import opened Distributions
  import opened Predictors
  import opened Combination
  import opened Progression
  import opened Tables
  import opened History

  /** No opinion in the list comes from hover intent or the pivot. */
  ghost predicate NoHoverNorPivot(parts: seq<Part>) {
    forall p :: p in parts ==> p.name != Pivot && p.name != Hover
  }

  lemma NoHoverNorPivotConcat(a: seq<Part>, b: seq<Part>)
    requires NoHoverNorPivot(a) && NoHoverNorPivot(b)
    ensures NoHoverNorPivot(a + b)
  {
  }

  lemma WellFormedConcat(a: seq<Part>, b: seq<Part>)
    requires PartsWellFormed(a) && PartsWellFormed(b)
    ensures PartsWellFormed(a + b)
  {
  }

  /**
   * The loop of predictNextPlayerDist: adds the opinions one at a time into
   * the accumulator and records each one in the map of used opinions.
   */
  method Accumulate(parts: seq<Part>, perf: map<Predictor, real>) returns (acc: Dist, used: map<Predictor, Dist>)
    ensures acc == WeightedSum(parts, perf)
    ensures used == UsedDists(parts)
  {
    acc := Zero();
    used := map[];
    var i := 0;
    while i < |parts|
      invariant 0 <= i <= |parts|
      invariant acc == WeightedSum(parts[..i], perf)
      invariant used == UsedDists(parts[..i])
    {
      acc := AddWeighted(acc, parts[i].dist, EffectiveWeight(parts[i], perf));
      used := used[parts[i].name := parts[i].dist];
      PrefixStep(parts, perf, i);
      i := i + 1;
    }
    assert parts[..|parts|] == parts;
  }

  /** The sum and the recorded opinions of one more part of the list. */
  lemma PrefixStep(parts: seq<Part>, perf: map<Predictor, real>, i: nat)
    requires i < |parts|
    ensures WeightedSum(parts[..i + 1], perf)
      == AddWeighted(WeightedSum(parts[..i], perf), parts[i].dist, EffectiveWeight(parts[i], perf))
    ensures UsedDists(parts[..i + 1]) == UsedDists(parts[..i])[parts[i].name := parts[i].dist]
  {
    assert parts[..i + 1][..i] == parts[..i];
  }

  class Model {
    var roundsSeen: nat
    var level: nat
    var epsilon: real
    const decay: real
    var counts: Dist
    var trans1: map<Move, Dist>
    var trans2: map<(Move, Move), Dist>
    var postRes: map<Result, Dist>
    var lastMove: Option<Move>
    var prevMove: Option<Move>
    var lastTwoKey: Option<(Move, Move)>
    var lastResult: Option<Result>
    var streak: nat
    var avgDecisionMs: real
    var samples: nat
    var pivot: map<Move, Dist>
    var perf: map<Predictor, real>

    /**
     * The model invariant: a decay in (0, 1), only positive counts in every
     * table, a level in 0..3, and a move window that fills up one round at a
     * time (lastTwoKey stays empty until two moves were recorded).
     */
    ghost predicate Valid()
      reads this
    {
      LearnedPositive() && level <= 3 && WindowValid()
    }

    /** The decay lies in (0, 1) and every learned count is positive. */
    ghost predicate LearnedPositive()
      reads this`counts, this`trans1, this`trans2, this`postRes, this`pivot
    {
      && 0.0 < decay < 1.0
      && Positive(counts)
      && TablePositive(trans1) && TablePositive(trans2) && TablePositive(postRes) && TablePositive(pivot)
    }

    /** The move window and the streak agree with the number of rounds seen. */
    ghost predicate WindowValid()
      reads this`roundsSeen, this`lastMove, this`prevMove, this`lastTwoKey, this`lastResult, this`streak
    {
      && (lastMove.Some? <==> roundsSeen >= 1)
      && (lastResult.Some? <==> roundsSeen >= 1)
      && (prevMove.Some? <==> roundsSeen >= 2)
      && (lastTwoKey.Some? <==> roundsSeen >= 2)
      && (lastTwoKey.Some? ==> prevMove.Some? && lastMove.Some? && lastTwoKey.value == (prevMove.value, lastMove.value))
      && streak <= roundsSeen
      && (roundsSeen >= 1 ==> streak >= 1)
    }

    /** defaultModel: every count starts at 1, every score at 0.5, level 0. */
    constructor ()
      ensures Valid() && PerfInRange(perf)
      ensures roundsSeen == 0 && level == 0 && epsilon == 0.30 && decay == 0.92
      ensures counts == Ones()
      ensures trans1 == map[Tesoura := Ones(), Pedra := Ones(), Papel := Ones()]
      ensures trans2 == map[]
      ensures postRes == map[Win := Ones(), Lose := Ones(), Draw := Ones()]
      ensures lastMove == None && prevMove == None && lastTwoKey == None && lastResult == None
      ensures streak == 0 && avgDecisionMs == 700.0 && samples == 0
      ensures pivot == map[Tesoura := Ones(), Pedra := Ones(), Papel := Ones()]
      ensures perf.Keys == {Freq, Trans1, Trans2, Post, Repeat, Hover, Pivot, Ngram}
      ensures forall n :: n in perf ==> perf[n] == 0.5
    {
      roundsSeen := 0;
      level := 0;
      epsilon := 0.30;
      decay := 0.92;
      counts := Ones();
      trans1 := map[Tesoura := Ones(), Pedra := Ones(), Papel := Ones()];
      trans2 := map[];
      postRes := map[Win := Ones(), Lose := Ones(), Draw := Ones()];
      lastMove := None;
      prevMove := None;
      lastTwoKey := None;
      lastResult := None;
      streak := 0;
      avgDecisionMs := 700.0;
      samples := 0;
      pivot := map[Tesoura := Ones(), Pedra := Ones(), Papel := Ones()];
      perf := map[Freq := 0.5, Trans1 := 0.5, Trans2 := 0.5, Post := 0.5,
                  Repeat := 0.5, Hover := 0.5, Pivot := 0.5, Ngram := 0.5];
    }

    /**
     * The opinions of this round with their base weights, in the order the
     * source collects them; the pivot replaces hover intent in a hesitant round.
     */
    function Parts(snap: Snapshot, decisionMs: real, history: seq<HistoryEntry>): (parts: seq<Part>)
      reads this
      ensures |parts| >= 1 && parts[0].name == Freq
      ensures forall p :: p in parts && p.name == Pivot ==> IsHesitant(snap, decisionMs, avgDecisionMs)
      ensures forall p :: p in parts && p.name == Hover ==> !IsHesitant(snap, decisionMs, avgDecisionMs)
      ensures IsHesitant(snap, decisionMs, avgDecisionMs) ==> exists p :: p in parts && p.name == Pivot
    {
      var tail := HoverOrPivot(snap, decisionMs);
      var head := ModelOpinions(decisionMs, history);
      assert forall p :: p in head + tail ==> p in head || p in tail;
      head + tail
    }

    /** The opinions drawn from the learned tables, the move window and the history. */
    function ModelOpinions(decisionMs: real, history: seq<HistoryEntry>): (parts: seq<Part>)
      reads this
      ensures |parts| >= 1 && parts[0].name == Freq
      ensures NoHoverNorPivot(parts)
    {
      var p1 := Opinion(Freq, decisionMs, history) + Opinion(Trans1, decisionMs, history);
      var p2 := Opinion(Trans2, decisionMs, history) + Opinion(Post, decisionMs, history);
      var p3 := Opinion(Repeat, decisionMs, history) + Opinion(Ngram, decisionMs, history);
      NoHoverNorPivotConcat(p1, p2);
      NoHoverNorPivotConcat(p1 + p2, p3);
      p1 + p2 + p3
    }

    /** The opinion of one table-based predictor with its weight for this round. */
    function Opinion(name: Predictor, decisionMs: real, history: seq<HistoryEntry>): (ps: seq<Part>)
      requires name != Hover && name != Pivot
      reads this
      ensures forall p :: p in ps ==> p.name == name
      ensures name == Freq ==> |ps| == 1
    {
      var w := LevelWeights(level);
      match name
      case Freq => [Part(Freq, PredFreq(counts), w.freq)]
      case Trans1 => OptPart(Trans1, PredTrans1(trans1, lastMove), w.trans1)
      case Trans2 => OptPart(Trans2, PredTrans2(trans2, lastTwoKey), w.trans2)
      case Post => OptPart(Post, PredPostRes(postRes, lastResult), w.post)
      case Repeat =>
        OptPart(Repeat, PredRepeat(lastMove, lastResult, streak), RepeatWeight(level, decisionMs, avgDecisionMs, lastResult))
      case Ngram => OptPart(Ngram, PredNgram(history), w.ngram)
    }

    /** Under the model invariant every opinion is a distribution with a non-negative weight. */
    lemma PartsAreDistributions(snap: Snapshot, decisionMs: real, history: seq<HistoryEntry>)
      requires Valid() && snap.Valid()
      ensures PartsWellFormed(Parts(snap, decisionMs, history))
    {
      OpinionWellFormed(Freq, decisionMs, history);
      OpinionWellFormed(Trans1, decisionMs, history);
      OpinionWellFormed(Trans2, decisionMs, history);
      OpinionWellFormed(Post, decisionMs, history);
      OpinionWellFormed(Repeat, decisionMs, history);
      OpinionWellFormed(Ngram, decisionMs, history);
      var p1 := Opinion(Freq, decisionMs, history) + Opinion(Trans1, decisionMs, history);
      var p2 := Opinion(Trans2, decisionMs, history) + Opinion(Post, decisionMs, history);
      var p3 := Opinion(Repeat, decisionMs, history) + Opinion(Ngram, decisionMs, history);
      WellFormedConcat(Opinion(Freq, decisionMs, history), Opinion(Trans1, decisionMs, history));
      WellFormedConcat(Opinion(Trans2, decisionMs, history), Opinion(Post, decisionMs, history));
      WellFormedConcat(Opinion(Repeat, decisionMs, history), Opinion(Ngram, decisionMs, history));
      WellFormedConcat(p1, p2);
      WellFormedConcat(p1 + p2, p3);
      assert ModelOpinions(decisionMs, history) == p1 + p2 + p3;
      PositiveTableNonNegative(pivot);
      WellFormedConcat(p1 + p2 + p3, HoverOrPivot(snap, decisionMs));
    }

    lemma OpinionWellFormed(name: Predictor, decisionMs: real, history: seq<HistoryEntry>)
      requires Valid() && name != Hover && name != Pivot
      ensures PartsWellFormed(Opinion(name, decisionMs, history))
    {
      match name
      case Freq =>
      case Trans1 => PositiveTableNonNegative(trans1);
      case Trans2 => PositiveTableNonNegative(trans2);
      case Post => PositiveTableNonNegative(postRes);
      case Repeat =>
      case Ngram =>
    }

    /**
     * What enters the combined prediction: each of the eight predictors
     * exactly once when it has an opinion and never otherwise, with its level
     * weight (the boosted repeat weight, 1.2 times the pivot weight), and
     * hover intent only in a round that is not hesitant.
     */
    lemma PartsContent(snap: Snapshot, decisionMs: real, history: seq<HistoryEntry>)
      ensures Named(Parts(snap, decisionMs, history), Freq)
           == OptPart(Freq, Some(PredFreq(counts)), LevelWeights(level).freq)
      ensures Named(Parts(snap, decisionMs, history), Trans1)
           == OptPart(Trans1, PredTrans1(trans1, lastMove), LevelWeights(level).trans1)
      ensures Named(Parts(snap, decisionMs, history), Trans2)
           == OptPart(Trans2, PredTrans2(trans2, lastTwoKey), LevelWeights(level).trans2)
      ensures Named(Parts(snap, decisionMs, history), Post)
           == OptPart(Post, PredPostRes(postRes, lastResult), LevelWeights(level).post)
      ensures Named(Parts(snap, decisionMs, history), Repeat)
           == OptPart(Repeat, PredRepeat(lastMove, lastResult, streak),
                      RepeatWeight(level, decisionMs, avgDecisionMs, lastResult))
      ensures Named(Parts(snap, decisionMs, history), Ngram)
           == OptPart(Ngram, PredNgram(history), LevelWeights(level).ngram)
      ensures Named(Parts(snap, decisionMs, history), Pivot)
           == OptPart(Pivot, PredPivot(snap, IsHesitant(snap, decisionMs, avgDecisionMs), pivot),
                      LevelWeights(level).pivot * PivotBoost)
      ensures Named(Parts(snap, decisionMs, history), Hover)
           == OptPart(Hover, if IsHesitant(snap, decisionMs, avgDecisionMs) then None else PredHoverIntent(snap),
                      LevelWeights(level).hover)
    {
      HoverOrPivotContent(snap, decisionMs);
      PartsNamed(snap, decisionMs, history, Freq);
      PartsNamed(snap, decisionMs, history, Trans1);
      PartsNamed(snap, decisionMs, history, Trans2);
      PartsNamed(snap, decisionMs, history, Post);
      PartsNamed(snap, decisionMs, history, Repeat);
      PartsNamed(snap, decisionMs, history, Ngram);
      PartsNamed(snap, decisionMs, history, Pivot);
      PartsNamed(snap, decisionMs, history, Hover);
      assert Named(Parts(snap, decisionMs, history), Pivot) == Named(HoverOrPivot(snap, decisionMs), Pivot);
      assert Named(Parts(snap, decisionMs, history), Hover) == Named(HoverOrPivot(snap, decisionMs), Hover);
    }

    /** One predictor's share of the combined list: its table opinion, or the hover/pivot tail. */
    lemma PartsNamed(snap: Snapshot, decisionMs: real, history: seq<HistoryEntry>, n: Predictor)
      ensures Named(Parts(snap, decisionMs, history), n)
           == if n == Pivot || n == Hover then Named(HoverOrPivot(snap, decisionMs), n)
              else Opinion(n, decisionMs, history)
    {
      var head, tail := ModelOpinions(decisionMs, history), HoverOrPivot(snap, decisionMs);
      assert Parts(snap, decisionMs, history) == head + tail;
      ModelOpinionsNamed(decisionMs, history, n);
      HoverOrPivotContent(snap, decisionMs);
      if n == Pivot || n == Hover {
        NamedKeepsRight(head, tail, n);
      } else {
        NamedKeepsLeft(head, tail, n);
      }
    }

    /** The six table-based predictors enter the head of the list, each with the opinion it forms. */
    lemma ModelOpinionsNamed(decisionMs: real, history: seq<HistoryEntry>, n: Predictor)
      ensures Named(ModelOpinions(decisionMs, history), n)
           == if n == Pivot || n == Hover then [] else Opinion(n, decisionMs, history)
    {
      var o1, o2 := Opinion(Freq, decisionMs, history), Opinion(Trans1, decisionMs, history);
      var o3, o4 := Opinion(Trans2, decisionMs, history), Opinion(Post, decisionMs, history);
      var o5, o6 := Opinion(Repeat, decisionMs, history), Opinion(Ngram, decisionMs, history);
      NamedSix(o1, o2, o3, o4, o5, o6, n);
      assert ModelOpinions(decisionMs, history) == o1 + o2 + (o3 + o4) + (o5 + o6);
    }

    /** The pivot enters exactly in a hesitant round, with 1.2 times its weight; hover intent only otherwise. */
    lemma HoverOrPivotContent(snap: Snapshot, decisionMs: real)
      ensures Named(HoverOrPivot(snap, decisionMs), Pivot)
           == OptPart(Pivot, PredPivot(snap, IsHesitant(snap, decisionMs, avgDecisionMs), pivot),
                      LevelWeights(level).pivot * PivotBoost)
      ensures Named(HoverOrPivot(snap, decisionMs), Hover)
           == OptPart(Hover, if IsHesitant(snap, decisionMs, avgDecisionMs) then None else PredHoverIntent(snap),
                      LevelWeights(level).hover)
      ensures forall n :: n != Pivot && n != Hover ==> |Named(HoverOrPivot(snap, decisionMs), n)| == 0
    {
      var parts := HoverOrPivot(snap, decisionMs);
      if PredPivot(snap, IsHesitant(snap, decisionMs, avgDecisionMs), pivot).Some? {
        NamedOwn(parts, Pivot);
      } else {
        NamedOwn(parts, Hover);
      }
    }

    /** The pivot in a hesitant round, otherwise hover intent if any time was spent hovering. */
    function HoverOrPivot(snap: Snapshot, decisionMs: real): (parts: seq<Part>)
      reads this
      ensures forall p :: p in parts && p.name == Pivot ==> IsHesitant(snap, decisionMs, avgDecisionMs)
      ensures forall p :: p in parts && p.name == Hover ==> !IsHesitant(snap, decisionMs, avgDecisionMs)
      ensures IsHesitant(snap, decisionMs, avgDecisionMs) ==> exists p :: p in parts && p.name == Pivot
    {
      var hesitant := IsHesitant(snap, decisionMs, avgDecisionMs);
      var pv := PredPivot(snap, hesitant, pivot);
      if pv.Some? then
        [Part(Pivot, pv.value, LevelWeights(level).pivot * PivotBoost)]
      else
        OptPart(Hover, PredHoverIntent(snap), LevelWeights(level).hover)
    }

    /**
     * predictNextPlayerDist: adds every opinion into an accumulator, scaled by
     * its weight and its performance scale, and normalises the sum. Also
     * returns the opinions themselves (usedDists), for the update.
     */
    method PredictNextPlayerDist(snap: Snapshot, decisionMs: real, history: seq<HistoryEntry>)
      returns (dist: Dist, used: map<Predictor, Dist>)
      ensures dist == NormDist(WeightedSum(Parts(snap, decisionMs, history), perf))
      ensures used == UsedDists(Parts(snap, decisionMs, history))
      ensures Valid() && snap.Valid() ==> IsDistribution(dist)
      ensures Valid() && snap.Valid() ==> forall n :: n in used ==> IsDistribution(used[n])
      ensures Freq in used
      ensures Pivot in used <==> IsHesitant(snap, decisionMs, avgDecisionMs)
      ensures !(Pivot in used && Hover in used)
    {
      var parts := Parts(snap, decisionMs, history);
      var acc;
      acc, used := Accumulate(parts, perf);
      dist := NormDist(acc);
      if Valid() && snap.Valid() {
        PartsAreDistributions(snap, decisionMs, history);
        UsedAreDistributions(parts);
      }
      UsedNames(snap, decisionMs, history);
    }

    /** Every recorded opinion is one of the parts, so it is a distribution when they all are. */
    lemma UsedAreDistributions(parts: seq<Part>)
      requires PartsWellFormed(parts)
      ensures forall n :: n in UsedDists(parts) ==> IsDistribution(UsedDists(parts)[n])
    {
      var used := UsedDists(parts);
      forall n | n in used
        ensures IsDistribution(used[n])
      {
        var i :| 0 <= i < |parts| && parts[i].name == n && parts[i].dist == used[n];
        assert parts[i] in parts;
      }
    }

    /**
     * The recorded opinions always include frequency; they include the pivot
     * exactly in a hesitant round, and never the pivot and hover intent together.
     */
    lemma UsedNames(snap: Snapshot, decisionMs: real, history: seq<HistoryEntry>)
      ensures Freq in UsedDists(Parts(snap, decisionMs, history))
      ensures Pivot in UsedDists(Parts(snap, decisionMs, history)) <==> IsHesitant(snap, decisionMs, avgDecisionMs)
      ensures !(Pivot in UsedDists(Parts(snap, decisionMs, history)) && Hover in UsedDists(Parts(snap, decisionMs, history)))
    {
      var parts := Parts(snap, decisionMs, history);
      var used := UsedDists(parts);
      var hesitant := IsHesitant(snap, decisionMs, avgDecisionMs);
      assert parts[0].name == Freq;
      if Pivot in used {
        var i :| 0 <= i < |parts| && parts[i].name == Pivot && parts[i].dist == used[Pivot];
        assert parts[i] in parts;
        assert hesitant;
      }
      if hesitant {
        var p :| p in parts && p.name == Pivot;
        var j :| 0 <= j < |parts| && parts[j] == p;
        assert Pivot in used;
      }
      if Hover in used {
        var i :| 0 <= i < |parts| && parts[i].name == Hover && parts[i].dist == used[Hover];
        assert parts[i] in parts;
        assert !hesitant;
      }
    }

    /** updateProgression: level and epsilon recomputed from the rounds seen and the lifetime totals. */
    method UpdateProgression(totals: Totals)
      modifies this`level, this`epsilon
      ensures level <= 3
      ensures Tier(level, epsilon) == Progress(roundsSeen, totals.wins, totals.losses, totals.draws)
    {
      var t := ComputeTier(roundsSeen, totals.wins, totals.losses, totals.draws);
      level, epsilon := t.level, t.epsilon;
    }

    /**
     * updateModelAfterRound: decays and increments every table, updates the
     * decision-time average, records a hesitant round in the pivot table,
     * updates the streak, shifts the move window, counts the round,
     * recomputes the level and moves each performance score towards its
     * predictor's reward. The new tables, average, scores and tier are
     * computed as values first and then stored together.
     */
    method UpdateModelAfterRound(player: Move, ai: Move, res: Result, snap: Snapshot, decisionMs: real,
                                 used: map<Predictor, Dist>, totals: Totals)
      requires Valid()
      modifies this
      ensures Valid()
      ensures counts == NextCounts(old(counts), decay, player)
      ensures trans1 == NextTrans1(old(trans1), decay, old(lastMove), player)
      ensures trans2 == NextTrans2(old(trans2), decay, old(lastTwoKey), player)
      ensures postRes == NextPostRes(old(postRes), decay, old(lastResult), player)
      ensures streak == NextStreak(old(lastMove), old(streak), player)
      ensures samples == old(samples) + 1
      ensures avgDecisionMs == NextAvg(old(avgDecisionMs), decisionMs)
      ensures pivot == if IsHesitant(snap, decisionMs, avgDecisionMs)
                       then DecayBump(old(pivot), MostHovered(snap.hoverMs), decay, player)
                       else old(pivot)
      ensures prevMove == old(lastMove) && lastMove == Some(player)
      ensures lastTwoKey == NextTwoKey(old(lastMove), player) && lastResult == Some(res)
      ensures roundsSeen == old(roundsSeen) + 1
      ensures Tier(level, epsilon) == Progress(roundsSeen, totals.wins, totals.losses, totals.draws)
      ensures perf == NextPerf(old(perf), used, player)
      ensures old(PerfInRange(perf)) && (forall n :: n in used ==> IsDistribution(used[n])) ==> PerfInRange(perf)
    {
      // the learned tables, in the order the source updates them
      var c := LearnCounts(counts, decay, player);
      var t1 := LearnTrans1(trans1, decay, lastMove, player);
      var t2 := LearnTrans2(trans2, decay, lastTwoKey, player);
      var pr := LearnPostRes(postRes, decay, lastResult, player);
      // the new decision-time average, then the pivot judged against it
      var avg := JsRound(0.9 * avgDecisionMs + 0.1 * decisionMs) as real;
      var pv := LearnPivot(pivot, snap, decisionMs, avg, decay, player);
      var p := LearnPerf(perf, used, player);
      if PerfInRange(perf) && (forall n :: n in used ==> IsDistribution(used[n])) {
        NextPerfInRange(perf, used, player);
      }
      Commit(c, t1, t2, pr, avg, pv, p, player, res, totals);
    }

    /**
     * Stores what the round taught, shifts the move window, counts the round
     * and then runs updateProgression on the new round count.
     */
    method Commit(c: Dist, t1: map<Move, Dist>, t2: map<(Move, Move), Dist>, pr: map<Result, Dist>,
                  avg: real, pv: map<Move, Dist>, p: map<Predictor, real>, player: Move, res: Result,
                  totals: Totals)
      requires WindowValid()
      modifies this
      ensures WindowValid()
      ensures level <= 3
      ensures Tier(level, epsilon) == Progress(roundsSeen, totals.wins, totals.losses, totals.draws)
      ensures counts == c && trans1 == t1 && trans2 == t2 && postRes == pr
      ensures samples == old(samples) + 1 && avgDecisionMs == avg && pivot == pv && perf == p
      ensures streak == NextStreak(old(lastMove), old(streak), player)
      ensures prevMove == old(lastMove) && lastMove == Some(player)
      ensures lastTwoKey == NextTwoKey(old(lastMove), player) && lastResult == Some(res)
      ensures roundsSeen == old(roundsSeen) + 1
    {
      SetTables(c, t1, t2, pr);
      SetHesitation(avg, pv);
      ShiftWindow(player, res);
      UpdateProgression(totals);
      SetScores(p);
    }

    /** The four learned tables replaced. */
    method SetTables(c: Dist, t1: map<Move, Dist>, t2: map<(Move, Move), Dist>, pr: map<Result, Dist>)
      modifies this`counts, this`trans1, this`trans2, this`postRes
      ensures counts == c && trans1 == t1 && trans2 == t2 && postRes == pr
    {
      counts, trans1, trans2, postRes := c, t1, t2, pr;
    }

    /** One more decision-time sample, with its average and the pivot table. */
    method SetHesitation(avg: real, pv: map<Move, Dist>)
      modifies this`samples, this`avgDecisionMs, this`pivot
      ensures samples == old(samples) + 1 && avgDecisionMs == avg && pivot == pv
    {
      samples, avgDecisionMs, pivot := samples + 1, avg, pv;
    }

    /** The performance scores replaced. */
    method SetScores(p: map<Predictor, real>)
      modifies this`perf
      ensures perf == p
    {
      perf := p;
    }

    /** The streak, the window of the last two moves and the last result take in this round, which is counted. */
    method ShiftWindow(player: Move, res: Result)
      requires WindowValid()
      modifies this`streak, this`prevMove, this`lastMove, this`lastTwoKey, this`lastResult, this`roundsSeen
      ensures WindowValid()
      ensures streak == NextStreak(old(lastMove), old(streak), player)
      ensures prevMove == old(lastMove) && lastMove == Some(player)
      ensures lastTwoKey == NextTwoKey(old(lastMove), player) && lastResult == Some(res)
      ensures roundsSeen == old(roundsSeen) + 1
    {
      if lastMove.Some? && lastMove.value == player {
        streak := streak + 1;
      } else {
        streak := 1;
      }
      prevMove := lastMove;
      lastMove := Some(player);
      lastTwoKey := if prevMove.Some? then Some((prevMove.value, player)) else None;
      lastResult := Some(res);
      roundsSeen := roundsSeen + 1;
    }
  }

  /** In a hesitant round the pivot bucket of the most hovered move is decayed and bumped. */
  method LearnPivot(pivot: map<Move, Dist>, snap: Snapshot, decisionMs: real, avg: real, decay: real, player: Move)
    returns (r: map<Move, Dist>)
    ensures r == if IsHesitant(snap, decisionMs, avg) then DecayBump(pivot, MostHovered(snap.hoverMs), decay, player) else pivot
  {
    r := pivot;
    if IsHesitant(snap, decisionMs, avg) {
      r := LearnBucket(pivot, MostHovered(snap.hoverMs), decay, player);
    }
  }

  /** Global frequencies: decayed, then one more for the move played. */
  method LearnCounts(counts: Dist, decay: real, player: Move) returns (r: Dist)
    ensures r == NextCounts(counts, decay, player)
  {
    var c := DecayCounts(counts, decay);
    r := Bump(c, player);
  }

  /** First-order transitions: every bucket decayed, then the previous move's bucket bumped. */
  method LearnTrans1(t: map<Move, Dist>, decay: real, lastMove: Option<Move>, player: Move) returns (r: map<Move, Dist>)
    ensures r == NextTrans1(t, decay, lastMove, player)
  {
    r := DecayNested(t, decay);
    if lastMove.Some? {
      var m := lastMove.value;
      var bucket := if m in r then r[m] else Ones();
      r := r[m := Bump(bucket, player)];
    }
  }

  /** One bucket created from ones if missing, decayed and bumped; the other buckets untouched. */
  method LearnBucket<K>(t: map<K, Dist>, key: K, decay: real, player: Move) returns (r: map<K, Dist>)
    ensures r == DecayBump(t, key, decay, player)
  {
    var bucket := if key in t then t[key] else Ones();
    var c := LearnCounts(bucket, decay, player);
    r := t[key := c];
  }

  /** Second-order transitions: only the bucket of the last two moves changes. */
  method LearnTrans2(t: map<(Move, Move), Dist>, decay: real, lastTwoKey: Option<(Move, Move)>, player: Move)
    returns (r: map<(Move, Move), Dist>)
    ensures r == NextTrans2(t, decay, lastTwoKey, player)
  {
    r := t;
    if lastTwoKey.Some? {
      r := LearnBucket(t, lastTwoKey.value, decay, player);
    }
  }

  /** Post-result table: every bucket decayed, then the previous result's bucket bumped. */
  method LearnPostRes(t: map<Result, Dist>, decay: real, lastResult: Option<Result>, player: Move)
    returns (r: map<Result, Dist>)
    ensures r == NextPostRes(t, decay, lastResult, player)
  {
    r := DecayNested(t, decay);
    var key := lastResult.GetOr(Draw);
    if key in r {
      r := r[key := Bump(r[key], player)];
    }
  }
}
