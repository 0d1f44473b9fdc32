/**
 * Combination of the predictors: the per-level base weights
 * (levelWeights), the performance scale (predictorPerfScale) and the
 * weighted sum accumulated by predictNextPlayerDist.
 */
module Combination {
  import opened Wrappers
  import opened Moves
  import opened Distributions
  import opened Predictors

  /** The eight predictors, under the names the performance table uses. */
  datatype Predictor = Freq | Trans1 | Trans2 | Post | Repeat | Hover | Pivot | Ngram

  /** The base weight of each predictor at one level, and the level's exploration rate. */
  datatype WeightProfile = WeightProfile(
    freq: real, hover: real, trans1: real, trans2: real,
    post: real, repeat: real, pivot: real, ngram: real, eps: real)
  {
    function Weight(p: Predictor): real {
      match p
      case Freq => freq
      case Hover => hover
      case Trans1 => trans1
      case Trans2 => trans2
      case Post => post
      case Repeat => repeat
      case Pivot => pivot
      case Ngram => ngram
    }
  }

  /**
   * levelWeights: level 0 (and below) uses only frequency and hover intent;
   * higher levels move weight from frequency towards the higher-order and
   * behavioural predictors.
   */
  function LevelWeights(level: int): (w: WeightProfile)
    ensures forall p :: w.Weight(p) >= 0.0
    ensures level <= 0 ==> forall p :: p != Freq && p != Hover ==> w.Weight(p) == 0.0
    ensures level >= 1 ==> forall p :: p != Trans2 ==> w.Weight(p) > 0.0
    ensures level >= 2 ==> forall p :: w.Weight(p) > 0.0
    ensures 0.0 < w.eps <= 0.30
  {
    if level <= 0 then WeightProfile(0.30, 0.20, 0.0, 0.0, 0.0, 0.0, 0.0, 0.0, 0.30)
    else if level == 1 then WeightProfile(0.25, 0.20, 0.30, 0.0, 0.15, 0.10, 0.05, 0.05, 0.20)
    else if level == 2 then WeightProfile(0.20, 0.10, 0.25, 0.20, 0.10, 0.15, 0.10, 0.10, 0.12)
    else WeightProfile(0.15, 0.08, 0.20, 0.25, 0.10, 0.20, 0.12, 0.15, 0.08)
  }

  /** Going up a level never raises the frequency weight nor lowers the second-order weight. */
  lemma WeightShift(l1: int, l2: int)
    requires l1 <= l2
    ensures LevelWeights(l2).freq <= LevelWeights(l1).freq
    ensures LevelWeights(l1).trans2 <= LevelWeights(l2).trans2
    ensures LevelWeights(l2).eps <= LevelWeights(l1).eps
  {
  }

  /** The running performance score of a predictor, 0.5 when none is recorded (`perf[name] ?? 0.5`). */
  function PerfOf(perf: map<Predictor, real>, name: Predictor): real {
    if name in perf then perf[name] else 0.5
  }

  /** `Math.max(0, Math.min(1, x))`: the nearest point of [0, 1]. */
  function Clamp01(x: real): (c: real)
    ensures 0.0 <= c <= 1.0
    ensures 0.0 <= x <= 1.0 ==> c == x
    ensures x < 0.0 ==> c == 0.0
    ensures x > 1.0 ==> c == 1.0
  {
    if x < 0.0 then 0.0 else if x > 1.0 then 1.0 else x
  }

  /** predictorPerfScale: 0.6 plus 1.6 times the clamped score; better predictors weigh more. */
  function PerfScale(perf: map<Predictor, real>, name: Predictor): (s: real)
    ensures 0.6 <= s <= 2.2
    ensures name !in perf ==> s == 1.4
    ensures PerfOf(perf, name) <= 0.0 ==> s == 0.6
    ensures PerfOf(perf, name) >= 1.0 ==> s == 2.2
  {
    0.6 + 1.6 * Clamp01(PerfOf(perf, name))
  }

  /**
   * A higher score never gives a smaller scale, and gives a strictly larger
   * one exactly when the two scores are not both clamped to the same end.
   */
  lemma PerfScaleMonotone(perf: map<Predictor, real>, a: Predictor, b: Predictor)
    requires PerfOf(perf, a) <= PerfOf(perf, b)
    ensures PerfScale(perf, a) <= PerfScale(perf, b)
    ensures PerfScale(perf, a) < PerfScale(perf, b) <==>
      PerfOf(perf, a) < PerfOf(perf, b) && PerfOf(perf, a) < 1.0 && 0.0 < PerfOf(perf, b)
  {
  }

  /** Extra factor on the repeat weight after a slow decision that follows a loss. */
  const RepeatBoost: real := 1.6

  /** Extra factor on the pivot weight whenever the pivot has an opinion. */
  const PivotBoost: real := 1.2

  /** The repeat weight of this round: the base weight, times 1.6 after a slow decision following a loss. */
  function RepeatWeight(level: int, decisionMs: real, avgDecisionMs: real, lastResult: Option<Result>): (w: real)
    ensures w >= LevelWeights(level).repeat
    ensures w > LevelWeights(level).repeat <==>
      level >= 1 && IsSlow(decisionMs, avgDecisionMs) && lastResult == Some(Lose)
  {
    var base := LevelWeights(level).repeat;
    if IsSlow(decisionMs, avgDecisionMs) && lastResult == Some(Lose) then base * RepeatBoost else base
  }

  /** One opinion entering the sum: the predictor, its distribution and its base weight. */
  datatype Part = Part(name: Predictor, dist: Dist, weight: real)

  /** The parts of the list that come from the predictor `name`, in order. */
  function Named(parts: seq<Part>, name: Predictor): (r: seq<Part>)
    ensures |r| <= |parts|
  {
    if |parts| == 0 then []
    else (if parts[0].name == name then [parts[0]] else []) + Named(parts[1..], name)
  }

  /** Named keeps exactly the parts under that name. */
  lemma {:induction false} NamedMembers(parts: seq<Part>, name: Predictor)
    ensures forall p :: p in Named(parts, name) <==> p in parts && p.name == name
  {
    if |parts| > 0 {
      NamedMembers(parts[1..], name);
      assert forall p :: p in parts <==> p == parts[0] || p in parts[1..];
    }
  }

  /** Selecting by name distributes over joining lists. */
  lemma {:induction false} NamedConcat(a: seq<Part>, b: seq<Part>)
    ensures forall name :: Named(a + b, name) == Named(a, name) + Named(b, name)
  {
    if |a| == 0 {
      assert a + b == b;
    } else {
      assert (a + b)[1..] == a[1..] + b;
      NamedConcat(a[1..], b);
    }
  }

  /** An opinion as a list of zero or one part. */
  function OptPart(name: Predictor, d: Option<Dist>, weight: real): (ps: seq<Part>)
    ensures d.None? ==> ps == []
    ensures d.Some? ==> ps == [Part(name, d.value, weight)]
  {
    if d.None? then [] else [Part(name, d.value, weight)]
  }

  /** A list whose parts all carry one name is selected whole by that name and not at all by another. */
  lemma {:induction false} NamedOwn(parts: seq<Part>, m: Predictor)
    requires forall p :: p in parts ==> p.name == m
    ensures Named(parts, m) == parts
    ensures forall n :: n != m ==> |Named(parts, n)| == 0
  {
    if |parts| > 0 {
      assert parts[0] in parts;
      assert forall p :: p in parts[1..] ==> p in parts;
      NamedOwn(parts[1..], m);
      assert parts == [parts[0]] + parts[1..];
    }
  }

  /** A right-hand list without the name adds nothing to its selection. */
  lemma NamedKeepsLeft(a: seq<Part>, b: seq<Part>, n: Predictor)
    requires |Named(b, n)| == 0
    ensures Named(a + b, n) == Named(a, n)
  {
    NamedConcat(a, b);
    assert Named(a, n) + Named(b, n) == Named(a, n) + [];
  }

  /** A left-hand list without the name adds nothing to its selection. */
  lemma NamedKeepsRight(a: seq<Part>, b: seq<Part>, n: Predictor)
    requires |Named(a, n)| == 0
    ensures Named(a + b, n) == Named(b, n)
  {
    NamedConcat(a, b);
    assert Named(a, n) + Named(b, n) == [] + Named(b, n);
  }

  /** Two lists under two different names: each name selects exactly its own list. */
  lemma NamedPair(a: seq<Part>, b: seq<Part>, ma: Predictor, mb: Predictor)
    requires ma != mb
    requires forall p :: p in a ==> p.name == ma
    requires forall p :: p in b ==> p.name == mb
    ensures Named(a + b, ma) == a && Named(a + b, mb) == b
    ensures forall n :: n != ma && n != mb ==> |Named(a + b, n)| == 0
  {
    NamedOwn(a, ma);
    NamedOwn(b, mb);
    NamedConcat(a, b);
    assert Named(a + b, ma) == a + [];
    assert Named(a + b, mb) == [] + b;
  }

  /** Four lists under the first four table-based predictors' names, joined in order. */
  lemma NamedFour(o1: seq<Part>, o2: seq<Part>, o3: seq<Part>, o4: seq<Part>, n: Predictor)
    requires forall p :: p in o1 ==> p.name == Freq
    requires forall p :: p in o2 ==> p.name == Trans1
    requires forall p :: p in o3 ==> p.name == Trans2
    requires forall p :: p in o4 ==> p.name == Post
    ensures Named(o1 + o2 + (o3 + o4), n)
         == if n == Freq then o1 else if n == Trans1 then o2
            else if n == Trans2 then o3 else if n == Post then o4 else []
  {
    NamedPair(o1, o2, Freq, Trans1);
    NamedPair(o3, o4, Trans2, Post);
    if n == Freq || n == Trans1 {
      NamedKeepsLeft(o1 + o2, o3 + o4, n);
    } else if n == Trans2 || n == Post {
      NamedKeepsRight(o1 + o2, o3 + o4, n);
    } else {
      NamedConcat(o1 + o2, o3 + o4);
    }
  }

  /**
   * Six lists, one per table-based predictor and joined in the order the
   * opinions are collected: each predictor's name selects exactly its own list.
   */
  lemma NamedSix(o1: seq<Part>, o2: seq<Part>, o3: seq<Part>, o4: seq<Part>, o5: seq<Part>, o6: seq<Part>,
                 n: Predictor)
    requires forall p :: p in o1 ==> p.name == Freq
    requires forall p :: p in o2 ==> p.name == Trans1
    requires forall p :: p in o3 ==> p.name == Trans2
    requires forall p :: p in o4 ==> p.name == Post
    requires forall p :: p in o5 ==> p.name == Repeat
    requires forall p :: p in o6 ==> p.name == Ngram
    ensures Named(o1 + o2 + (o3 + o4) + (o5 + o6), n)
         == if n == Freq then o1 else if n == Trans1 then o2
            else if n == Trans2 then o3 else if n == Post then o4
            else if n == Repeat then o5 else if n == Ngram then o6 else []
  {
    var a, c := o1 + o2 + (o3 + o4), o5 + o6;
    NamedFour(o1, o2, o3, o4, n);
    NamedPair(o5, o6, Repeat, Ngram);
    if n == Repeat || n == Ngram {
      NamedKeepsRight(a, c, n);
    } else {
      NamedKeepsLeft(a, c, n);
    }
  }

  /** Every part is a distribution with a non-negative weight. */
  ghost predicate PartsWellFormed(parts: seq<Part>) {
    forall p :: p in parts ==> IsDistribution(p.dist) && p.weight >= 0.0
  }

  /**
   * The accumulator after adding every part, in order, scaled by its weight
   * and its predictor's performance scale.
   */
  function WeightedSum(parts: seq<Part>, perf: map<Predictor, real>): (acc: Dist)
    ensures PartsWellFormed(parts) ==> NonNegative(acc)
  {
    if |parts| == 0 then Zero()
    else
      var last := parts[|parts| - 1];
      assert PartsWellFormed(parts) ==> PartsWellFormed(parts[..|parts| - 1]) && EffectiveWeight(last, perf) >= 0.0;
      AddWeighted(WeightedSum(parts[..|parts| - 1], perf), last.dist, EffectiveWeight(last, perf))
  }

  /** The weight a part enters the sum with: its base weight times its predictor's performance scale. */
  function EffectiveWeight(p: Part, perf: map<Predictor, real>): (w: real)
    ensures p.weight >= 0.0 ==> w >= 0.0
  {
    p.weight * PerfScale(perf, p.name)
  }

  /** The map from each predictor that had an opinion to its distribution (usedDists). */
  function UsedDists(parts: seq<Part>): (used: map<Predictor, Dist>)
    ensures forall i :: 0 <= i < |parts| ==> parts[i].name in used
    ensures forall n :: n in used ==> exists i :: 0 <= i < |parts| && parts[i].name == n && parts[i].dist == used[n]
  {
    if |parts| == 0 then map[]
    else
      var last := parts[|parts| - 1];
      UsedDists(parts[..|parts| - 1])[last.name := last.dist]
  }
}
