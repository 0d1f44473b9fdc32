/**
 * Distributions over the three moves (zeroDist, uniformDist, normDist,
 * addWeighted, decayCounts). The same three-entry record holds a
 * probability distribution, a bucket of decayed counts, or hover times.
 */
module Distributions {
  import opened Moves

  /** One non-negative real per move. */
  datatype Dist = Dist(tesoura: real, pedra: real, papel: real) {
    function Get(m: Move): real {
      match m
      case Tesoura => tesoura
      case Pedra => pedra
      case Papel => papel
    }

    /** This record with the entry of m replaced by v. */
    function With(m: Move, v: real): (r: Dist)
      ensures r.Get(m) == v
      ensures forall k :: k != m ==> r.Get(k) == Get(k)
    {
      match m
      case Tesoura => this.(tesoura := v)
      case Pedra => this.(pedra := v)
      case Papel => this.(papel := v)
    }

    function Total(): real {
      tesoura + pedra + papel
    }
  }

  /** Totals at or below this are treated as empty by NormDist. */
  const Tiny: real := 0.000000001

  function Zero(): Dist { Dist(0.0, 0.0, 0.0) }

  function Uniform(): Dist { Dist(1.0 / 3.0, 1.0 / 3.0, 1.0 / 3.0) }

  /** The smoothing bucket every table starts from. */
  function Ones(): Dist { Dist(1.0, 1.0, 1.0) }

  /** All mass on m. */
  function PointMass(m: Move): Dist { Zero().With(m, 1.0) }

  predicate NonNegative(d: Dist) {
    d.tesoura >= 0.0 && d.pedra >= 0.0 && d.papel >= 0.0
  }

  predicate Positive(d: Dist) {
    d.tesoura > 0.0 && d.pedra > 0.0 && d.papel > 0.0
  }

  /** A probability distribution: non-negative entries summing to 1. */
  predicate IsDistribution(d: Dist) {
    NonNegative(d) && d.Total() == 1.0
  }

  lemma DivideSum(a: real, b: real, c: real, s: real)
    requires s != 0.0 && a + b + c == s
    ensures a / s + b / s + c / s == 1.0
  {
    assert a / s + b / s + c / s == (a + b + c) / s;
  }

  /**
   * normDist: scales d to total 1, or gives the uniform distribution when
   * the total is at most Tiny.
   */
  function NormDist(d: Dist): (r: Dist)
    ensures d.Total() <= Tiny ==> r == Uniform()
    ensures d.Total() > Tiny ==> forall m :: r.Get(m) * d.Total() == d.Get(m)
    ensures NonNegative(d) ==> IsDistribution(r)
  {
    var s := d.Total();
    if s <= Tiny then Uniform()
    else
      DivideSum(d.tesoura, d.pedra, d.papel, s);
      Dist(d.tesoura / s, d.pedra / s, d.papel / s)
  }

  /** Normalising keeps the order of the entries: a move with more mass gets at least as much probability. */
  lemma NormKeepsOrder(d: Dist)
    ensures forall a, b :: d.Get(a) <= d.Get(b) ==> NormDist(d).Get(a) <= NormDist(d).Get(b)
  {
    if d.Total() > Tiny {
      DivideKeepsOrder(d, d.Total());
    }
  }

  lemma DivideKeepsOrder(d: Dist, s: real)
    requires s > 0.0
    ensures forall a, b :: d.Get(a) <= d.Get(b) ==> d.Get(a) / s <= d.Get(b) / s
  {
    forall a, b | d.Get(a) <= d.Get(b) ensures d.Get(a) / s <= d.Get(b) / s {
      DivideMonotone(d.Get(a), d.Get(b), s);
    }
  }

  lemma DivideMonotone(x: real, y: real, s: real)
    requires s > 0.0 && x <= y
    ensures x / s <= y / s
  {
    assert y / s - x / s == (y - x) / s;
  }

  /** Normalising a single positive entry puts all mass on that move. */
  lemma NormSingle(m: Move, v: real)
    requires v > Tiny
    ensures NormDist(Zero().With(m, v)) == PointMass(m)
  {
    var d := Zero().With(m, v);
    assert d.Total() == v;
    var r := NormDist(d);
    assert r.Get(m) * v == v;
    forall k | k != m ensures r.Get(k) == 0.0 {
      assert r.Get(k) * v == 0.0;
    }
    assert r.Get(Tesoura) == PointMass(m).Get(Tesoura);
    assert r.Get(Pedra) == PointMass(m).Get(Pedra);
    assert r.Get(Papel) == PointMass(m).Get(Papel);
  }

  /** addWeighted: adds w times d to the accumulator, entry by entry. */
  function AddWeighted(acc: Dist, d: Dist, w: real): (r: Dist)
    ensures forall m :: r.Get(m) == acc.Get(m) + d.Get(m) * w
    ensures r.Total() == acc.Total() + w * d.Total()
    ensures NonNegative(acc) && NonNegative(d) && w >= 0.0 ==> NonNegative(r)
  {
    Dist(acc.tesoura + d.tesoura * w, acc.pedra + d.pedra * w, acc.papel + d.papel * w)
  }

  /** Every entry multiplied by f. */
  function Scale(d: Dist, f: real): (r: Dist)
    ensures forall m :: r.Get(m) == d.Get(m) * f
  {
    Dist(d.tesoura * f, d.pedra * f, d.papel * f)
  }

  /** Scaling by a positive factor keeps entries positive. */
  lemma ScalePositive(d: Dist, f: real)
    requires Positive(d) && 0.0 < f
    ensures Positive(Scale(d, f))
  {
    PositiveProduct(d.tesoura, f);
    PositiveProduct(d.pedra, f);
    PositiveProduct(d.papel, f);
  }

  /** Scaling positive entries by a factor below 1 makes every one of them smaller. */
  lemma ScaleShrinks(d: Dist, f: real)
    requires Positive(d) && 0.0 < f < 1.0
    ensures forall m :: Scale(d, f).Get(m) < d.Get(m)
  {
    PositiveProduct(d.tesoura, f);
    PositiveProduct(d.pedra, f);
    PositiveProduct(d.papel, f);
    var s := Scale(d, f);
    assert s.tesoura == d.tesoura * f;
    assert d.tesoura * f < d.tesoura;
    assert s.tesoura < d.tesoura && s.pedra < d.pedra && s.papel < d.papel;
  }

  lemma PositiveProduct(x: real, f: real)
    requires x > 0.0 && f > 0.0
    ensures x * f > 0.0
    ensures f < 1.0 ==> x * f < x
  {
  }

  /** One count added to the entry of m. */
  function Bump(d: Dist, m: Move): (r: Dist)
    ensures r.Get(m) == d.Get(m) + 1.0
    ensures forall k :: k != m ==> r.Get(k) == d.Get(k)
    ensures Positive(d) ==> Positive(r)
  {
    d.With(m, d.Get(m) + 1.0)
  }

  /**
   * decayCounts: multiplies every entry of a bucket by decay, one key at a
   * time in the order the keys are stored.
   */
  method DecayCounts(c: Dist, decay: real) returns (r: Dist)
    ensures r == Scale(c, decay)
  {
    r := c;
    for i := 0 to |Order|
      invariant forall j :: 0 <= j < i ==> r.Get(Order[j]) == c.Get(Order[j]) * decay
      invariant forall j :: i <= j < |Order| ==> r.Get(Order[j]) == c.Get(Order[j])
    {
      var k := Order[i];
      r := r.With(k, r.Get(k) * decay);
    }
    assert r.Get(Order[0]) == Scale(c, decay).Get(Tesoura);
    assert r.Get(Order[1]) == Scale(c, decay).Get(Pedra);
    assert r.Get(Order[2]) == Scale(c, decay).Get(Papel);
  }
}
