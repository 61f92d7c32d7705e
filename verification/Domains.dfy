/** kernel/afa_kernel/domains.py over the reals: weighted pooling with Kish's effective sample size. */
module Domains {
  import opened Wilson

  datatype Contribution = Contribution(weight: real, n: nat, c: nat, std: real)

  datatype DomainScore = DomainScore(
    pooled: real, nEff: real, low: real, high: real, stability: real, tasks: nat, runs: nat, displayable: bool)

  const MIN_TASKS: nat := 5
  const MIN_RUNS: nat := 25

  predicate ValidContribution(x: Contribution) {
    x.weight > 0.0 && x.c <= x.n && x.std >= 0.0
  }

  predicate ValidContributions(xs: seq<Contribution>) {
    forall i :: 0 <= i < |xs| ==> ValidContribution(xs[i])
  }

  // ---- The sums --------------------------------------------------------------------------

  function Mass(x: Contribution): real { x.weight * x.n as real }

  function PassMass(x: Contribution): real { x.weight * x.c as real }

  function SquareMass(x: Contribution): real { x.weight * x.weight * x.n as real }

  function StableMass(x: Contribution): real { x.weight * x.n as real * Stability(x.std) }

  function Stability(std: real): real {
    Max(0.0, 1.0 - 2.0 * std)
  }

  function Runs(xs: seq<Contribution>): nat {
    if xs == [] then 0 else xs[0].n + Runs(xs[1..])
  }

  function SumWN(xs: seq<Contribution>): real {
    if xs == [] then 0.0 else Mass(xs[0]) + SumWN(xs[1..])
  }

  function SumWC(xs: seq<Contribution>): real {
    if xs == [] then 0.0 else PassMass(xs[0]) + SumWC(xs[1..])
  }

  function SumWWN(xs: seq<Contribution>): real {
    if xs == [] then 0.0 else SquareMass(xs[0]) + SumWWN(xs[1..])
  }

  function SumWNS(xs: seq<Contribution>): real {
    if xs == [] then 0.0 else StableMass(xs[0]) + SumWNS(xs[1..])
  }

  /** Kish's effective sample size of a weighted sample with these sums. */
  function Kish(s: real, q: real): real
    requires q > 0.0
  {
    s * s / q
  }

  lemma MassSigns(x: Contribution)
    requires ValidContribution(x)
    ensures 0.0 <= PassMass(x) <= Mass(x) && SquareMass(x) >= 0.0
    ensures x.n > 0 <==> Mass(x) > 0.0
    ensures x.n > 0 <==> SquareMass(x) > 0.0
  {
    var w, n, c := x.weight, x.n as real, x.c as real;
    NonNegative(w, c);
    NonNegative(w, n - c);
    assert w * (n - c) == w * n - w * c;
    if x.n > 0 {
      var ww := SquareOf(w);
      var m := ProductOf(w, n);
      var mm := ProductOf(ww, n);
    } else {
      assert w * n == 0.0 && w * w * n == 0.0;
    }
  }

  /** Passes never outweigh runs, and the sums are positive as soon as there is a run. */
  lemma {:induction false} SumSigns(xs: seq<Contribution>)
    requires ValidContributions(xs)
    ensures 0.0 <= SumWC(xs) <= SumWN(xs) && SumWWN(xs) >= 0.0
    ensures Runs(xs) > 0 <==> SumWN(xs) > 0.0
    ensures Runs(xs) > 0 <==> SumWWN(xs) > 0.0
  {
    hide Mass, SquareMass, PassMass;
    if xs != [] {
      SumSigns(xs[1..]);
      MassSigns(xs[0]);
    }
  }

  function PooledInterval(sqrt: real -> real, p: real, n: real): Interval {
    WilsonInterval(sqrt, p * n, n, Z95)
  }

  /** domain_score. */
  function DomainScoreOf(sqrt: real -> real, xs: seq<Contribution>): DomainScore
    requires ValidContributions(xs)
  {
    var displayable := |xs| >= MIN_TASKS && Runs(xs) >= MIN_RUNS;
    if SumWN(xs) <= 0.0 then DomainScore(0.0, 0.0, 0.0, 1.0, 0.0, |xs|, Runs(xs), displayable)
    else
      SumSigns(xs);
      var pooled, nEff := SumWC(xs) / SumWN(xs), Kish(SumWN(xs), SumWWN(xs));
      var w := PooledInterval(sqrt, pooled, nEff);
      DomainScore(pooled, nEff, w.low, w.high, SumWNS(xs) / SumWN(xs), |xs|, Runs(xs), displayable)
  }

  // ---- The Kish bound (Cauchy-Schwarz) ---------------------------------------------------

  /** (sum n) (sum w^2 n) - (sum w n)^2, from the three sums. */
  function Gap(r: real, s: real, q: real): real { r * q - s * s }

  /** sum n_j (w - w_j)^2, from the three sums. */
  function Spread(r: real, s: real, q: real, w: real): real { r * w * w - 2.0 * w * s + q }

  lemma ProductIsZero(n: real, x: real) returns (m: real)
    requires n >= 0.0 && x >= 0.0
    ensures m == n * x && m >= 0.0 && (m == 0.0 <==> n == 0.0 || x == 0.0)
  {
    m := n * x;
    NonNegative(n, x);
    if n > 0.0 && x > 0.0 { Positive(n, x); }
  }

  lemma SquaredDistance(w: real, v: real) returns (d: real)
    ensures d == (w - v) * (w - v) && d >= 0.0 && (d == 0.0 <==> v == w)
  {
    if w > v {
      d := SquareOf(w - v);
    } else if v > w {
      d := SquareOf(v - w);
      assert (v - w) * (v - w) == (w - v) * (w - v);
    } else {
      d := 0.0;
    }
  }

  /** One more contribution adds its own squared distance, as often as it has runs. */
  lemma SpreadGrows(x: Contribution, r: real, s: real, q: real, w: real) returns (own: real)
    ensures Spread(x.n as real + r, Mass(x) + s, SquareMass(x) + q, w) == own + Spread(r, s, q, w)
    ensures own >= 0.0 && (own == 0.0 <==> x.n == 0 || x.weight == w)
  {
    var n, v := x.n as real, x.weight;
    var d := SquaredDistance(w, v);
    own := ProductIsZero(n, d);
    assert own == n * w * w - 2.0 * w * (v * n) + v * v * n;
    assert (n + r) * w * w == n * w * w + r * w * w;
    assert 2.0 * w * (v * n + s) == 2.0 * w * (v * n) + 2.0 * w * s;
  }

  /** One more contribution adds its spread against all the others, as often as it has runs. */
  lemma GapGrows(x: Contribution, r: real, s: real, q: real) returns (own: real)
    requires Spread(r, s, q, x.weight) >= 0.0
    ensures Gap(x.n as real + r, Mass(x) + s, SquareMass(x) + q) == own + Gap(r, s, q)
    ensures own >= 0.0 && (own == 0.0 <==> x.n == 0 || Spread(r, s, q, x.weight) == 0.0)
  {
    var n, w := x.n as real, x.weight;
    own := ProductIsZero(n, Spread(r, s, q, w));
    assert (n + r) * (w * w * n + q) - (w * n + s) * (w * n + s) == n * (r * w * w - 2.0 * w * s + q) + (r * q - s * s);
  }

  predicate AllWeigh(xs: seq<Contribution>, w: real) {
    forall i :: 0 <= i < |xs| && xs[i].n > 0 ==> xs[i].weight == w
  }

  predicate EqualWeights(xs: seq<Contribution>) {
    forall i, j :: 0 <= i < j < |xs| && xs[i].n > 0 && xs[j].n > 0 ==> xs[i].weight == xs[j].weight
  }

  lemma AllWeighCons(xs: seq<Contribution>, w: real)
    requires xs != []
    ensures AllWeigh(xs, w) <==> AllWeigh(xs[1..], w) && (xs[0].n > 0 ==> xs[0].weight == w)
  {
    var rest := xs[1..];
    assert forall i :: 0 <= i < |rest| ==> rest[i] == xs[i + 1];
    if AllWeigh(rest, w) && (xs[0].n > 0 ==> xs[0].weight == w) {
      forall i | 0 <= i < |xs| && xs[i].n > 0 ensures xs[i].weight == w {
        if i > 0 { assert xs[i] == rest[i - 1]; }
      }
    }
  }

  lemma EqualWeightsCons(xs: seq<Contribution>)
    requires xs != []
    ensures EqualWeights(xs) <==> EqualWeights(xs[1..]) && (xs[0].n > 0 ==> AllWeigh(xs[1..], xs[0].weight))
  {
    var rest := xs[1..];
    assert forall i :: 0 <= i < |rest| ==> rest[i] == xs[i + 1];
    if EqualWeights(xs) {
      forall i, j | 0 <= i < j < |rest| && rest[i].n > 0 && rest[j].n > 0 ensures rest[i].weight == rest[j].weight {
        assert xs[i + 1].weight == xs[j + 1].weight;
      }
      forall i | 0 <= i < |rest| && rest[i].n > 0 && xs[0].n > 0 ensures rest[i].weight == xs[0].weight {
        assert xs[i + 1].weight == xs[0].weight;
      }
    }
    if EqualWeights(rest) && (xs[0].n > 0 ==> AllWeigh(rest, xs[0].weight)) {
      forall i, j | 0 <= i < j < |xs| && xs[i].n > 0 && xs[j].n > 0 ensures xs[i].weight == xs[j].weight {
        assert xs[j] == rest[j - 1];
        if i > 0 { assert xs[i] == rest[i - 1]; }
      }
    }
  }

  lemma NoSums(xs: seq<Contribution>, w: real)
    requires xs == []
    ensures Spread(Runs(xs) as real, SumWN(xs), SumWWN(xs), w) == 0.0 && Gap(Runs(xs) as real, SumWN(xs), SumWWN(xs)) == 0.0
    ensures AllWeigh(xs, w) && EqualWeights(xs)
  {
  }

  lemma SumsOfCons(xs: seq<Contribution>)
    requires xs != []
    ensures Runs(xs) as real == xs[0].n as real + Runs(xs[1..]) as real
    ensures SumWN(xs) == Mass(xs[0]) + SumWN(xs[1..]) && SumWWN(xs) == SquareMass(xs[0]) + SumWWN(xs[1..])
  {
  }

  lemma {:induction false} SpreadIsZeroIff(xs: seq<Contribution>, w: real)
    ensures var d := Spread(Runs(xs) as real, SumWN(xs), SumWWN(xs), w); d >= 0.0 && (d == 0.0 <==> AllWeigh(xs, w))
  {
    hide *;
    if xs == [] {
      NoSums(xs, w);
    } else {
      var rest := xs[1..];
      SpreadIsZeroIff(rest, w);
      AllWeighCons(xs, w);
      var own := SpreadGrows(xs[0], Runs(rest) as real, SumWN(rest), SumWWN(rest), w);
      SumsOfCons(xs);
    }
  }

  /** The gap is never negative, and zero exactly when all contributions with runs weigh the same. */
  lemma {:induction false} GapIsZeroIff(xs: seq<Contribution>)
    ensures var d := Gap(Runs(xs) as real, SumWN(xs), SumWWN(xs)); d >= 0.0 && (d == 0.0 <==> EqualWeights(xs))
  {
    hide *;
    if xs == [] {
      NoSums(xs, 0.0);
    } else {
      var rest := xs[1..];
      GapIsZeroIff(rest);
      SpreadIsZeroIff(rest, xs[0].weight);
      EqualWeightsCons(xs);
      var own := GapGrows(xs[0], Runs(rest) as real, SumWN(rest), SumWWN(rest));
      SumsOfCons(xs);
    }
  }

  lemma KishAgainstRuns(s: real, q: real, r: real)
    requires s > 0.0 && q > 0.0
    ensures Kish(s, q) > 0.0
    ensures Gap(r, s, q) >= 0.0 ==> Kish(s, q) <= r
    ensures Kish(s, q) == r <==> Gap(r, s, q) == 0.0
  {
    var ss := SquareOf(s);
    var u := ss / q;
    DivMul(ss, q);
    Unscale(q, u, r);
    Unscale(q, 0.0, u);
    if ss == r * q { DivUnique(ss, q, r); }
  }

  /** With some run mass the effective sample size is positive and at most the number of runs; it is the number of runs exactly
      when all contributions with runs have the same weight. */
  lemma EffectiveSizeIsAtMostRuns(sqrt: real -> real, xs: seq<Contribution>)
    requires ValidContributions(xs) && Runs(xs) > 0
    ensures var n := DomainScoreOf(sqrt, xs).nEff;
      && 0.0 < n <= Runs(xs) as real && (n == Runs(xs) as real <==> EqualWeights(xs))
  {
    hide Kish, Gap, EqualWeights, PooledInterval;
    SumSigns(xs);
    GapIsZeroIff(xs);
    KishAgainstRuns(SumWN(xs), SumWWN(xs), Runs(xs) as real);
  }

  // ---- Bounds ----------------------------------------------------------------------------

  /** The pooled rate lies inside its interval, and everything in [0, 1]. */
  lemma PooledRateIsEnclosed(sqrt: real -> real, xs: seq<Contribution>)
    requires IsSqrt(sqrt) && ValidContributions(xs)
    ensures var d := DomainScoreOf(sqrt, xs); 0.0 <= d.low <= d.pooled <= d.high <= 1.0
  {
    hide Kish, PooledInterval;
    SumSigns(xs);
    if SumWN(xs) > 0.0 {
      KishAgainstRuns(SumWN(xs), SumWWN(xs), 0.0);
      RateInUnit(SumWC(xs), SumWN(xs));
      IntervalOfRate(sqrt, SumWC(xs) / SumWN(xs), Kish(SumWN(xs), SumWWN(xs)));
    }
  }

  lemma RateInUnit(c: real, n: real)
    requires 0.0 <= c <= n && n > 0.0
    ensures 0.0 <= c / n <= 1.0
  {
    var p := c / n;
    DivMul(c, n);
    Unscale(n, 0.0, p);
    Unscale(n, p, 1.0);
  }

  lemma IntervalOfRate(sqrt: real -> real, p: real, n: real)
    requires IsSqrt(sqrt) && n > 0.0 && 0.0 <= p <= 1.0
    ensures var w := PooledInterval(sqrt, p, n); 0.0 <= w.low <= p <= w.high <= 1.0
  {
    NonNegative(p, n);
    NonNegative(1.0 - p, n);
    var c := p * n;
    assert (1.0 - p) * n == n - c;
    DivUnique(c, n, p);
    BoundsAreUnclamped(sqrt, c, n, Z95);
  }

  // ---- Scaling the weights ---------------------------------------------------------------

  function Scaled(xs: seq<Contribution>, k: real): (ys: seq<Contribution>)
    ensures |ys| == |xs|
    ensures forall i :: 0 <= i < |xs| ==> ys[i] == xs[i].(weight := k * xs[i].weight)
  {
    if xs == [] then [] else [xs[0].(weight := k * xs[0].weight)] + Scaled(xs[1..], k)
  }

  lemma ScaledMasses(x: Contribution, k: real, y: Contribution)
    requires y == x.(weight := k * x.weight)
    ensures Mass(y) == Times(k, Mass(x)) && PassMass(y) == Times(k, PassMass(x)) && StableMass(y) == Times(k, StableMass(x))
    ensures SquareMass(y) == Times(k * k, SquareMass(x))
  {
  }

  function Times(k: real, x: real): real { k * x }

  lemma TimesAdds(k: real, x: real, y: real)
    ensures Times(k, x) + Times(k, y) == Times(k, x + y)
  {
  }

  lemma {:induction false} ScaledSums(xs: seq<Contribution>, k: real)
    ensures var ys := Scaled(xs, k);
      && Runs(ys) == Runs(xs) && SumWN(ys) == Times(k, SumWN(xs)) && SumWC(ys) == Times(k, SumWC(xs))
      && SumWWN(ys) == Times(k * k, SumWWN(xs)) && SumWNS(ys) == Times(k, SumWNS(xs))
  {
    assert Times(k, 0.0) == 0.0 && Times(k * k, 0.0) == 0.0;
    hide Times, Mass, PassMass, StableMass, SquareMass;
    if xs != [] {
      var rest := xs[1..];
      ScaledSums(rest, k);
      assert Scaled(xs, k)[1..] == Scaled(rest, k);
      ScaledMasses(xs[0], k, Scaled(xs, k)[0]);
      TimesAdds(k, Mass(xs[0]), SumWN(rest));
      TimesAdds(k, PassMass(xs[0]), SumWC(rest));
      TimesAdds(k, StableMass(xs[0]), SumWNS(rest));
      TimesAdds(k * k, SquareMass(xs[0]), SumWWN(rest));
    }
  }

  lemma CommonFactor(k: real, x: real, d: real)
    requires k > 0.0 && d > 0.0
    ensures Times(k, d) > 0.0 && Times(k, x) / Times(k, d) == x / d
  {
    var kd := ProductOf(k, d);
    var u := x / d;
    DivMul(x, d);
    assert u * kd == k * x;
    DivUnique(k * x, kd, u);
  }

  lemma KishUnscaled(k: real, s: real, q: real)
    requires k > 0.0 && s > 0.0 && q > 0.0
    ensures Times(k * k, q) > 0.0 && Kish(Times(k, s), Times(k * k, q)) == Kish(s, q)
  {
    var kk := SquareOf(k);
    CommonFactor(kk, s * s, q);
    assert (k * s) * (k * s) == kk * (s * s);
  }

  /** Only the relative weights matter. */
  lemma ScalingWeightsChangesNothing(sqrt: real -> real, xs: seq<Contribution>, k: real)
    requires ValidContributions(xs) && k > 0.0
    ensures ValidContributions(Scaled(xs, k))
    ensures DomainScoreOf(sqrt, Scaled(xs, k)) == DomainScoreOf(sqrt, xs)
  {
    var ys := Scaled(xs, k);
    forall i | 0 <= i < |ys| ensures ValidContribution(ys[i]) { Positive(k, xs[i].weight); }
    ScaledSums(xs, k);
    SumSigns(xs);
    SumSigns(ys);
    if SumWN(xs) > 0.0 {
      CommonFactor(k, SumWC(xs), SumWN(xs));
      CommonFactor(k, SumWNS(xs), SumWN(xs));
      KishUnscaled(k, SumWN(xs), SumWWN(xs));
    }
    hide PooledInterval, Scaled, Times, Kish;
  }
}
