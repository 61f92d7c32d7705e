/** What the domain score of module Domains means, without the sums it is computed from. */
module DomainLaws {
  import opened Wilson
  import opened Domains

  // ---- The balance point -----------------------------------------------------------------

  /** Weighted passes above the rate p less weighted passes below it. */
  function Imbalance(xs: seq<Contribution>, p: real): real {
    if xs == [] then 0.0 else xs[0].weight * (xs[0].c as real - p * xs[0].n as real) + Imbalance(xs[1..], p)
  }

  lemma OwnImbalance(x: Contribution, p: real)
    ensures x.weight * (x.c as real - p * x.n as real) == PassMass(x) - p * Mass(x)
  {
  }

  lemma Regroup(p: real, a: real, m: real, b: real, n: real)
    ensures (a - p * m) + (b - p * n) == (a + b) - p * (m + n)
  {
  }

  lemma {:induction false} ImbalanceIs(xs: seq<Contribution>, p: real)
    ensures Imbalance(xs, p) == SumWC(xs) - p * SumWN(xs)
  {
    hide Mass, PassMass;
    if xs == [] {
      assert p * 0.0 == 0.0;
    } else {
      ImbalanceIs(xs[1..], p);
      OwnImbalance(xs[0], p);
      Regroup(p, PassMass(xs[0]), Mass(xs[0]), SumWC(xs[1..]), SumWN(xs[1..]));
    }
  }

  lemma PooledTimesMass(sqrt: real -> real, xs: seq<Contribution>)
    requires ValidContributions(xs) && Runs(xs) > 0
    ensures SumWN(xs) > 0.0 && DomainScoreOf(sqrt, xs).pooled * SumWN(xs) == SumWC(xs)
    ensures DomainScoreOf(sqrt, xs).pooled == SumWC(xs) / SumWN(xs) && 0.0 <= SumWC(xs) <= SumWN(xs)
  {
    hide Kish, PooledInterval;
    SumSigns(xs);
    DivMul(SumWC(xs), SumWN(xs));
  }

  /** The pooled rate is the one rate about which the weighted results balance. */
  lemma PooledBalances(sqrt: real -> real, xs: seq<Contribution>, p: real)
    requires ValidContributions(xs) && Runs(xs) > 0
    ensures Imbalance(xs, p) == 0.0 <==> p == DomainScoreOf(sqrt, xs).pooled
  {
    hide *;
    PooledTimesMass(sqrt, xs);
    ImbalanceIs(xs, p);
    BalancePoint(SumWC(xs), SumWN(xs), p, DomainScoreOf(sqrt, xs).pooled);
  }

  lemma BalancePoint(c: real, n: real, p: real, q: real)
    requires n > 0.0 && q * n == c
    ensures c - p * n == 0.0 <==> p == q
  {
    DivUnique(c, n, q);
    if p * n == c { DivUnique(c, n, p); }
  }

  // ---- Extremes and monotonicity ---------------------------------------------------------

  predicate AllPassed(xs: seq<Contribution>) {
    forall i :: 0 <= i < |xs| ==> xs[i].c == xs[i].n
  }

  predicate NonePassed(xs: seq<Contribution>) {
    forall i :: 0 <= i < |xs| ==> xs[i].c == 0
  }

  lemma OwnExtremes(x: Contribution)
    requires ValidContribution(x)
    ensures PassMass(x) == Mass(x) <==> x.c == x.n
    ensures PassMass(x) == 0.0 <==> x.c == 0
    ensures 0.0 <= PassMass(x) <= Mass(x)
  {
    MassSigns(x);
    var w, n, c := x.weight, x.n as real, x.c as real;
    assert w * (n - c) == w * n - w * c;
    if x.c < x.n { Positive(w, n - c); }
    if x.c > 0 { Positive(w, c); }
  }

  lemma {:induction false} SumExtremes(xs: seq<Contribution>)
    requires ValidContributions(xs)
    ensures SumWC(xs) == SumWN(xs) <==> AllPassed(xs)
    ensures SumWC(xs) == 0.0 <==> NonePassed(xs)
    ensures 0.0 <= SumWC(xs) <= SumWN(xs)
  {
    hide Mass, PassMass;
    if xs != [] {
      var rest := xs[1..];
      SumExtremes(rest);
      OwnExtremes(xs[0]);
      assert forall i :: 0 <= i < |rest| ==> rest[i] == xs[i + 1];
      assert forall i :: 0 < i < |xs| ==> xs[i] == rest[i - 1];
    }
  }

  /** The rate is 1 exactly when every run passed and 0 exactly when none did. */
  lemma PooledExtremes(sqrt: real -> real, xs: seq<Contribution>)
    requires ValidContributions(xs) && Runs(xs) > 0
    ensures DomainScoreOf(sqrt, xs).pooled == 1.0 <==> AllPassed(xs)
    ensures DomainScoreOf(sqrt, xs).pooled == 0.0 <==> NonePassed(xs)
  {
    PooledTimesMass(sqrt, xs);
    SumExtremes(xs);
    hide DomainScoreOf;
    if AllPassed(xs) { DivUnique(SumWC(xs), SumWN(xs), 1.0); }
    if NonePassed(xs) { DivUnique(SumWC(xs), SumWN(xs), 0.0); }
  }

  function OneMorePass(xs: seq<Contribution>, i: nat): seq<Contribution>
    requires i < |xs|
  {
    xs[i := xs[i].(c := xs[i].c + 1)]
  }

  lemma {:induction false} OneMoreSums(xs: seq<Contribution>, i: nat)
    requires i < |xs|
    ensures var ys := OneMorePass(xs, i);
      SumWN(ys) == SumWN(xs) && SumWC(ys) == SumWC(xs) + xs[i].weight && Runs(ys) == Runs(xs)
  {
    var ys := OneMorePass(xs, i);
    if i == 0 {
      assert ys[1..] == xs[1..];
      assert PassMass(ys[0]) == PassMass(xs[0]) + xs[0].weight && Mass(ys[0]) == Mass(xs[0]);
    } else {
      hide Mass, PassMass;
      OneMoreSums(xs[1..], i - 1);
      assert ys[1..] == OneMorePass(xs[1..], i - 1);
    }
  }

  /** One more pass in any contribution strictly raises the rate. */
  lemma OneMorePassRaises(sqrt: real -> real, xs: seq<Contribution>, i: nat)
    requires ValidContributions(xs) && i < |xs| && xs[i].c < xs[i].n
    ensures ValidContributions(OneMorePass(xs, i))
    ensures DomainScoreOf(sqrt, xs).pooled < DomainScoreOf(sqrt, OneMorePass(xs, i)).pooled
  {
    var ys := OneMorePass(xs, i);
    RunsAtLeast(xs, i);
    OneMoreSums(xs, i);
    PooledTimesMass(sqrt, xs);
    PooledTimesMass(sqrt, ys);
    hide DomainScoreOf, OneMorePass;
    DivLess(SumWC(xs), SumWC(ys), SumWN(xs));
  }

  lemma {:induction false} RunsAtLeast(xs: seq<Contribution>, i: nat)
    requires i < |xs|
    ensures Runs(xs) >= xs[i].n
  {
    if i > 0 { RunsAtLeast(xs[1..], i - 1); }
  }

  // ---- Equal weights ---------------------------------------------------------------------

  function Passes(xs: seq<Contribution>): nat {
    if xs == [] then 0 else xs[0].c + Passes(xs[1..])
  }

  lemma OwnMasses(x: Contribution, w: real)
    requires x.n > 0 ==> x.weight == w
    requires x.c <= x.n
    ensures Mass(x) == Times(w, x.n as real) && PassMass(x) == Times(w, x.c as real)
  {
    SameTimes(x.weight, w, x.n as real);
    SameTimes(x.weight, w, x.c as real);
  }

  lemma SameTimes(v: real, w: real, n: real)
    requires n != 0.0 ==> v == w
    ensures v * n == Times(w, n)
  {
    if n == 0.0 {
      assert v * n == 0.0 && w * n == 0.0;
    } else {
      assert v == w;
    }
  }

  lemma {:induction false} CommonWeightSums(xs: seq<Contribution>, w: real)
    requires AllWeigh(xs, w) && ValidContributions(xs)
    ensures SumWN(xs) == Times(w, Runs(xs) as real) && SumWC(xs) == Times(w, Passes(xs) as real)
  {
    if xs == [] {
      assert w * 0.0 == 0.0;
    } else {
      AllWeighCons(xs, w);
      CommonWeightSums(xs[1..], w);
      OwnMasses(xs[0], w);
      TimesAdds(w, xs[0].n as real, Runs(xs[1..]) as real);
      TimesAdds(w, xs[0].c as real, Passes(xs[1..]) as real);
      hide Times, Mass, PassMass, AllWeigh;
    }
  }

  lemma CancelWeight(w: real, p: real, n: real, c: real)
    requires w > 0.0 && p * Times(w, n) == Times(w, c)
    ensures p * n == c
  {
    assert (p * n) * w == p * (w * n);
    Unscale(w, p * n, c);
    Unscale(w, c, p * n);
  }

  lemma {:induction false} SomeRuns(xs: seq<Contribution>) returns (i: nat)
    requires Runs(xs) > 0
    ensures i < |xs| && xs[i].n > 0
  {
    if xs[0].n > 0 {
      i := 0;
    } else {
      i := SomeRuns(xs[1..]);
      i := i + 1;
    }
  }

  /** With equal weights the rate is the share of runs that passed. */
  lemma EqualWeightsGiveTheShare(sqrt: real -> real, xs: seq<Contribution>)
    requires ValidContributions(xs) && Runs(xs) > 0 && EqualWeights(xs)
    ensures DomainScoreOf(sqrt, xs).pooled * Runs(xs) as real == Passes(xs) as real
  {
    hide *;
    var w := CommonWeight(xs);
    CommonWeightSums(xs, w);
    PooledTimesMass(sqrt, xs);
    CancelWeight(w, DomainScoreOf(sqrt, xs).pooled, Runs(xs) as real, Passes(xs) as real);
  }

  lemma CommonWeight(xs: seq<Contribution>) returns (w: real)
    requires ValidContributions(xs) && Runs(xs) > 0 && EqualWeights(xs)
    ensures w > 0.0 && AllWeigh(xs, w)
  {
    var i := SomeRuns(xs);
    w := xs[i].weight;
  }

  // ---- Joining ---------------------------------------------------------------------------

  lemma {:induction false} JoinedSums(xs: seq<Contribution>, ys: seq<Contribution>)
    ensures SumWN(xs + ys) == SumWN(xs) + SumWN(ys) && SumWC(xs + ys) == SumWC(xs) + SumWC(ys)
    ensures SumWNS(xs + ys) == SumWNS(xs) + SumWNS(ys) && Runs(xs + ys) == Runs(xs) + Runs(ys)
  {
    hide Mass, PassMass, StableMass;
    if xs == [] {
      assert xs + ys == ys;
    } else {
      JoinedSums(xs[1..], ys);
      assert (xs + ys)[1..] == xs[1..] + ys;
    }
  }

  lemma JoinIsValid(xs: seq<Contribution>, ys: seq<Contribution>)
    requires ValidContributions(xs) && ValidContributions(ys)
    ensures ValidContributions(xs + ys)
  {
  }

  lemma SameProduct(p: real, a: real, b: real)
    requires a == b
    ensures p * a == p * b
  {
  }

  /** Two lists pooled together: the mean of their rates, weighted by their run masses. */
  lemma JoiningIsTheWeightedMean(sqrt: real -> real, xs: seq<Contribution>, ys: seq<Contribution>)
    requires ValidContributions(xs) && ValidContributions(ys) && Runs(xs) > 0 && Runs(ys) > 0
    ensures ValidContributions(xs + ys)
    ensures DomainScoreOf(sqrt, xs + ys).pooled * (SumWN(xs) + SumWN(ys))
            == DomainScoreOf(sqrt, xs).pooled * SumWN(xs) + DomainScoreOf(sqrt, ys).pooled * SumWN(ys)
  {
    hide *;
    JoinedSums(xs, ys);
    JoinIsValid(xs, ys);
    PooledTimesMass(sqrt, xs);
    PooledTimesMass(sqrt, ys);
    PooledTimesMass(sqrt, xs + ys);
    SameProduct(DomainScoreOf(sqrt, xs + ys).pooled, SumWN(xs + ys), SumWN(xs) + SumWN(ys));
  }

  /** A single task's rate is its passes over its runs, and its mass its weight times its runs. */
  lemma SingleTask(sqrt: real -> real, x: Contribution)
    requires ValidContribution(x) && x.n > 0
    ensures DomainScoreOf(sqrt, [x]).pooled * x.n as real == x.c as real && SumWN([x]) == x.weight * x.n as real
  {
    assert Runs([x]) == x.n && Passes([x]) == x.c by { assert [x][1..] == []; }
    assert EqualWeights([x]);
    EqualWeightsGiveTheShare(sqrt, [x]);
    assert SumWN([x]) == Mass(x) + SumWN([x][1..]);
    hide DomainScoreOf;
  }

  lemma StabilityTimesMass(sqrt: real -> real, xs: seq<Contribution>)
    requires ValidContributions(xs) && Runs(xs) > 0
    ensures DomainScoreOf(sqrt, xs).stability * SumWN(xs) == SumWNS(xs)
  {
    hide Kish, PooledInterval;
    SumSigns(xs);
    DivMul(SumWNS(xs), SumWN(xs));
  }

  /** Stability pools the same way, and a single task's is 1 less twice its deviation, but never negative. */
  lemma StabilityJoins(sqrt: real -> real, xs: seq<Contribution>, ys: seq<Contribution>)
    requires ValidContributions(xs) && ValidContributions(ys) && Runs(xs) > 0 && Runs(ys) > 0
    ensures ValidContributions(xs + ys)
    ensures DomainScoreOf(sqrt, xs + ys).stability * (SumWN(xs) + SumWN(ys))
            == DomainScoreOf(sqrt, xs).stability * SumWN(xs) + DomainScoreOf(sqrt, ys).stability * SumWN(ys)
  {
    hide *;
    JoinedSums(xs, ys);
    JoinIsValid(xs, ys);
    StabilityTimesMass(sqrt, xs);
    StabilityTimesMass(sqrt, ys);
    StabilityTimesMass(sqrt, xs + ys);
    SameProduct(DomainScoreOf(sqrt, xs + ys).stability, SumWN(xs + ys), SumWN(xs) + SumWN(ys));
  }

  lemma SingleStability(sqrt: real -> real, x: Contribution)
    requires ValidContribution(x) && x.n > 0
    ensures DomainScoreOf(sqrt, [x]).stability == if x.std <= 0.5 then 1.0 - 2.0 * x.std else 0.0
  {
    var m, t := Mass(x), Stability(x.std);
    assert [x][1..] == [];
    assert SumWN([x]) == m && SumWNS([x]) == t * m;
    MassSigns(x);
    DivUnique(t * m, m, t);
    hide Mass, PooledInterval, Kish;
  }

  // ---- The interval ----------------------------------------------------------------------

  /** The interval's ends are the two rates that a score test of the pooled rate at the effective sample size just tolerates. */
  lemma IntervalIsTheScoreTest(sqrt: real -> real, xs: seq<Contribution>, x: real)
    requires IsSqrt(sqrt) && ValidContributions(xs) && Runs(xs) > 0
    ensures var d := DomainScoreOf(sqrt, xs);
      && d.nEff > 0.0
      && (OnBoundary(d.pooled, 3.8416 / d.nEff, x) <==> x == d.low || x == d.high)
      && (Inside(d.pooled, 3.8416 / d.nEff, x) <==> d.low < x < d.high)
  {
    EffectiveSizeIsAtMostRuns(sqrt, xs);
    PooledRateIsEnclosed(sqrt, xs);
    IntervalOf(sqrt, xs);
    hide *;
    var d := DomainScoreOf(sqrt, xs);
    RootsOfRate(sqrt, d.pooled, d.nEff, x);
  }

  lemma IntervalOf(sqrt: real -> real, xs: seq<Contribution>)
    requires ValidContributions(xs) && Runs(xs) > 0
    ensures var d := DomainScoreOf(sqrt, xs); PooledInterval(sqrt, d.pooled, d.nEff) == Interval(d.low, d.high)
  {
    SumSigns(xs);
    hide PooledInterval, Kish;
  }

  lemma RootsOfRate(sqrt: real -> real, p: real, n: real, x: real)
    requires IsSqrt(sqrt) && n > 0.0 && 0.0 <= p <= 1.0
    ensures var w := PooledInterval(sqrt, p, n);
      && (OnBoundary(p, 3.8416 / n, x) <==> x == w.low || x == w.high)
      && (Inside(p, 3.8416 / n, x) <==> w.low < x < w.high)
  {
    NonNegative(p, n);
    NonNegative(1.0 - p, n);
    var c := p * n;
    assert (1.0 - p) * n == n - c;
    DivUnique(c, n, p);
    BoundsAreTheRoots(sqrt, c, n, Z95, x);
    assert Z95 * Z95 / n == 3.8416 / n;
    hide WilsonInterval, OnBoundary, Inside;
  }

  // ---- Display and stability -------------------------------------------------------------

  /** Shown from five tasks and twenty-five runs on. */
  lemma DisplayRule(sqrt: real -> real, xs: seq<Contribution>)
    requires ValidContributions(xs)
    ensures var d := DomainScoreOf(sqrt, xs);
      d.tasks == |xs| && d.runs == Runs(xs) && (d.displayable <==> |xs| >= 5 && d.runs >= 25)
  {
    hide PooledInterval, Kish;
  }

  /** The documented example: 6 of 10 weighted passes. */
  lemma WorkedAnchor(sqrt: real -> real)
    ensures var xs := [Contribution(1.0, 5, 3, 0.0), Contribution(0.5, 5, 5, 0.0), Contribution(0.25, 10, 2, 0.0)];
      && ValidContributions(xs)
      && DomainScoreOf(sqrt, xs).pooled == 0.6 && DomainScoreOf(sqrt, xs).nEff == 100.0 / 6.875
  {
    var x, y, z := Contribution(1.0, 5, 3, 0.0), Contribution(0.5, 5, 5, 0.0), Contribution(0.25, 10, 2, 0.0);
    var xs := [x, y, z];
    assert xs[1..] == [y, z] && [y, z][1..] == [z] && [z][1..] == [];
    assert Mass(x) == 5.0 && Mass(y) == 2.5 && Mass(z) == 2.5;
    assert PassMass(x) == 3.0 && PassMass(y) == 2.5 && PassMass(z) == 0.5;
    assert SquareMass(x) == 5.0 && SquareMass(y) == 1.25 && SquareMass(z) == 0.625;
    hide Mass, PassMass, SquareMass;
    assert SumWN([z]) == 2.5 && SumWC([z]) == 0.5 && SumWWN([z]) == 0.625;
    assert SumWN([y, z]) == 5.0 && SumWC([y, z]) == 3.0 && SumWWN([y, z]) == 1.875;
    assert SumWN(xs) == 10.0 && SumWC(xs) == 6.0 && SumWWN(xs) == 6.875;
    hide PooledInterval;
  }
}
