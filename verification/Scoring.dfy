/** kernel/afa_kernel/scoring.py over the reals: the score of one run. */
module Scoring {
  import opened Wrappers
  import opened Wilson

  datatype Gates = Gates(setup: bool, diff: bool, scope: bool, regression: bool, noTimeout: bool)

  datatype HiddenTest = HiddenTest(passed: bool, weight: real)

  datatype Findings = Findings(high: nat, medium: nat, low: nat)

  datatype Quality = Quality(
    lintErrors: Option<int>, typecheckOk: Option<bool>, staticFindings: Option<real>, security: Option<Findings>,
    linesAdded: Option<int>, referenceLines: Option<int>)

  datatype RunInput = RunInput(infraFailure: bool, gates: Gates, hidden: seq<HiddenTest>, quality: Quality)

  datatype RunScore = RunScore(gateProduct: int, tHidden: real, q: real, final: real, functionalPass: bool, voided: bool)

  function Clamp01(x: real): (y: real)
    ensures 0.0 <= y <= 1.0 && (0.0 <= x <= 1.0 ==> y == x)
  {
    if x < 0.0 then 0.0 else if x > 1.0 then 1.0 else x
  }

  predicate AllGates(g: Gates) {
    g.setup && g.diff && g.scope && g.regression && g.noTimeout
  }

  function GateProduct(g: Gates): int {
    if AllGates(g) then 1 else 0
  }

  function TotalWeight(ts: seq<HiddenTest>): real {
    if ts == [] then 0.0 else TotalWeight(ts[..|ts| - 1]) + ts[|ts| - 1].weight
  }

  function PassedWeight(ts: seq<HiddenTest>): real {
    if ts == [] then 0.0 else PassedWeight(ts[..|ts| - 1]) + if ts[|ts| - 1].passed then ts[|ts| - 1].weight else 0.0
  }

  predicate AllPassed(ts: seq<HiddenTest>) {
    forall i :: 0 <= i < |ts| ==> ts[i].passed
  }

  lemma {:induction false} AllPassedWeighsAll(ts: seq<HiddenTest>)
    requires AllPassed(ts)
    ensures PassedWeight(ts) == TotalWeight(ts)
  {
    if ts != [] { AllPassedWeighsAll(ts[..|ts| - 1]); }
  }

  /** compute_t_hidden: the weighted share of hidden tests passed; all of it when every test passed and the suite has weight. */
  method ComputeTHidden(ts: seq<HiddenTest>) returns (t: real)
    ensures 0.0 <= t <= 1.0
    ensures TotalWeight(ts) <= 0.0 ==> t == 0.0
    ensures TotalWeight(ts) > 0.0 ==> t == Clamp01(PassedWeight(ts) / TotalWeight(ts))
    ensures AllPassed(ts) ==> t == if TotalWeight(ts) > 0.0 then 1.0 else 0.0
  {
    if ts == [] { return 0.0; }
    var total, passed := 0.0, 0.0;
    for i := 0 to |ts|
      invariant total == TotalWeight(ts[..i]) && passed == PassedWeight(ts[..i])
    {
      assert ts[..i + 1][..i] == ts[..i];
      total := total + ts[i].weight;
      if ts[i].passed { passed := passed + ts[i].weight; }
    }
    assert ts[..|ts|] == ts;
    if total <= 0.0 { return 0.0; }
    if AllPassed(ts) { AllPassedWeighsAll(ts); }
    t := Clamp01(passed / total);
    assert passed == total ==> passed / total == 1.0;
  }

  // ---- Quality ---------------------------------------------------------------------------

  /** One available component: its weight and its value. */
  datatype Component = Component(weight: real, value: real)

  function Available(weight: real, value: Option<real>): seq<Component> {
    if value.Some? then [Component(weight, value.value)] else []
  }

  function Parsimony(added: int, reference: int): real {
    var rho := added as real / (if reference > 10 then reference else 10) as real;
    if rho <= 2.0 then 1.0 else if rho < 8.0 then (8.0 - rho) / 6.0 else 0.0
  }

  function Weighted(f: Findings): real {
    3.0 * f.high as real + f.medium as real + 0.25 * f.low as real
  }

  function Lint(q: Quality): Option<real> {
    if q.lintErrors.Some? then Some(Clamp01(1.0 - q.lintErrors.value as real / 10.0)) else None
  }

  function Typecheck(q: Quality): Option<real> {
    if q.typecheckOk.Some? then Some(if q.typecheckOk.value then 1.0 else 0.0) else None
  }

  function Static(q: Quality): Option<real> {
    if q.staticFindings.Some? then Some(Clamp01(1.0 - Max(0.0, q.staticFindings.value) / 10.0)) else None
  }

  function Security(q: Quality): Option<real> {
    if q.security.Some? then Some(Clamp01(1.0 - Weighted(q.security.value) / 3.0)) else None
  }

  function Pars(q: Quality): Option<real> {
    if q.linesAdded.Some? && q.referenceLines.Some? then Some(Clamp01(Parsimony(q.linesAdded.value, q.referenceLines.value))) else None
  }

  function Components(q: Quality): seq<Component> {
    Available(0.20, Lint(q)) + Available(0.25, Typecheck(q)) + Available(0.20, Static(q)) + Available(0.20, Security(q))
    + Available(0.15, Pars(q))
  }

  lemma ComponentsAreUnit(q: Quality)
    ensures UnitComponents(Components(q))
  {
    hide Parsimony, Weighted, Available, UnitComponents;
    AvailableIsUnit(0.20, Lint(q));
    AvailableIsUnit(0.25, Typecheck(q));
    AvailableIsUnit(0.20, Static(q));
    AvailableIsUnit(0.20, Security(q));
    AvailableIsUnit(0.15, Pars(q));
    hide Lint, Typecheck, Static, Security, Pars;
    var a, b := Available(0.20, Lint(q)) + Available(0.25, Typecheck(q)), Available(0.20, Static(q));
    JoinIsUnit(Available(0.20, Lint(q)), Available(0.25, Typecheck(q)));
    JoinIsUnit(a, b);
    JoinIsUnit(a + b, Available(0.20, Security(q)));
    JoinIsUnit(a + b + Available(0.20, Security(q)), Available(0.15, Pars(q)));
  }

  lemma JoinIsUnit(a: seq<Component>, b: seq<Component>)
    requires UnitComponents(a) && UnitComponents(b)
    ensures UnitComponents(a + b)
  {
  }

  lemma AvailableIsUnit(weight: real, value: Option<real>)
    requires weight > 0.0 && (value.Some? ==> 0.0 <= value.value <= 1.0)
    ensures UnitComponents(Available(weight, value))
  {
  }

  function WeightSum(cs: seq<Component>): real {
    if cs == [] then 0.0 else WeightSum(cs[..|cs| - 1]) + cs[|cs| - 1].weight
  }

  function ValueSum(cs: seq<Component>): real {
    if cs == [] then 0.0 else ValueSum(cs[..|cs| - 1]) + cs[|cs| - 1].weight * cs[|cs| - 1].value
  }

  predicate UnitComponents(cs: seq<Component>) {
    forall i :: 0 <= i < |cs| ==> cs[i].weight > 0.0 && 0.0 <= cs[i].value <= 1.0
  }

  lemma {:induction false} MeanIsBounded(cs: seq<Component>)
    requires UnitComponents(cs)
    ensures 0.0 <= ValueSum(cs) <= WeightSum(cs) && (cs != [] ==> WeightSum(cs) > 0.0)
  {
    if cs != [] {
      MeanIsBounded(cs[..|cs| - 1]);
      var c := cs[|cs| - 1];
      NonNegative(c.weight, c.value);
      NonNegative(c.weight, 1.0 - c.value);
      assert c.weight * (1.0 - c.value) == c.weight - c.weight * c.value;
    }
  }

  function QualityOf(q: Quality): real {
    var cs := Components(q);
    if WeightSum(cs) <= 0.0 then 1.0 else Clamp01(ValueSum(cs) / WeightSum(cs))
  }

  /** Renormalising never needs the clamp: the quality is the weighted mean of the available components, and 1 without any. */
  lemma QualityIsTheMean(q: Quality)
    ensures UnitComponents(Components(q)) && 0.0 <= QualityOf(q) <= 1.0
    ensures Components(q) == [] <==> WeightSum(Components(q)) <= 0.0
    ensures Components(q) == [] ==> QualityOf(q) == 1.0
    ensures Components(q) != [] ==> QualityOf(q) * WeightSum(Components(q)) == ValueSum(Components(q))
  {
    hide Components, ValueSum;
    var cs := Components(q);
    ComponentsAreUnit(q);
    MeanIsBounded(cs);
    if cs != [] { Ratio(ValueSum(cs), WeightSum(cs)); }
  }

  lemma Ratio(x: real, d: real)
    requires 0.0 <= x <= d && d > 0.0
    ensures 0.0 <= x / d <= 1.0 && x / d * d == x
  {
    var u := x / d;
    DivMul(x, d);
    Unscale(d, 0.0, u);
    Unscale(d, u, 1.0);
  }

  // ---- The score -------------------------------------------------------------------------

  /** G * T * (0.85 + 0.15 Q) */
  function RawScore(g: int, t: real, q: real): real {
    g as real * t * (0.85 + 0.15 * q)
  }

  /** score_run. */
  method ScoreRun(run: RunInput) returns (s: RunScore)
    ensures s.voided == run.infraFailure
    ensures s.voided ==> !s.functionalPass && s.final == 0.0
    ensures 0.0 <= s.tHidden <= 1.0 && 0.0 <= s.q <= 1.0 && (s.gateProduct == 0 || s.gateProduct == 1)
    ensures !s.voided ==> (s.gateProduct == 1 <==> AllGates(run.gates)) && s.q == QualityOf(run.quality)
    ensures !s.voided ==> s.tHidden == if TotalWeight(run.hidden) <= 0.0 then 0.0
                                       else Clamp01(PassedWeight(run.hidden) / TotalWeight(run.hidden))
    ensures !s.voided ==> s.final == RawScore(s.gateProduct, s.tHidden, s.q)
    ensures 0.0 <= s.final <= s.tHidden && (!s.voided && s.gateProduct == 1 ==> 0.85 * s.tHidden <= s.final)
    ensures s.gateProduct == 0 ==> s.final == 0.0
    ensures s.functionalPass <==> !run.infraFailure && AllGates(run.gates) && run.hidden != [] && AllPassed(run.hidden)
                                  && TotalWeight(run.hidden) > 0.0
    ensures s.functionalPass ==> s.tHidden == 1.0 && 0.85 <= s.final <= 1.0
    ensures !s.voided && s.gateProduct == 1 ==> s.final == 0.85 * s.tHidden + s.q * (0.15 * s.tHidden)
  {
    hide QualityOf, RawScore, Components, ValueSum, WeightSum, TotalWeight, PassedWeight;
    if run.infraFailure { return RunScore(0, 0.0, 0.0, 0.0, false, true); }
    var g := GateProduct(run.gates);
    var t := ComputeTHidden(run.hidden);
    var q := QualityOf(run.quality);
    QualityIsTheMean(run.quality);
    GatedScore(g, t, q);
    Interpolates(g, t, q);
    s := RunScore(g, t, q, Clamp01(RawScore(g, t, q)), g == 1 && |run.hidden| > 0 && AllPassed(run.hidden) && t > 0.0, false);
  }

  lemma GatedScore(g: int, t: real, q: real)
    requires 0.0 <= t <= 1.0 && 0.0 <= q <= 1.0 && (g == 0 || g == 1)
    ensures 0.0 <= RawScore(g, t, q) <= t && (g == 1 ==> 0.85 * t <= RawScore(g, t, q)) && (g == 0 ==> RawScore(g, t, q) == 0.0)
  {
    var m := 0.85 + 0.15 * q;
    ScoreBand(t, m);
    NonNegative(t, m);
    if g == 1 { assert g as real * t * m == t * m; } else { assert g as real * t * m == 0.0; }
  }

  /** Quality moves the score from 85 percent of the hidden-test share to all of it. */
  lemma Interpolates(g: int, t: real, q: real)
    requires g == 0 || g == 1
    ensures g == 1 ==> RawScore(g, t, q) == 0.85 * t + q * (0.15 * t)
  {
    if g == 1 { assert g as real * t == t; }
  }

  /** Better quality and a larger share of hidden tests each raise the score of a run that passed its gates. */
  lemma ScoreIncreases(t: real, u: real, q: real, r: real)
    requires 0.0 <= t < u <= 1.0 && 0.0 <= q < r <= 1.0
    ensures RawScore(1, u, q) < RawScore(1, u, r) && RawScore(1, t, q) < RawScore(1, u, q)
  {
    Interpolates(1, u, q);
    Interpolates(1, u, r);
    Interpolates(1, t, q);
    hide RawScore;
    Positive(r - q, 0.15 * u);
    assert (r - q) * (0.15 * u) == r * (0.15 * u) - q * (0.15 * u);
    NonNegative(q, 0.15 * (u - t));
    assert q * (0.15 * (u - t)) == q * (0.15 * u) - q * (0.15 * t);
  }

  // ---- What each quality component measures ----------------------------------------------

  function Capped(n: int, least: int): int {
    if n < least then least else n
  }

  /** Each component from its best to its worst: no and ten lint errors, a failed type check, no and ten static findings, weighted
      security findings up to three, twice and eight times the reference size. */
  lemma ComponentsMeasure(q: Quality)
    ensures Lint(q).Some? <==> q.lintErrors.Some?
    ensures Lint(q).Some? ==> var n := q.lintErrors.value; 10.0 * Lint(q).value == if n <= 0 then 10.0 else if n >= 10 then 0.0 else 10.0 - n as real
    ensures Typecheck(q).Some? <==> q.typecheckOk.Some?
    ensures Typecheck(q).Some? ==> Typecheck(q).value == if q.typecheckOk.value then 1.0 else 0.0
    ensures Static(q).Some? <==> q.staticFindings.Some?
    ensures Static(q).Some? ==> var x := q.staticFindings.value; 10.0 * Static(q).value == if x <= 0.0 then 10.0 else if x >= 10.0 then 0.0 else 10.0 - x
    ensures Security(q).Some? <==> q.security.Some?
    ensures Security(q).Some? ==>
      var f := q.security.value;
      var x := 12 * f.high + 4 * f.medium + f.low;
      12.0 * Security(q).value == if x >= 12 then 0.0 else (12 - x) as real
  {
    hide Pars, Parsimony;
    if q.lintErrors.Some? { LintLine(q.lintErrors.value as real); }
    if q.staticFindings.Some? { LintLine(Max(0.0, q.staticFindings.value)); }
    if q.security.Some? {
      var f := q.security.value;
      SecurityLine(f.high as real, f.medium as real, f.low as real);
    }
  }

  lemma LintLine(x: real)
    ensures 10.0 * Clamp01(1.0 - x / 10.0) == if x <= 0.0 then 10.0 else if x >= 10.0 then 0.0 else 10.0 - x
  {
  }

  lemma SecurityLine(h: real, m: real, l: real)
    requires h >= 0.0 && m >= 0.0 && l >= 0.0
    ensures var x := 12.0 * h + 4.0 * m + l;
      12.0 * Clamp01(1.0 - (3.0 * h + m + 0.25 * l) / 3.0) == if x >= 12.0 then 0.0 else 12.0 - x
  {
  }

  lemma ParsimonyMeasures(q: Quality)
    ensures Pars(q).Some? <==> q.linesAdded.Some? && q.referenceLines.Some?
    ensures Pars(q).Some? ==>
      var added, size := q.linesAdded.value, Capped(q.referenceLines.value, 10);
      6.0 * size as real * Pars(q).value
      == if added <= 2 * size then 6.0 * size as real else if added >= 8 * size then 0.0 else (8 * size - added) as real
  {
    if Pars(q).Some? {
      var size := Capped(q.referenceLines.value, 10);
      ParsimonyLine(q.linesAdded.value as real, size as real);
      hide Clamp01;
    }
  }

  lemma ParsimonyLine(added: real, d: real)
    requires d > 0.0
    ensures var rho := added / d;
      var x := Clamp01(if rho <= 2.0 then 1.0 else if rho < 8.0 then (8.0 - rho) / 6.0 else 0.0);
      6.0 * d * x == if added <= 2.0 * d then 6.0 * d else if added >= 8.0 * d then 0.0 else 8.0 * d - added
  {
    var rho := added / d;
    DivMul(added, d);
    CutAt(rho, d, 2.0);
    CutAt(rho, d, 8.0);
    RhoLine(rho, d, added);
    hide Clamp01;
  }

  lemma CutAt(rho: real, d: real, k: real)
    requires d > 0.0
    ensures rho <= k <==> rho * d <= k * d
    ensures rho >= k <==> rho * d >= k * d
  {
    if rho <= k { NonNegative(k - rho, d); } else { Positive(rho - k, d); }
    assert (k - rho) * d == k * d - rho * d && (rho - k) * d == rho * d - k * d;
    if rho >= k { NonNegative(rho - k, d); } else { Positive(k - rho, d); }
  }

  lemma RhoLine(rho: real, d: real, added: real)
    requires d > 0.0 && rho * d == added
    requires rho <= 2.0 <==> added <= 2.0 * d
    requires rho >= 8.0 <==> added >= 8.0 * d
    ensures var x := Clamp01(if rho <= 2.0 then 1.0 else if rho < 8.0 then (8.0 - rho) / 6.0 else 0.0);
      6.0 * d * x == if added <= 2.0 * d then 6.0 * d else if added >= 8.0 * d then 0.0 else 8.0 * d - added
  {
    if 2.0 < rho < 8.0 {
      var x := (8.0 - rho) / 6.0;
      assert 0.0 <= x <= 1.0 && 6.0 * x == 8.0 - rho;
      assert 6.0 * d * x == d * (6.0 * x) == 8.0 * d - rho * d;
    }
  }

  /** With everything measured the quality is the weighted sum of the five components. */
  lemma FullQuality(q: Quality)
    requires Lint(q).Some? && Typecheck(q).Some? && Static(q).Some? && Security(q).Some? && Pars(q).Some?
    ensures QualityOf(q) == 0.20 * Lint(q).value + 0.25 * Typecheck(q).value + 0.20 * Static(q).value + 0.20 * Security(q).value
                            + 0.15 * Pars(q).value
  {
    QualityIsTheMean(q);
    var a, b, c := Component(0.20, Lint(q).value), Component(0.25, Typecheck(q).value), Component(0.20, Static(q).value);
    var d, e := Component(0.20, Security(q).value), Component(0.15, Pars(q).value);
    assert Components(q) == [a, b, c, d, e];
    hide Components, Lint, Typecheck, Static, Security, Pars, QualityOf;
    FiveSums(a, b, c, d, e);
  }

  lemma FiveSums(a: Component, b: Component, c: Component, d: Component, e: Component)
    ensures WeightSum([a, b, c, d, e]) == a.weight + b.weight + c.weight + d.weight + e.weight
    ensures ValueSum([a, b, c, d, e]) == a.weight * a.value + b.weight * b.value + c.weight * c.value + d.weight * d.value + e.weight * e.value
  {
    SumsNext([], a);
    SumsNext([a], b);
    SumsNext([a, b], c);
    SumsNext([a, b, c], d);
    SumsNext([a, b, c, d], e);
    hide WeightSum, ValueSum;
    assert [] + [a] == [a] && [a] + [b] == [a, b] && [a, b] + [c] == [a, b, c] && [a, b, c] + [d] == [a, b, c, d];
    assert [a, b, c, d] + [e] == [a, b, c, d, e];
  }

  lemma SumsNext(cs: seq<Component>, c: Component)
    ensures WeightSum(cs + [c]) == WeightSum(cs) + c.weight && ValueSum(cs + [c]) == ValueSum(cs) + c.weight * c.value
    ensures cs == [] ==> WeightSum(cs) == 0.0 && ValueSum(cs) == 0.0
  {
    assert (cs + [c])[..|cs|] == cs;
  }

  /** The quality multiplier moves a score only within [0.85, 1] of itself. */
  lemma ScoreBand(t: real, m: real)
    requires 0.0 <= t <= 1.0 && 0.85 <= m <= 1.0
    ensures 0.85 * t <= t * m <= t
  {
    NonNegative(t, m - 0.85);
    NonNegative(t, 1.0 - m);
    assert t * (m - 0.85) == t * m - 0.85 * t && t * (1.0 - m) == t - t * m;
  }
}
