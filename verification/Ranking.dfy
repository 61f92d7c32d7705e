/** kernel/afa_kernel/ranking.py: ranking by Wilson lower bound, with rank ranges where the evidence does not separate agents. */
module Ranking {
  import opened Wrappers
  import opened Counting
  import opened Wilson

  const MIN_RANKED_N: nat := 5

  datatype RankInput = RankInput(agent: int, c: nat, n: nat)

  datatype Stats = Stats(agent: int, p: real, low: real, high: real, n: nat)

  datatype BoardEntry = BoardEntry(stats: Stats, provisional: bool, rankLow: Option<nat>, rankHigh: Option<nat>)

  predicate ValidInput(row: RankInput) {
    row.c <= row.n
  }

  function StatsOf(sqrt: real -> real, row: RankInput): Stats {
    var w := WilsonInterval(sqrt, row.c as real, row.n as real, Z95);
    Stats(row.agent, if row.n > 0 then row.c as real / row.n as real else 0.0, w.low, w.high, row.n)
  }

  /** Statistics whose interval encloses the pass rate. */
  predicate Enclosed(stats: seq<Stats>) {
    forall i :: 0 <= i < |stats| ==> stats[i].low <= stats[i].p
  }

  lemma StatsAreEnclosed(sqrt: real -> real, row: RankInput)
    requires IsSqrt(sqrt) && ValidInput(row)
    ensures StatsOf(sqrt, row).low <= StatsOf(sqrt, row).p
  {
    if row.n > 0 { BoundsAreUnclamped(sqrt, row.c as real, row.n as real, Z95); }
  }

  // ---- Out-ranking -----------------------------------------------------------------------

  /** Agent a's conservative rate beats agent b's observed one. */
  predicate OutRanks(stats: seq<Stats>, a: nat, b: nat)
    requires a < |stats| && b < |stats|
  {
    a != b && stats[a].low > stats[b].p
  }

  function Better(stats: seq<Stats>, x: nat): set<nat>
    requires x < |stats|
  {
    set a | 0 <= a < |stats| && OutRanks(stats, a, x)
  }

  function Worse(stats: seq<Stats>, x: nat): set<nat>
    requires x < |stats|
  {
    set b | 0 <= b < |stats| && OutRanks(stats, x, b)
  }

  function RankLow(stats: seq<Stats>, x: nat): int
    requires x < |stats|
  {
    1 + |Better(stats, x)|
  }

  function RankHigh(stats: seq<Stats>, x: nat): int
    requires x < |stats|
  {
    |stats| - |Worse(stats, x)|
  }

  /** A strict partial order. */
  lemma OutRanksIsStrictOrder(stats: seq<Stats>, a: nat, b: nat, c: nat)
    requires Enclosed(stats) && a < |stats| && b < |stats| && c < |stats|
    ensures !OutRanks(stats, a, a)
    ensures OutRanks(stats, a, b) ==> !OutRanks(stats, b, a)
    ensures OutRanks(stats, a, b) && OutRanks(stats, b, c) ==> OutRanks(stats, a, c)
  {
  }

  // ---- Linear orders ---------------------------------------------------------------------

  /** Some agents in a row, nobody placed before one that out-ranks it. */
  predicate Consistent(stats: seq<Stats>, s: seq<nat>) {
    && (forall i :: 0 <= i < |s| ==> s[i] < |stats|)
    && (forall i, j :: 0 <= i < j < |s| ==> !OutRanks(stats, s[j], s[i]))
  }

  /** All agents in a row. */
  predicate LinearOrder(stats: seq<Stats>, order: seq<nat>) {
    |order| == |stats| && Distinct(order) && forall i :: 0 <= i < |order| ==> order[i] < |stats|
  }

  function Upto(n: nat): (s: set<nat>)
    ensures forall i: nat :: i in s <==> i < n
    ensures |s| == n
  {
    if n == 0 then {} else Upto(n - 1) + {n - 1}
  }

  // ---- Ranges are sound ------------------------------------------------------------------

  /** In every linear order that respects out-ranking, agent order[i] has its rank i + 1 inside its range. */
  lemma RangesAreSound(stats: seq<Stats>, order: seq<nat>, i: nat)
    requires Enclosed(stats) && LinearOrder(stats, order) && Consistent(stats, order) && i < |order|
    ensures 1 <= RankLow(stats, order[i]) <= i + 1 <= RankHigh(stats, order[i]) <= |stats|
  {
    BetterComesBefore(stats, order, i);
    DistinctSize(order[..i]);
    DistinctSize(order[i + 1..]);
    MembersAre(stats, order);
    hide Better, Worse, Consistent, Enclosed, Elements;
    SubsetSize(Better(stats, order[i]), Elements(order[..i]));
    SubsetSize(Worse(stats, order[i]), Elements(order[i + 1..]));
  }

  lemma BetterComesBefore(stats: seq<Stats>, order: seq<nat>, i: nat)
    requires LinearOrder(stats, order) && Consistent(stats, order) && i < |order|
    ensures Better(stats, order[i]) <= Elements(order[..i]) && Worse(stats, order[i]) <= Elements(order[i + 1..])
  {
    var x := order[i];
    MembersAre(stats, order);
    hide Elements;
    forall a: nat | a in Better(stats, x) ensures a in Elements(order[..i]) {
      assert a in order;
      var j := Position(order, a);
      assert OutRanks(stats, order[j], order[i]);
      assert j < i && order[..i][j] == a;
    }
    forall b: nat | b in Worse(stats, x) ensures b in Elements(order[i + 1..]) {
      assert b in order;
      var j := Position(order, b);
      assert OutRanks(stats, order[i], order[j]);
      assert j > i && order[i + 1..][j - i - 1] == b;
    }
  }

  // ---- Ranges are tight ------------------------------------------------------------------

  lemma {:induction false} FilterKeepsOrder(stats: seq<Stats>, s: seq<nat>, keep: set<nat>)
    requires Consistent(stats, s) && Distinct(s)
    ensures Consistent(stats, Filter(s, keep)) && Distinct(Filter(s, keep))
  {
    if s != [] {
      var rest := s[1..];
      FilterKeepsOrder(stats, rest, keep);
      forall y | y in rest ensures y != s[0] && !OutRanks(stats, y, s[0]) {
        var q :| 0 <= q < |rest| && rest[q] == y;
        assert s[q + 1] == y;
      }
      if s[0] in keep { ConsistentJoin(stats, [s[0]], Filter(rest, keep)); }
    }
  }

  lemma ConsistentJoin(stats: seq<Stats>, s: seq<nat>, t: seq<nat>)
    requires Consistent(stats, s) && Consistent(stats, t) && Distinct(s) && Distinct(t)
    requires forall x, y :: x in s && y in t ==> x != y && !OutRanks(stats, y, x)
    ensures Consistent(stats, s + t) && Distinct(s + t)
  {
    var u := s + t;
    forall i, j | 0 <= i < j < |u| ensures u[i] != u[j] && !OutRanks(stats, u[j], u[i]) {
      if i < |s| <= j { assert s[i] in s && t[j - |s|] in t; }
    }
  }

  /** The members of an up-closed set first, then the rest, each part as in `order`. */
  function Rearranged(order: seq<nat>, x: nat, first: set<nat>): seq<nat> {
    Filter(order, first) + ([x] + Filter(order, Elements(order) - first - {x}))
  }

  predicate UpClosed(stats: seq<Stats>, first: set<nat>) {
    forall a: nat, b: nat :: a < |stats| && b < |stats| && b in first && OutRanks(stats, a, b) ==> a in first
  }

  lemma RearrangedIsConsistent(stats: seq<Stats>, order: seq<nat>, x: nat, first: set<nat>)
    requires Enclosed(stats) && LinearOrder(stats, order) && Consistent(stats, order) && x < |stats|
    requires first <= Upto(|stats|) && x !in first && Better(stats, x) <= first && UpClosed(stats, first)
    ensures Consistent(stats, Rearranged(order, x, first)) && Distinct(Rearranged(order, x, first))
  {
    var last := Elements(order) - first - {x};
    var f, l := Filter(order, first), Filter(order, last);
    FilterKeepsOrder(stats, order, first);
    FilterKeepsOrder(stats, order, last);
    forall y | y in l ensures y < |stats| && y != x && y !in first && !OutRanks(stats, y, x) {
      assert y in order;
      assert y !in Better(stats, x);
    }
    ConsistentJoin(stats, [x], l);
    forall b, y | b in f && y in [x] + l ensures b != y && !OutRanks(stats, y, b) {
      assert b in first && y !in first;
    }
    ConsistentJoin(stats, f, [x] + l);
  }

  lemma RearrangedSize(stats: seq<Stats>, order: seq<nat>, x: nat, first: set<nat>)
    requires LinearOrder(stats, order) && Consistent(stats, order) && x < |stats|
    requires first <= Upto(|stats|) && x !in first
    ensures var r := Rearranged(order, x, first); |r| == |stats| && |first| < |r| && r[|first|] == x
  {
    var last := Elements(order) - first - {x};
    MembersAre(stats, order);
    FilterSize(order, first);
    FilterSize(order, last);
    PartitionSize(Upto(|stats|), first, x);
    hide Filter, Elements, LinearOrder, Consistent;
  }

  lemma PartitionSize<T>(all: set<T>, first: set<T>, x: T)
    requires first <= all && x in all && x !in first
    ensures |all| == |first| + 1 + |all - first - {x}|
  {
    assert |all - first| == |all| - |first|;
    assert |(all - first) - {x}| == |all - first| - 1;
  }

  lemma RearrangedIsLinear(stats: seq<Stats>, order: seq<nat>, x: nat, first: set<nat>)
    requires Enclosed(stats) && LinearOrder(stats, order) && Consistent(stats, order) && x < |stats|
    requires first <= Upto(|stats|) && x !in first && Better(stats, x) <= first && UpClosed(stats, first)
    ensures var r := Rearranged(order, x, first);
      LinearOrder(stats, r) && Consistent(stats, r) && |first| < |r| && r[|first|] == x
  {
    RearrangedIsConsistent(stats, order, x, first);
    RearrangedSize(stats, order, x, first);
    hide Rearranged;
  }

  lemma MembersAre(stats: seq<Stats>, order: seq<nat>)
    requires LinearOrder(stats, order)
    ensures Elements(order) == Upto(|stats|) && forall y: nat :: y in order <==> y < |stats|
  {
    DistinctSize(order);
    SubsetSize(Elements(order), Upto(|stats|));
  }

  /** Both ends of the range are some consistent linear order's rank for x. */
  lemma RangesAreTight(stats: seq<Stats>, order: seq<nat>, x: nat) returns (best: seq<nat>, worst: seq<nat>)
    requires Enclosed(stats) && LinearOrder(stats, order) && Consistent(stats, order) && x < |stats|
    ensures LinearOrder(stats, best) && Consistent(stats, best) && RankLow(stats, x) <= |best| && best[RankLow(stats, x) - 1] == x
    ensures LinearOrder(stats, worst) && Consistent(stats, worst) && 1 <= RankHigh(stats, x) <= |worst| && worst[RankHigh(stats, x) - 1] == x
  {
    BetterIsUpClosed(stats, x);
    AllButWorseIsUpClosed(stats, x);
    AllButWorseSize(stats, x);
    best, worst := Rearranged(order, x, Better(stats, x)), Rearranged(order, x, AllButWorse(stats, x));
    hide UpClosed, LinearOrder, Consistent, Rearranged, Enclosed;
    RearrangedIsLinear(stats, order, x, Better(stats, x));
    RearrangedIsLinear(stats, order, x, AllButWorse(stats, x));
  }

  function AllButWorse(stats: seq<Stats>, x: nat): set<nat>
    requires x < |stats|
  {
    Upto(|stats|) - Worse(stats, x) - {x}
  }

  lemma BetterIsUpClosed(stats: seq<Stats>, x: nat)
    requires Enclosed(stats) && x < |stats|
    ensures UpClosed(stats, Better(stats, x))
    ensures Better(stats, x) <= Upto(|stats|) && x !in Better(stats, x)
  {
    forall a: nat, b: nat | a < |stats| && b < |stats| && b in Better(stats, x) && OutRanks(stats, a, b)
      ensures a in Better(stats, x)
    {
      OutRanksIsStrictOrder(stats, a, b, x);
    }
    OutRanksIsStrictOrder(stats, x, x, x);
  }

  lemma AllButWorseIsUpClosed(stats: seq<Stats>, x: nat)
    requires Enclosed(stats) && x < |stats|
    ensures UpClosed(stats, AllButWorse(stats, x)) && Better(stats, x) <= AllButWorse(stats, x)
  {
    hide Enclosed, OutRanks;
    var most := AllButWorse(stats, x);
    forall a: nat, b: nat | a < |stats| && b < |stats| && b in most && OutRanks(stats, a, b) ensures a in most {
      OutRanksIsStrictOrder(stats, x, a, b);
    }
    forall a: nat | a in Better(stats, x) ensures a in most { OutRanksIsStrictOrder(stats, a, x, a); }
  }

  lemma AllButWorseSize(stats: seq<Stats>, x: nat)
    requires Enclosed(stats) && x < |stats|
    ensures AllButWorse(stats, x) <= Upto(|stats|) && x !in AllButWorse(stats, x)
    ensures |AllButWorse(stats, x)| == RankHigh(stats, x) - 1
  {
    OutRanksIsStrictOrder(stats, x, x, x);
    hide Enclosed, OutRanks;
    assert Worse(stats, x) <= Upto(|stats|) && x !in Worse(stats, x);
    MinusSize(Upto(|stats|), Worse(stats, x));
    MinusSize(Upto(|stats|) - Worse(stats, x), {x});
  }

  // ---- The returned order ----------------------------------------------------------------

  /** wilson_low descending, then pass rate descending, then agent ascending. */
  predicate Ahead(s: Stats, t: Stats) {
    s.low > t.low || (s.low == t.low && (s.p > t.p || (s.p == t.p && s.agent <= t.agent)))
  }

  predicate InBoardOrder(stats: seq<Stats>, order: seq<nat>)
    requires forall i :: 0 <= i < |order| ==> order[i] < |stats|
  {
    forall i, j :: 0 <= i < j < |order| ==> Ahead(stats[order[i]], stats[order[j]])
  }

  /** The returned order never places an agent before one that out-ranks it. */
  lemma BoardOrderIsConsistent(stats: seq<Stats>, order: seq<nat>)
    requires Enclosed(stats) && LinearOrder(stats, order) && InBoardOrder(stats, order)
    ensures Consistent(stats, order)
  {
  }

  lemma FewerSize(a: set<nat>, b: set<nat>)
    requires a <= b
    ensures |a| <= |b|
  {
    SubsetSize(a, b);
  }

  /** Down the returned order rank_high never decreases. */
  lemma RankHighNeverDecreases(stats: seq<Stats>, order: seq<nat>, i: nat, j: nat)
    requires Enclosed(stats) && LinearOrder(stats, order) && InBoardOrder(stats, order) && i <= j < |order|
    ensures RankHigh(stats, order[i]) <= RankHigh(stats, order[j])
  {
    if i < j {
      var x, y := order[i], order[j];
      assert Ahead(stats[x], stats[y]);
      forall b: nat | b in Worse(stats, y) ensures b in Worse(stats, x) {}
      FewerSize(Worse(stats, y), Worse(stats, x));
    }
  }

  /** rank_low compares two agents by their pass rates, up to lower bounds falling between them: exactly when no lower bound
      lies above the one's pass rate without exceeding the other's is the one ranked no lower. */
  lemma RankLowCompares(stats: seq<Stats>, x: nat, y: nat)
    requires Enclosed(stats) && x < |stats| && y < |stats|
    ensures RankLow(stats, x) <= RankLow(stats, y) <==>
              !exists a :: 0 <= a < |stats| && stats[x].p < stats[a].low <= stats[y].p
  {
    forall a: nat | a in Better(stats, x) ensures a != x && stats[x].p < stats[a].low {}
    if a :| 0 <= a < |stats| && stats[x].p < stats[a].low <= stats[y].p {
      assert a in Better(stats, x) && a !in Better(stats, y);
      forall b: nat | b in Better(stats, y) ensures b in Better(stats, x) {}
      SubsetSize(Better(stats, y), Better(stats, x));
    } else {
      forall a: nat | a in Better(stats, x) ensures a in Better(stats, y) {
        assert stats[a].low > stats[y].p;
      }
      FewerSize(Better(stats, x), Better(stats, y));
    }
  }

  predicate FromInputs(sqrt: real -> real, rows: seq<RankInput>, stats: seq<Stats>) {
    |stats| == |rows| && forall i :: 0 <= i < |rows| ==> ValidInput(rows[i]) && rows[i].n > 0 && stats[i] == StatsOf(sqrt, rows[i])
  }

  /** With one sample size the lower bounds are ordered as the pass rates are, so rank_low never decreases either. */
  lemma RankLowNeverDecreasesForOneSampleSize(sqrt: real -> real, rows: seq<RankInput>, stats: seq<Stats>, order: seq<nat>, i: nat, j: nat)
    requires IsSqrt(sqrt) && FromInputs(sqrt, rows, stats) && LinearOrder(stats, order) && InBoardOrder(stats, order) && i <= j < |order|
    requires forall k :: 0 <= k < |rows| ==> rows[k].n == rows[0].n
    ensures RankLow(stats, order[i]) <= RankLow(stats, order[j])
  {
    AllEnclosed(sqrt, rows, stats);
    if i < j {
      var x, y := order[i], order[j];
      assert Ahead(stats[x], stats[y]);
      if rows[x].c < rows[y].c {
        LowerBoundIncreases(sqrt, rows[x].c as real, rows[y].c as real, rows[x].n as real, Z95);
      } else {
        SameSizeRate(rows[x], rows[y]);
      }
      RankLowCompares(stats, x, y);
    }
  }

  lemma SameSizeRate(x: RankInput, y: RankInput)
    requires x.n == y.n > 0 && x.c >= y.c
    ensures x.c as real / x.n as real >= y.c as real / y.n as real
  {
    if x.c > y.c { DivLess(y.c as real, x.c as real, x.n as real); }
  }

  lemma AllEnclosed(sqrt: real -> real, rows: seq<RankInput>, stats: seq<Stats>)
    requires IsSqrt(sqrt) && FromInputs(sqrt, rows, stats)
    ensures Enclosed(stats)
  {
    forall i | 0 <= i < |rows| ensures stats[i].low <= stats[i].p { StatsAreEnclosed(sqrt, rows[i]); }
  }

  /** With different sample sizes it can decrease: a perfect record on five runs is listed after a solid one on a thousand, and
      yet nobody out-ranks it, while a perfect record on a thousand out-ranks the solid one. */
  lemma RankLowCanDecrease(sqrt: real -> real) returns (rows: seq<RankInput>, stats: seq<Stats>, order: seq<nat>)
    requires IsSqrt(sqrt)
    ensures FromInputs(sqrt, rows, stats) && LinearOrder(stats, order) && InBoardOrder(stats, order)
    ensures forall k :: 0 <= k < |rows| ==> rows[k].n >= MIN_RANKED_N
    ensures exists i, j :: 0 <= i < j < |order| && RankLow(stats, order[i]) > RankLow(stats, order[j])
  {
    rows := [RankInput(1, 1000, 1000), RankInput(2, 900, 1000), RankInput(3, 5, 5)];
    stats := [StatsOf(sqrt, rows[0]), StatsOf(sqrt, rows[1]), StatsOf(sqrt, rows[2])];
    order := [0, 1, 2];
    AllEnclosed(sqrt, rows, stats);
    ThreeRates(sqrt);
    hide WilsonInterval, IsSqrt;
    RankLowCompares(stats, 1, 2);
    assert stats[1].p < stats[0].low <= stats[2].p;
    assert InBoardOrder(stats, order);
    assert RankLow(stats, order[1]) > RankLow(stats, order[2]);
  }

  lemma ThreeRates(sqrt: real -> real)
    requires IsSqrt(sqrt)
    ensures var a, x, y := StatsOf(sqrt, RankInput(1, 1000, 1000)), StatsOf(sqrt, RankInput(2, 900, 1000)), StatsOf(sqrt, RankInput(3, 5, 5));
      a.p == 1.0 && x.p == 0.9 && y.p == 1.0 && a.low > 0.9 && a.low > x.low > 0.6 && y.low <= 0.6
  {
    LowerBoundIncreases(sqrt, 900.0, 1000.0, 1000.0, Z95);
    BelowTheLowerBound(sqrt, 1000.0, 1000.0, Z95, 0.9);
    BelowTheLowerBound(sqrt, 900.0, 1000.0, Z95, 0.6);
    BelowTheLowerBound(sqrt, 5.0, 5.0, Z95, 0.6);
    hide WilsonInterval, IsSqrt;
  }

  // ---- rank_by_lcb -----------------------------------------------------------------------

  function EntryOf(stats: seq<Stats>, x: nat): BoardEntry
    requires x < |stats|
  {
    BoardEntry(stats[x], false, Some(RankLow(stats, x) as nat), Some(RankHighNat(stats, x)))
  }

  function RankHighNat(stats: seq<Stats>, x: nat): (r: nat)
    requires x < |stats|
    ensures r == RankHigh(stats, x)
  {
    assert Worse(stats, x) <= Upto(|stats|);
    SubsetSize(Worse(stats, x), Upto(|stats|));
    RankHigh(stats, x)
  }

  /** Provisional agents: pass rate descending, then agent ascending. */
  predicate ProvisionalAhead(s: Stats, t: Stats) {
    s.p > t.p || (s.p == t.p && s.agent <= t.agent)
  }

  predicate SortedBy(stats: seq<Stats>, order: seq<nat>, provisional: bool) {
    && (forall i :: 0 <= i < |order| ==> order[i] < |stats|)
    && forall i, j :: 0 <= i < j < |order| ==> Before(provisional, stats[order[i]], stats[order[j]])
  }

  /** list.sort with the board's key: the positions of stats, each once, in key order. */
  method SortStats(stats: seq<Stats>, provisional: bool) returns (order: seq<nat>)
    ensures LinearOrder(stats, order) && SortedBy(stats, order, provisional)
  {
    order := [];
    for k := 0 to |stats|
      invariant |order| == k && Distinct(order) && SortedBy(stats, order, provisional)
      invariant forall i :: 0 <= i < |order| ==> order[i] < k
    {
      var p := 0;
      while p < |order| && Before(provisional, stats[order[p]], stats[k])
        invariant 0 <= p <= |order|
        invariant forall i :: 0 <= i < p ==> Before(provisional, stats[order[i]], stats[k])
      {
        p := p + 1;
      }
      var longer := order[..p] + [k] + order[p..];
      InsertKeepsOrder(stats, order, k, p, provisional);
      order := longer;
    }
  }

  predicate Before(provisional: bool, s: Stats, t: Stats) {
    if provisional then ProvisionalAhead(s, t) else Ahead(s, t)
  }

  lemma BeforeIsTotal(provisional: bool, s: Stats, t: Stats, u: Stats)
    ensures Before(provisional, s, t) || Before(provisional, t, s)
    ensures Before(provisional, s, t) && Before(provisional, t, u) ==> Before(provisional, s, u)
  {
  }

  lemma InsertKeepsOrder(stats: seq<Stats>, order: seq<nat>, k: nat, p: nat, provisional: bool)
    requires k < |stats| && p <= |order| && Distinct(order) && SortedBy(stats, order, provisional)
    requires forall i :: 0 <= i < |order| ==> order[i] < k
    requires forall i :: 0 <= i < p ==> Before(provisional, stats[order[i]], stats[k])
    requires p < |order| ==> !Before(provisional, stats[order[p]], stats[k])
    ensures var longer := order[..p] + [k] + order[p..];
      Distinct(longer) && SortedBy(stats, longer, provisional) && forall i :: 0 <= i < |longer| ==> longer[i] < k + 1
  {
    var longer := order[..p] + [k] + order[p..];
    assert forall i :: 0 <= i < |longer| ==> longer[i] == if i < p then order[i] else if i == p then k else order[i - 1];
    forall j | p <= j < |order| ensures Before(provisional, stats[k], stats[order[j]]) {
      BeforeIsTotal(provisional, stats[k], stats[order[p]], stats[order[j]]);
      assert p < j ==> Before(provisional, stats[order[p]], stats[order[j]]);
    }
    hide Before;
  }

  /** The split by sample size, keeping the input order. */
  function Split(sqrt: real -> real, rows: seq<RankInput>, provisional: bool): seq<Stats> {
    if rows == [] then []
    else
      var rest, row := Split(sqrt, rows[..|rows| - 1], provisional), rows[|rows| - 1];
      if (row.n < MIN_RANKED_N) == provisional then rest + [StatsOf(sqrt, row)] else rest
  }

  /** The board: first the ranked agents in key order, each with its range, then the provisional ones without. */
  method RankByLcb(sqrt: real -> real, rows: seq<RankInput>) returns (board: seq<BoardEntry>, order: seq<nat>, tail: seq<nat>)
    ensures Assembled(sqrt, rows, board, order, tail)
    ensures IsSqrt(sqrt) && (forall i :: 0 <= i < |rows| ==> ValidInput(rows[i])) ==> exists at :: Published(rows, board, at, |order|)
  {
    hide EntryOf, Before, StatsOf, Published, IsSqrt;
    var ranked, provisional := SplitRows(sqrt, rows);
    order := SortStats(ranked, false);
    board := RankedEntries(ranked, order);
    tail := SortStats(provisional, true);
    for i := 0 to |tail|
      invariant |board| == |ranked| + i && forall k :: 0 <= k < |ranked| ==> board[k] == EntryOf(ranked, order[k])
      invariant forall k :: 0 <= k < i ==> board[|ranked| + k] == BoardEntry(provisional[tail[k]], true, None, None)
    {
      board := board + [BoardEntry(provisional[tail[i]], true, None, None)];
    }
    if IsSqrt(sqrt) && forall i :: 0 <= i < |rows| ==> ValidInput(rows[i]) {
      ghost var at := BoardIsPublished(sqrt, rows, board, order, tail);
    }
  }

  method SplitRows(sqrt: real -> real, rows: seq<RankInput>) returns (ranked: seq<Stats>, provisional: seq<Stats>)
    ensures ranked == Split(sqrt, rows, false) && provisional == Split(sqrt, rows, true)
  {
    hide StatsOf;
    ranked, provisional := [], [];
    for i := 0 to |rows|
      invariant ranked == Split(sqrt, rows[..i], false) && provisional == Split(sqrt, rows[..i], true)
    {
      assert rows[..i + 1][..i] == rows[..i];
      var stats := StatsOf(sqrt, rows[i]);
      if rows[i].n < MIN_RANKED_N { provisional := provisional + [stats]; } else { ranked := ranked + [stats]; }
    }
    assert rows[..|rows|] == rows;
  }

  method RankedEntries(ranked: seq<Stats>, order: seq<nat>) returns (entries: seq<BoardEntry>)
    requires LinearOrder(ranked, order)
    ensures |entries| == |order| && forall k :: 0 <= k < |order| ==> entries[k] == EntryOf(ranked, order[k])
  {
    hide EntryOf;
    entries := [];
    for i := 0 to |order|
      invariant |entries| == i && forall k :: 0 <= k < i ==> entries[k] == EntryOf(ranked, order[k])
    {
      var x := order[i];
      var better := |set a | 0 <= a < |ranked| && a != x && ranked[a].low > ranked[x].p|;
      var worse := |set b | 0 <= b < |ranked| && b != x && ranked[x].low > ranked[b].p|;
      RangesCounted(ranked, x, better, worse);
      entries := entries + [BoardEntry(ranked[x], false, Some(1 + better), Some(|ranked| - worse))];
    }
  }

  lemma RangesCounted(stats: seq<Stats>, x: nat, better: nat, worse: nat)
    requires x < |stats|
    requires better == |set a | 0 <= a < |stats| && a != x && stats[a].low > stats[x].p|
    requires worse == |set b | 0 <= b < |stats| && b != x && stats[x].low > stats[b].p|
    ensures worse <= |stats| && BoardEntry(stats[x], false, Some(1 + better), Some(|stats| - worse)) == EntryOf(stats, x)
  {
    assert (set a | 0 <= a < |stats| && a != x && stats[a].low > stats[x].p) == Better(stats, x);
    assert (set b | 0 <= b < |stats| && b != x && stats[x].low > stats[b].p) == Worse(stats, x);
    var high := RankHighNat(stats, x);
  }

  function RankedRows(rows: seq<RankInput>): (ranked: seq<RankInput>)
    ensures forall r :: r in ranked <==> r in rows && r.n >= MIN_RANKED_N
  {
    if rows == [] then []
    else
      var rest, row := RankedRows(rows[..|rows| - 1]), rows[|rows| - 1];
      assert rows == rows[..|rows| - 1] + [row];
      if row.n < MIN_RANKED_N then rest else rest + [row]
  }

  lemma {:induction false} RankedStatsAreFromInputs(sqrt: real -> real, rows: seq<RankInput>)
    requires forall i :: 0 <= i < |rows| ==> ValidInput(rows[i])
    ensures FromInputs(sqrt, RankedRows(rows), Split(sqrt, rows, false))
  {
    hide StatsOf, WilsonInterval;
    if rows != [] { RankedStatsAreFromInputs(sqrt, rows[..|rows| - 1]); }
  }

  /** Every ranked row of the board stands at a position inside its own range, and no row precedes one that out-ranks it. */
  lemma BoardRespectsRanges(sqrt: real -> real, rows: seq<RankInput>, order: seq<nat>, i: nat)
    requires IsSqrt(sqrt) && forall k :: 0 <= k < |rows| ==> ValidInput(rows[k])
    requires LinearOrder(Split(sqrt, rows, false), order) && SortedBy(Split(sqrt, rows, false), order, false) && i < |order|
    ensures var ranked := Split(sqrt, rows, false);
      && Consistent(ranked, order)
      && 1 <= RankLow(ranked, order[i]) <= i + 1 <= RankHigh(ranked, order[i]) <= |ranked|
  {
    var ranked := Split(sqrt, rows, false);
    RankedStatsAreFromInputs(sqrt, rows);
    AllEnclosed(sqrt, RankedRows(rows), ranked);
    BoardOrderIsConsistent(ranked, order);
    RangesAreSound(ranked, order, i);
  }

  // ---- What the board publishes ----------------------------------------------------------

  /** The row's agent, size and pass rate, with the two rates a score test of it just tolerates; nothing is known of no runs. */
  ghost predicate Measures(s: Stats, row: RankInput) {
    && s.agent == row.agent && s.n == row.n
    && (row.n == 0 ==> s.p == 0.0 && s.low == 0.0 && s.high == 1.0)
    && (row.n > 0 ==>
         && s.p * row.n as real == row.c as real && 0.0 <= s.low <= s.p <= s.high <= 1.0
         && ScoreEnds(s.p, 3.8416 / row.n as real, s.low, s.high))
  }

  /** The boundary of the score test of p, with z*z/n = a, is reached at low and high only. */
  ghost predicate ScoreEnds(p: real, a: real, low: real, high: real) {
    forall x :: OnBoundary(p, a, x) <==> x == low || x == high
  }

  lemma StatsMeasure(sqrt: real -> real, row: RankInput)
    requires IsSqrt(sqrt) && ValidInput(row)
    ensures Measures(StatsOf(sqrt, row), row)
  {
    if row.n > 0 {
      var c, n := row.c as real, row.n as real;
      BoundsAreUnclamped(sqrt, c, n, Z95);
      DivMul(c, n);
      assert Z95 * Z95 / n == 3.8416 / n;
      var s, a := StatsOf(sqrt, row), 3.8416 / n;
      hide WilsonInterval, OnBoundary;
      forall x ensures OnBoundary(s.p, a, x) <==> x == s.low || x == s.high { BoundsAreTheRoots(sqrt, c, n, Z95, x); }
    }
  }

  /** Ranked rows whose lower bound beats the pass rate of row i, and ranked rows whose pass rate the lower bound of row i beats. */
  ghost function Above(board: seq<BoardEntry>, i: nat): set<nat>
    requires i < |board|
  {
    set j: nat | j < |board| && j != i && !board[j].provisional && board[j].stats.low > board[i].stats.p
  }

  ghost function Below(board: seq<BoardEntry>, i: nat): set<nat>
    requires i < |board|
  {
    set j: nat | j < |board| && j != i && !board[j].provisional && board[i].stats.low > board[j].stats.p
  }

  /** The board shows each input once, agents of five runs and more first: by lower bound, then pass rate, then name, with the
      range that the ranked rows above and below leave them; the others by pass rate, then name, without a range. */
  ghost predicate Published(rows: seq<RankInput>, board: seq<BoardEntry>, at: seq<nat>, ranked: nat) {
    && |board| == |rows| == |at| && ranked <= |board| && Distinct(at) && (forall i :: 0 <= i < |at| ==> at[i] < |rows|)
    && (forall i :: 0 <= i < |at| ==> Measures(board[i].stats, rows[at[i]]) && (board[i].provisional <==> rows[at[i]].n < 5))
    && (forall i :: 0 <= i < |board| ==> (board[i].provisional <==> ranked <= i))
    && (forall i, j :: 0 <= i < j < |board| ==> InOrderOnBoard(board[i], board[j]))
    && (forall i :: 0 <= i < |board| ==> RangeFrom(board, i, ranked))
  }

  ghost predicate InOrderOnBoard(a: BoardEntry, b: BoardEntry) {
    if a.provisional != b.provisional then b.provisional
    else if !a.provisional && a.stats.low != b.stats.low then a.stats.low > b.stats.low
    else a.stats.p > b.stats.p || (a.stats.p == b.stats.p && a.stats.agent <= b.stats.agent)
  }

  ghost predicate RangeFrom(board: seq<BoardEntry>, i: nat, ranked: nat)
    requires i < |board|
  {
    if board[i].provisional then board[i].rankLow.None? && board[i].rankHigh.None?
    else
      && board[i].rankLow == Some(1 + |Above(board, i)|)
      && board[i].rankHigh.Some? && board[i].rankHigh.value + |Below(board, i)| == ranked
  }

  predicate OnSide(rows: seq<RankInput>, x: nat, provisional: bool) {
    x < |rows| && ((rows[x].n < MIN_RANKED_N) == provisional)
  }

  /** The positions of the rows on one side of the split. */
  function Places(rows: seq<RankInput>, provisional: bool): (s: seq<nat>)
  {
    if rows == [] then []
    else
      var rest, last := Places(rows[..|rows| - 1], provisional), |rows| - 1;
      if (rows[last].n < MIN_RANKED_N) == provisional then rest + [last] else rest
  }

  lemma {:induction false} PlacesAre(rows: seq<RankInput>, provisional: bool)
    ensures forall i :: 0 <= i < |Places(rows, provisional)| ==> OnSide(rows, Places(rows, provisional)[i], provisional)
    ensures Distinct(Places(rows, provisional))
  {
    if rows != [] {
      var rest, last := rows[..|rows| - 1], |rows| - 1;
      PlacesAre(rest, provisional);
      var s := Places(rest, provisional);
      forall i | 0 <= i < |s| ensures s[i] < last && OnSide(rows, s[i], provisional) { assert OnSide(rest, s[i], provisional); }
    }
  }

  lemma {:induction false} PlacesCover(rows: seq<RankInput>)
    ensures |Places(rows, false)| + |Places(rows, true)| == |rows|
  {
    if rows != [] { PlacesCover(rows[..|rows| - 1]); }
  }

  lemma {:induction false} SplitPlaces(sqrt: real -> real, rows: seq<RankInput>, provisional: bool)
    ensures var split, places := Split(sqrt, rows, provisional), Places(rows, provisional);
      |split| == |places| && forall i :: 0 <= i < |split| ==> places[i] < |rows| && split[i] == StatsOf(sqrt, rows[places[i]])
  {
    hide StatsOf, Distinct;
    if rows != [] { SplitPlaces(sqrt, rows[..|rows| - 1], provisional); }
  }

  /** The board as rank_by_lcb assembles it from the two sorted halves. */
  ghost predicate Assembled(sqrt: real -> real, rows: seq<RankInput>, board: seq<BoardEntry>, order: seq<nat>, tail: seq<nat>) {
    var ranked, rest := Split(sqrt, rows, false), Split(sqrt, rows, true);
    && LinearOrder(ranked, order) && SortedBy(ranked, order, false) && LinearOrder(rest, tail) && SortedBy(rest, tail, true)
    && |board| == |ranked| + |rest|
    && (forall i :: 0 <= i < |ranked| ==> board[i] == EntryOf(ranked, order[i]))
    && (forall i :: 0 <= i < |rest| ==> board[|ranked| + i] == BoardEntry(rest[tail[i]], true, None, None))
  }

  /** The input row behind each row of the board. */
  function Origin(rows: seq<RankInput>, order: seq<nat>, tail: seq<nat>): (at: seq<nat>)
    requires (forall i :: 0 <= i < |order| ==> order[i] < |Places(rows, false)|) && forall i :: 0 <= i < |tail| ==> tail[i] < |Places(rows, true)|
    ensures |at| == |order| + |tail|
    ensures forall i :: 0 <= i < |order| ==> at[i] == Places(rows, false)[order[i]]
    ensures forall i :: 0 <= i < |tail| ==> at[|order| + i] == Places(rows, true)[tail[i]]
  {
    seq(|order|, i requires 0 <= i < |order| => Places(rows, false)[order[i]])
    + seq(|tail|, i requires 0 <= i < |tail| => Places(rows, true)[tail[i]])
  }

  lemma OriginIsDistinct(rows: seq<RankInput>, order: seq<nat>, tail: seq<nat>)
    requires Distinct(order) && Distinct(tail)
    requires (forall i :: 0 <= i < |order| ==> order[i] < |Places(rows, false)|) && forall i :: 0 <= i < |tail| ==> tail[i] < |Places(rows, true)|
    ensures Distinct(Origin(rows, order, tail))
  {
    var at := Origin(rows, order, tail);
    PlacesAre(rows, false);
    PlacesAre(rows, true);
    hide Places, Origin;
    forall i, j | 0 <= i < j < |at| ensures at[i] != at[j] {
      if i < |order| <= j {
        assert OnSide(rows, at[i], false);
        assert at[j] == at[|order| + (j - |order|)] && OnSide(rows, at[j], true);
      } else if |order| <= i {
        assert at[i] == at[|order| + (i - |order|)] && at[j] == at[|order| + (j - |order|)];
        assert tail[i - |order|] != tail[j - |order|];
      } else {
        assert order[i] != order[j];
      }
    }
  }

  lemma RowBehind(sqrt: real -> real, rows: seq<RankInput>, board: seq<BoardEntry>, order: seq<nat>, tail: seq<nat>, i: nat)
    requires Assembled(sqrt, rows, board, order, tail) && i < |board|
    ensures |Split(sqrt, rows, false)| == |Places(rows, false)| == |order| && |Split(sqrt, rows, true)| == |Places(rows, true)| == |tail|
    ensures i < |order| ==>
      && order[i] < |order| && OnSide(rows, Places(rows, false)[order[i]], false)
      && board[i].stats == StatsOf(sqrt, rows[Places(rows, false)[order[i]]])
    ensures i >= |order| ==>
      && tail[i - |order|] < |tail| && OnSide(rows, Places(rows, true)[tail[i - |order|]], true)
      && board[i].stats == StatsOf(sqrt, rows[Places(rows, true)[tail[i - |order|]]])
    ensures board[i].provisional <==> i >= |order|
  {
    SplitPlaces(sqrt, rows, false);
    SplitPlaces(sqrt, rows, true);
    PlacesAre(rows, false);
    PlacesAre(rows, true);
    hide StatsOf, Places, Split, SortedBy, RankLow, RankHigh;
    if i >= |order| { assert board[i] == board[|order| + (i - |order|)]; }
  }

  lemma BoardIsInOrder(sqrt: real -> real, rows: seq<RankInput>, board: seq<BoardEntry>, order: seq<nat>, tail: seq<nat>, i: nat, j: nat)
    requires Assembled(sqrt, rows, board, order, tail) && i < j < |board|
    ensures InOrderOnBoard(board[i], board[j])
  {
    hide Split, StatsOf, RankLow, RankHigh;
    if j < |order| {
      assert Before(false, Split(sqrt, rows, false)[order[i]], Split(sqrt, rows, false)[order[j]]);
    } else {
      assert board[j] == board[|order| + (j - |order|)];
      if i >= |order| {
        assert board[i] == board[|order| + (i - |order|)];
        assert Before(true, Split(sqrt, rows, true)[tail[i - |order|]], Split(sqrt, rows, true)[tail[j - |order|]]);
      }
    }
  }

  /** Positions of the board's ranked part and positions of the statistics are the same agents. */
  lemma SameAgents(stats: seq<Stats>, order: seq<nat>, here: set<nat>, there: set<nat>)
    requires LinearOrder(stats, order) && (forall j: nat :: j in here <==> j < |order| && order[j] in there)
    requires forall a: nat :: a in there ==> a < |stats|
    ensures |here| == |there|
  {
    MembersAre(stats, order);
    var f := map j | j in here :: order[j];
    forall z: nat | z in there ensures exists j: nat :: j in here && f[j] == z {
      var j := Position(order, z);
      assert j in here && f[j] == z;
    }
    SameSize(here, there, f);
  }

  lemma RangeIsFromBoard(sqrt: real -> real, rows: seq<RankInput>, board: seq<BoardEntry>, order: seq<nat>, tail: seq<nat>, i: nat)
    requires Assembled(sqrt, rows, board, order, tail) && i < |board|
    ensures RangeFrom(board, i, |order|)
  {
    hide Split, StatsOf, SortedBy, Distinct, RangeFrom, EntryOf;
    RowBehind(sqrt, rows, board, order, tail, i);
    if i < |order| {
      forall k | |order| <= k < |board| ensures board[k].provisional { RowBehind(sqrt, rows, board, order, tail, k); }
      RankedRangeIs(Split(sqrt, rows, false), board, order, i);
    } else {
      assert board[i] == board[|order| + (i - |order|)];
      NoRange(board, i, |order|);
    }
  }

  lemma NoRange(board: seq<BoardEntry>, i: nat, ranked: nat)
    requires i < |board| && board[i].provisional && board[i].rankLow.None? && board[i].rankHigh.None?
    ensures RangeFrom(board, i, ranked)
  {
  }

  lemma RankedRangeIs(ranked: seq<Stats>, board: seq<BoardEntry>, order: seq<nat>, i: nat)
    requires LinearOrder(ranked, order) && i < |order| <= |board|
    requires forall k :: 0 <= k < |order| ==> board[k] == EntryOf(ranked, order[k])
    requires forall k :: |order| <= k < |board| ==> board[k].provisional
    ensures RangeFrom(board, i, |order|)
  {
    var x := order[i];
    forall j: nat ensures j in Above(board, i) <==> j < |order| && order[j] in Better(ranked, x) { InPart(ranked, board, order, i, j); }
    forall j: nat ensures j in Below(board, i) <==> j < |order| && order[j] in Worse(ranked, x) { InPart(ranked, board, order, i, j); }
    BelowEveryone(ranked, x);
    hide Above, Below, Better, Worse, Distinct;
    SameAgents(ranked, order, Above(board, i), Better(ranked, x));
    SameAgents(ranked, order, Below(board, i), Worse(ranked, x));
    assert board[i] == EntryOf(ranked, x);
  }

  lemma BelowEveryone(stats: seq<Stats>, x: nat)
    requires x < |stats|
    ensures (forall a: nat :: a in Better(stats, x) ==> a < |stats|) && forall a: nat :: a in Worse(stats, x) ==> a < |stats|
  {
  }

  lemma InPart(ranked: seq<Stats>, board: seq<BoardEntry>, order: seq<nat>, i: nat, j: nat)
    requires LinearOrder(ranked, order) && i < |order| <= |board|
    requires forall k :: 0 <= k < |order| ==> board[k] == EntryOf(ranked, order[k])
    requires forall k :: |order| <= k < |board| ==> board[k].provisional
    ensures j in Above(board, i) <==> j < |order| && order[j] in Better(ranked, order[i])
    ensures j in Below(board, i) <==> j < |order| && order[j] in Worse(ranked, order[i])
  {
  }

  lemma BoardIsPublished(sqrt: real -> real, rows: seq<RankInput>, board: seq<BoardEntry>, order: seq<nat>, tail: seq<nat>) returns (at: seq<nat>)
    requires IsSqrt(sqrt) && (forall i :: 0 <= i < |rows| ==> ValidInput(rows[i])) && Assembled(sqrt, rows, board, order, tail)
    ensures Published(rows, board, at, |order|)
  {
    SplitPlaces(sqrt, rows, false);
    SplitPlaces(sqrt, rows, true);
    PlacesCover(rows);
    at := Origin(rows, order, tail);
    OriginIsDistinct(rows, order, tail);
    hide Places, Split, StatsOf, Measures, RangeFrom, InOrderOnBoard;
    forall i | 0 <= i < |board|
      ensures at[i] < |rows| && Measures(board[i].stats, rows[at[i]]) && (board[i].provisional <==> rows[at[i]].n < 5)
      ensures board[i].provisional <==> |order| <= i
    {
      RowBehind(sqrt, rows, board, order, tail, i);
      if i >= |order| { assert at[i] == at[|order| + (i - |order|)]; }
      StatsMeasure(sqrt, rows[at[i]]);
    }
    forall i, j | 0 <= i < j < |board| ensures InOrderOnBoard(board[i], board[j]) { BoardIsInOrder(sqrt, rows, board, order, tail, i, j); }
    forall i | 0 <= i < |board| ensures RangeFrom(board, i, |order|) { RangeIsFromBoard(sqrt, rows, board, order, tail, i); }
  }
}
