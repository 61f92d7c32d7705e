/** The two places that count an evaluation's outcomes: refresh_counters of afa_api/jobs.py and the evaluation report. */
module Counters {
  import opened Wrappers
  import opened Tables
  import opened TableInvariants
  import opened ControlPlaneStore
  import opened Worker
  import Counting

  /** What a fresh completed position contributes, by its score row; reused positions only count as reused. */
  datatype Kind = Unfinished | Reuse | NoScore | PassOnly | VoidOnly | PassAndVoid | Neither

  function KindOf(db: Db, k: Key): Kind
    requires k in db.trials
  {
    var t := db.trials[k];
    if !t.state.Completed? then Unfinished
    else if !t.evidence.Fresh? then Reuse
    else if t.run.None? || t.run.value !in db.runs || !db.runs[t.run.value].scored then NoScore
    else
      var o := db.runs[t.run.value].outcome;
      if o.pass && o.voided then PassAndVoid else if o.pass then PassOnly else if o.voided then VoidOnly else Neither
  }

  function Count(db: Db, keys: seq<Key>, kind: Kind): nat
    requires forall k :: k in keys ==> k in db.trials
  {
    if keys == [] then 0 else Count(db, keys[..|keys| - 1], kind) + if KindOf(db, keys[|keys| - 1]) == kind then 1 else 0
  }

  datatype Tally = Tally(completed: nat, passed: nat, failed: nat, voided: nat, reused: nat)

  /** Every completed position's evidence is fresh or reused; so it is in every reachable state. */
  predicate FreshOrReused(db: Db, e: EvalId) {
    forall k :: k in db.trials && k.eval == e && db.trials[k].state.Completed? ==>
      db.trials[k].evidence.Fresh? || db.trials[k].evidence.Reused?
  }

  lemma ReachableRowsAreFreshOrReused(db: Db, e: EvalId)
    requires DbInv(db)
    ensures FreshOrReused(db, e)
  {
    forall k | k in db.trials && k.eval == e && db.trials[k].state.Completed?
      ensures db.trials[k].evidence.Fresh? || db.trials[k].evidence.Reused?
    {
      assert ShapeOk(k, db.trials[k]);
    }
  }

  lemma CountNext(db: Db, keys: seq<Key>, k: Key)
    requires k in db.trials && forall j :: j in keys ==> j in db.trials
    ensures forall kind :: Count(db, keys + [k], kind) == Count(db, keys, kind) + if KindOf(db, k) == kind then 1 else 0
  {
    assert (keys + [k])[..|keys|] == keys;
  }

  // ---- The positions behind the counters -------------------------------------------------

  ghost function CompletedKeys(db: Db, e: EvalId): (keys: set<Key>)
    ensures forall k :: k in keys <==> k in db.trials && k.eval == e && db.trials[k].state.Completed?
  {
    set k | k in db.trials && k.eval == e && db.trials[k].state.Completed?
  }

  /** The row executed its run here and the run has a score. */
  ghost predicate HasScore(db: Db, t: Trial) {
    t.evidence.Fresh? && t.run.Some? && t.run.value in db.runs && db.runs[t.run.value].scored
  }

  ghost function PassedKeys(db: Db, e: EvalId): set<Key> {
    set k | k in CompletedKeys(db, e) && HasScore(db, db.trials[k]) && db.runs[db.trials[k].run.value].outcome.pass
  }

  ghost function VoidedKeys(db: Db, e: EvalId): set<Key> {
    set k | k in CompletedKeys(db, e) && HasScore(db, db.trials[k]) && db.runs[db.trials[k].run.value].outcome.voided
  }

  ghost function FailedKeys(db: Db, e: EvalId): set<Key> {
    set k | k in CompletedKeys(db, e) && HasScore(db, db.trials[k])
            && !db.runs[db.trials[k].run.value].outcome.pass && !db.runs[db.trials[k].run.value].outcome.voided
  }

  ghost function ReusedKeys(db: Db, e: EvalId): set<Key> {
    set k | k in CompletedKeys(db, e) && db.trials[k].evidence.Reused?
  }

  ghost function OfKind(db: Db, keys: seq<Key>, kind: Kind): (s: set<Key>)
    requires forall k :: k in keys ==> k in db.trials
    ensures forall k :: k in s <==> k in keys && KindOf(db, k) == kind
  {
    set k | k in keys && KindOf(db, k) == kind
  }

  lemma {:induction false} CountIsSize(db: Db, keys: seq<Key>, kind: Kind)
    requires Counting.Distinct(keys) && forall k :: k in keys ==> k in db.trials
    ensures Count(db, keys, kind) == |OfKind(db, keys, kind)|
  {
    if keys != [] {
      var rest, last := keys[..|keys| - 1], keys[|keys| - 1];
      CountIsSize(db, rest, kind);
      assert keys == rest + [last] && last !in rest;
      hide KindOf;
      Counting.GrownBy(OfKind(db, rest, kind), OfKind(db, keys, kind), last, KindOf(db, last) == kind);
    }
  }

  /** Does k count among the passed, voided, failed or reused positions of e? By the kind of its row. */
  lemma KindOfRow(db: Db, e: EvalId, k: Key)
    requires k in db.trials && k.eval == e && FreshOrReused(db, e)
    ensures k in CompletedKeys(db, e) <==> KindOf(db, k) != Unfinished
    ensures k in PassedKeys(db, e) <==> KindOf(db, k) == PassOnly || KindOf(db, k) == PassAndVoid
    ensures k in VoidedKeys(db, e) <==> KindOf(db, k) == VoidOnly || KindOf(db, k) == PassAndVoid
    ensures k in FailedKeys(db, e) <==> KindOf(db, k) == Neither
    ensures k in ReusedKeys(db, e) <==> KindOf(db, k) == Reuse
  {
  }

  lemma SubsetsOfCompleted(db: Db, e: EvalId)
    ensures PassedKeys(db, e) <= CompletedKeys(db, e) && VoidedKeys(db, e) <= CompletedKeys(db, e)
    ensures FailedKeys(db, e) <= CompletedKeys(db, e) && ReusedKeys(db, e) <= CompletedKeys(db, e)
  {
  }

  lemma SplitSize<T>(s: set<T>, a: set<T>, b: set<T>)
    requires a !! b && s == a + b
    ensures |s| == |a| + |b|
  {
  }

  lemma KindsAreSets(db: Db, e: EvalId, keys: seq<Key>)
    requires RowsInOrder(db, e, keys) && (forall k :: k in keys ==> k in db.trials) && FreshOrReused(db, e)
    ensures |CompletedKeys(db, e)| + Count(db, keys, Unfinished) == |keys|
    ensures |PassedKeys(db, e)| == Count(db, keys, PassOnly) + Count(db, keys, PassAndVoid)
    ensures |VoidedKeys(db, e)| == Count(db, keys, VoidOnly) + Count(db, keys, PassAndVoid)
    ensures |PassedKeys(db, e) - VoidedKeys(db, e)| == Count(db, keys, PassOnly)
    ensures |FailedKeys(db, e)| == Count(db, keys, Neither) && |ReusedKeys(db, e)| == Count(db, keys, Reuse)
  {
    forall k | k in keys ensures k in KeysOf(db, e) {}
    forall k | k in CompletedKeys(db, e) ensures k in keys { assert k in KeysOf(db, e); }
    assert Counting.Distinct(keys);
    hide FreshOrReused, KindOf, PassedKeys, VoidedKeys, FailedKeys, ReusedKeys, Count, RowsInOrder, HasScore;
    SubsetsOfCompleted(db, e);
    forall k | k in keys
      ensures k in CompletedKeys(db, e) <==> KindOf(db, k) != Unfinished
      ensures k in PassedKeys(db, e) <==> KindOf(db, k) == PassOnly || KindOf(db, k) == PassAndVoid
      ensures k in VoidedKeys(db, e) <==> KindOf(db, k) == VoidOnly || KindOf(db, k) == PassAndVoid
      ensures k in FailedKeys(db, e) <==> KindOf(db, k) == Neither
      ensures k in ReusedKeys(db, e) <==> KindOf(db, k) == Reuse
    {
      KindOfRow(db, e, k);
    }
    Counting.DistinctSize(keys);
    SplitSize(Counting.Elements(keys), CompletedKeys(db, e), OfKind(db, keys, Unfinished));
    CountIsSize(db, keys, Unfinished);
    OfOneKind(db, keys, FailedKeys(db, e), Neither);
    OfOneKind(db, keys, ReusedKeys(db, e), Reuse);
    OfOneKind(db, keys, PassedKeys(db, e) - VoidedKeys(db, e), PassOnly);
    OfTwoKinds(db, keys, PassedKeys(db, e), PassOnly, PassAndVoid);
    OfTwoKinds(db, keys, VoidedKeys(db, e), VoidOnly, PassAndVoid);
  }

  lemma OfOneKind(db: Db, keys: seq<Key>, s: set<Key>, kind: Kind)
    requires Counting.Distinct(keys) && forall k :: k in keys ==> k in db.trials
    requires forall k :: k in s <==> k in keys && KindOf(db, k) == kind
    ensures |s| == Count(db, keys, kind)
  {
    hide KindOf, Count, Counting.Distinct;
    CountIsSize(db, keys, kind);
    assert s == OfKind(db, keys, kind);
  }

  lemma OfTwoKinds(db: Db, keys: seq<Key>, s: set<Key>, a: Kind, b: Kind)
    requires Counting.Distinct(keys) && a != b && forall k :: k in keys ==> k in db.trials
    requires forall k :: k in s <==> k in keys && (KindOf(db, k) == a || KindOf(db, k) == b)
    ensures |s| == Count(db, keys, a) + Count(db, keys, b)
  {
    hide KindOf, Count, Counting.Distinct;
    CountIsSize(db, keys, a);
    CountIsSize(db, keys, b);
    SplitSize(s, OfKind(db, keys, a), OfKind(db, keys, b));
  }

  /** An execution adds to each counter exactly the positions it completed whose attempt was graded so. */
  lemma GradesAreCounted(db: Db, d: Db, e: EvalId, backend: Option<Backend>, attempt: Key -> Attempt, calls: seq<Call>, paramsOk: bool)
    requires DbInv(db) && e in db.jobs && EndsAs(db, d, e, paramsOk) && AllAsGraded(db, d, e, backend, attempt, calls)
    ensures var done := CompletedKeys(d, e) - CompletedKeys(db, e);
      && (forall k :: k in done ==> attempt(k).Graded?)
      && PassedKeys(d, e) == PassedKeys(db, e) + (set k | k in done && attempt(k).outcome.pass)
      && VoidedKeys(d, e) == VoidedKeys(db, e) + (set k | k in done && attempt(k).outcome.voided)
      && FailedKeys(d, e) == FailedKeys(db, e) + (set k | k in done && !attempt(k).outcome.pass && !attempt(k).outcome.voided)
  {
    var done := CompletedKeys(d, e) - CompletedKeys(db, e);
    forall k | k in done ensures GradedSo(d, k, attempt(k)) { NewlyGraded(db, d, e, backend, attempt, calls, k); }
    hide DbInv, EndsAs, AllAsGraded, HasScore, PassedKeys, VoidedKeys, FailedKeys, CompletedKeys, GradedSo;
    forall k | k in CompletedKeys(db, e)
      ensures k in CompletedKeys(d, e)
      ensures k in PassedKeys(d, e) <==> k in PassedKeys(db, e)
      ensures k in VoidedKeys(d, e) <==> k in VoidedKeys(db, e)
      ensures k in FailedKeys(d, e) <==> k in FailedKeys(db, e)
    {
      OldScoreStays(db, d, e, paramsOk, k);
      SameMembership(db, d, e, k);
    }
    forall k | k in done
      ensures k in PassedKeys(d, e) <==> attempt(k).outcome.pass
      ensures k in VoidedKeys(d, e) <==> attempt(k).outcome.voided
      ensures k in FailedKeys(d, e) <==> !attempt(k).outcome.pass && !attempt(k).outcome.voided
    {
      NewMembership(d, e, k, attempt(k));
    }
    SubsetsOfCompleted(db, e);
    SubsetsOfCompleted(d, e);
    var before, after := CompletedKeys(db, e), CompletedKeys(d, e);
    GrowsBy(before, after, PassedKeys(db, e), PassedKeys(d, e), set k | k in done && attempt(k).outcome.pass);
    GrowsBy(before, after, VoidedKeys(db, e), VoidedKeys(d, e), set k | k in done && attempt(k).outcome.voided);
    GrowsBy(before, after, FailedKeys(db, e), FailedKeys(d, e), set k | k in done && !attempt(k).outcome.pass && !attempt(k).outcome.voided);
  }

  lemma GrowsBy(before: set<Key>, after: set<Key>, was: set<Key>, now: set<Key>, more: set<Key>)
    requires was <= before <= after && now <= after && more <= after - before
    requires forall k :: k in before ==> (k in now <==> k in was)
    requires forall k :: k in after - before ==> (k in now <==> k in more)
    ensures now == was + more
  {
  }

  lemma SameMembership(db: Db, d: Db, e: EvalId, k: Key)
    requires k in CompletedKeys(db, e) && k in CompletedKeys(d, e) && SameScore(db, d, k)
    ensures k in PassedKeys(d, e) <==> k in PassedKeys(db, e)
    ensures k in VoidedKeys(d, e) <==> k in VoidedKeys(db, e)
    ensures k in FailedKeys(d, e) <==> k in FailedKeys(db, e)
  {
  }

  lemma NewMembership(d: Db, e: EvalId, k: Key, attempt: Attempt)
    requires k in CompletedKeys(d, e) && GradedSo(d, k, attempt)
    ensures attempt.Graded? && (k in PassedKeys(d, e) <==> attempt.outcome.pass)
    ensures k in VoidedKeys(d, e) <==> attempt.outcome.voided
    ensures k in FailedKeys(d, e) <==> !attempt.outcome.pass && !attempt.outcome.voided
  {
  }

  ghost predicate GradedSo(d: Db, k: Key, attempt: Attempt)
    requires k in d.trials
  {
    HasScore(d, d.trials[k]) && attempt.Graded? && d.runs[d.trials[k].run.value].outcome == attempt.outcome
  }

  ghost predicate SameScore(db: Db, d: Db, k: Key)
    requires k in db.trials && k in d.trials
  {
    && (HasScore(d, d.trials[k]) <==> HasScore(db, db.trials[k]))
    && (HasScore(d, d.trials[k]) ==> d.runs[d.trials[k].run.value].outcome == db.runs[db.trials[k].run.value].outcome)
  }

  lemma NewlyGraded(db: Db, d: Db, e: EvalId, backend: Option<Backend>, attempt: Key -> Attempt, calls: seq<Call>, k: Key)
    requires e in db.jobs && AllAsGraded(db, d, e, backend, attempt, calls) && k in db.trials && k in CompletedKeys(d, e) - CompletedKeys(db, e)
    ensures GradedSo(d, k, attempt(k))
  {
    assert HoldsItsRun(db, d, e, k, backend, attempt(k), calls);
  }

  lemma OldScoreStays(db: Db, d: Db, e: EvalId, paramsOk: bool, k: Key)
    requires DbInv(db) && e in db.jobs && EndsAs(db, d, e, paramsOk) && k in CompletedKeys(db, e)
    ensures k in CompletedKeys(d, e) && SameScore(db, d, k)
  {
    if db.trials[k].evidence.Fresh? {
      FreshRowHasRun(db, k);
      var r: RunId := db.trials[k].run.value;
      assert r in db.runs && r in d.runs;
    }
  }

  lemma FreshRowHasRun(db: Db, k: Key)
    requires DbInv(db) && k in db.trials && db.trials[k].state.Completed? && db.trials[k].evidence.Fresh?
    ensures db.trials[k].run.Some? && db.trials[k].run.value in db.runs
  {
    assert IsFresh(db, k);
  }

  ghost predicate RefreshTally(db: Db, keys: seq<Key>, t: Tally)
    requires forall k :: k in keys ==> k in db.trials
  {
    && t.completed + Count(db, keys, Unfinished) == |keys|
    && t.passed == Count(db, keys, PassOnly) + Count(db, keys, PassAndVoid)
    && t.voided == Count(db, keys, VoidOnly) + Count(db, keys, PassAndVoid)
    && t.failed == Count(db, keys, Neither) && t.reused == Count(db, keys, Reuse)
  }

  ghost predicate ReportTally(db: Db, keys: seq<Key>, t: Tally)
    requires forall k :: k in keys ==> k in db.trials
  {
    && t.completed + Count(db, keys, Unfinished) == |keys|
    && t.passed == Count(db, keys, PassOnly) && t.voided == Count(db, keys, VoidOnly) + Count(db, keys, PassAndVoid)
    && t.failed == Count(db, keys, Neither) && t.reused == Count(db, keys, Reuse)
  }

  /** What one row adds to the aggregate query of refresh_counters. */
  function RefreshRow(db: Db, row: Trial, t: Tally): Tally {
    if !row.state.Completed? then t
    else
      var scored := row.run.Some? && row.run.value in db.runs && db.runs[row.run.value].scored;
      var pass := scored && db.runs[row.run.value].outcome.pass;
      var voided := scored && db.runs[row.run.value].outcome.voided;
      Tally(t.completed + 1,
            t.passed + if row.evidence.Fresh? && pass then 1 else 0,
            t.failed + if row.evidence.Fresh? && scored && !pass && !voided then 1 else 0,
            t.voided + if row.evidence.Fresh? && voided then 1 else 0,
            t.reused + if row.evidence.Reused? then 1 else 0)
  }

  lemma RefreshNext(db: Db, keys: seq<Key>, k: Key, t: Tally)
    requires (forall j :: j in keys ==> j in db.trials) && RefreshTally(db, keys, t) && k in db.trials
    requires db.trials[k].state.Completed? ==> db.trials[k].evidence.Fresh? || db.trials[k].evidence.Reused?
    ensures RefreshTally(db, keys + [k], RefreshRow(db, db.trials[k], t))
  {
    CountNext(db, keys, k);
  }

  /** The aggregate query of refresh_counters. */
  method RefreshCounters(db: Db, e: EvalId) returns (t: Tally, keys: seq<Key>)
    requires FreshOrReused(db, e)
    ensures RowsInOrder(db, e, keys) && (forall k :: k in keys ==> k in db.trials) && RefreshTally(db, keys, t)
    ensures t.completed == |CompletedKeys(db, e)| && t.reused == |ReusedKeys(db, e)|
    ensures t.passed == |PassedKeys(db, e)| && t.failed == |FailedKeys(db, e)| && t.voided == |VoidedKeys(db, e)|
  {
    keys := ListRows(db, e);
    assert forall k :: k in keys ==> k in KeysOf(db, e);
    t := Tally(0, 0, 0, 0, 0);
    for i := 0 to |keys|
      invariant (forall k :: k in keys[..i] ==> k in db.trials) && RefreshTally(db, keys[..i], t)
    {
      assert keys[..i + 1] == keys[..i] + [keys[i]];
      assert keys[i] in KeysOf(db, e);
      RefreshNext(db, keys[..i], keys[i], t);
      hide RefreshTally, RefreshRow;
      t := RefreshRow(db, db.trials[keys[i]], t);
    }
    assert keys[..|keys|] == keys;
    KindsAreSets(db, e, keys);
  }

  /** What one row adds to the comprehensions of the report: passed excludes voided scores. */
  function ReportRow(db: Db, row: Trial, t: Tally): Tally {
    if !row.state.Completed? then t
    else
      var outcome := if row.run.Some? && row.run.value in db.runs && db.runs[row.run.value].scored
                     then Some(db.runs[row.run.value].outcome) else None;
      var usable := row.evidence.Fresh? && outcome.Some?;
      Tally(t.completed + 1,
            t.passed + if usable && outcome.value.pass && !outcome.value.voided then 1 else 0,
            t.failed + if usable && !outcome.value.pass && !outcome.value.voided then 1 else 0,
            t.voided + if usable && outcome.value.voided then 1 else 0,
            t.reused + if row.evidence.Reused? then 1 else 0)
  }

  lemma ReportNext(db: Db, keys: seq<Key>, k: Key, t: Tally)
    requires (forall j :: j in keys ==> j in db.trials) && ReportTally(db, keys, t) && k in db.trials
    requires db.trials[k].state.Completed? ==> db.trials[k].evidence.Fresh? || db.trials[k].evidence.Reused?
    ensures ReportTally(db, keys + [k], ReportRow(db, db.trials[k], t))
  {
    CountNext(db, keys, k);
  }

  /** The counters of the evaluation report. */
  method ReportCounters(db: Db, e: EvalId) returns (t: Tally, keys: seq<Key>)
    requires FreshOrReused(db, e)
    ensures RowsInOrder(db, e, keys) && (forall k :: k in keys ==> k in db.trials) && ReportTally(db, keys, t)
    ensures t.completed == |CompletedKeys(db, e)| && t.reused == |ReusedKeys(db, e)|
    ensures t.passed == |PassedKeys(db, e) - VoidedKeys(db, e)| && t.failed == |FailedKeys(db, e)| && t.voided == |VoidedKeys(db, e)|
  {
    keys := ListRows(db, e);
    assert forall k :: k in keys ==> k in KeysOf(db, e);
    t := Tally(0, 0, 0, 0, 0);
    for i := 0 to |keys|
      invariant (forall k :: k in keys[..i] ==> k in db.trials) && ReportTally(db, keys[..i], t)
    {
      assert keys[..i + 1] == keys[..i] + [keys[i]];
      assert keys[i] in KeysOf(db, e);
      ReportNext(db, keys[..i], keys[i], t);
      hide ReportTally, ReportRow;
      t := ReportRow(db, db.trials[keys[i]], t);
    }
    assert keys[..|keys|] == keys;
    KindsAreSets(db, e, keys);
  }

  // ---- Agreement and accounting ----------------------------------------------------------

  lemma {:induction false} KindsPartition(db: Db, keys: seq<Key>)
    requires forall k :: k in keys ==> k in db.trials
    ensures Count(db, keys, Unfinished) + Count(db, keys, Reuse) + Count(db, keys, NoScore) + Count(db, keys, PassOnly)
            + Count(db, keys, VoidOnly) + Count(db, keys, PassAndVoid) + Count(db, keys, Neither) == |keys|
  {
    if keys != [] { KindsPartition(db, keys[..|keys| - 1]); }
  }

  lemma {:induction false} NoneOfKind(db: Db, keys: seq<Key>, kind: Kind)
    requires forall k :: k in keys ==> k in db.trials
    ensures Count(db, keys, kind) == 0 <==> forall k :: k in keys ==> KindOf(db, k) != kind
  {
    if keys != [] {
      var last := keys[|keys| - 1];
      NoneOfKind(db, keys[..|keys| - 1], kind);
      assert keys == keys[..|keys| - 1] + [last];
      assert last in keys;
    }
  }

  /** The two counts agree exactly when no voided score is also a pass, which the scorer never produces. */
  lemma CountersAgreeUnlessAVoidPasses(db: Db, keys: seq<Key>, refreshed: Tally, reported: Tally)
    requires (forall k :: k in keys ==> k in db.trials) && RefreshTally(db, keys, refreshed) && ReportTally(db, keys, reported)
    ensures refreshed == reported <==> forall k :: k in keys ==> KindOf(db, k) != PassAndVoid
  {
    NoneOfKind(db, keys, PassAndVoid);
  }

  /** Completed positions are exactly the passed, failed, voided and reused ones once every fresh one has a score and no voided
      score is a pass; the report's counters leave out only fresh positions without a score. */
  lemma CompletedIsAccountedFor(db: Db, keys: seq<Key>, refreshed: Tally, reported: Tally)
    requires (forall k :: k in keys ==> k in db.trials) && RefreshTally(db, keys, refreshed) && ReportTally(db, keys, reported)
    ensures reported.passed + reported.failed + reported.voided + reported.reused == reported.completed
            <==> forall k :: k in keys ==> KindOf(db, k) != NoScore
    ensures (forall k :: k in keys ==> KindOf(db, k) != NoScore && KindOf(db, k) != PassAndVoid) ==>
      refreshed.passed + refreshed.failed + refreshed.voided + refreshed.reused == refreshed.completed
  {
    KindsPartition(db, keys);
    NoneOfKind(db, keys, NoScore);
    NoneOfKind(db, keys, PassAndVoid);
  }
}
