/** campaigns/afa_campaign/cohort.py: the checks that make an evaluation a valid campaign cell. */
module Cohort {
  import opened Wrappers
  import opened Tables
  import opened TableInvariants
  import opened ControlPlaneStore
  import opened Provenance
  import opened Campaign
  import Counting

  datatype Problem =
    | NoEvaluation | UnknownTask | MissingEvaluation | WrongStatus | NotFresh | ParamsUnverified | WrongParameter
    | WrongSnapshot | WrongPositions | TrialProblem(idx: nat) | NoRun(idx: nat) | RunProblem(idx: nat) | ExtraRuns
    | VoidedPositions | Concurrency | Overlap | UnsettledResume | ForeignResume | Rehearsal | NoWarmup | NotCodeChecked
    | NoReference | IdentityNotProven | NoVersion | WrongVersion | IdentityViolation

  datatype CellCheck = CellCheck(
    ok: bool, problems: seq<Problem>, runIds: seq<RunId>, valid: nat, passed: nat, voided: nat, unreal: nat)

  // ---- What a valid cell is --------------------------------------------------------------

  function ExpectedKeys(e: EvalId, cell: Cell, repetitions: nat): set<Key> {
    set i | 0 <= i < repetitions :: Key(e, cell.task, i)
  }

  predicate JobMatches(app: App, m: Manifest, cell: Cell, e: EvalId)
    requires cell.task in m.pins && e in app.db.jobs
  {
    var job := app.db.jobs[e];
    && job.status.Succeeded? && job.mode.FreshMode? && job.source.None? && e in app.verified
    && job.snapshot == Snapshot(CellConfig(m, cell), [m.pins[cell.task]], m.repetitions) && job.name == NameOf(cell)
  }

  predicate TrialMatches(app: App, m: Manifest, cell: Cell, k: Key)
    requires cell.task in m.pins && k in app.db.trials
  {
    var t := app.db.trials[k];
    && t.state.Completed? && t.evidence.Fresh? && t.origin == Some(k.eval) && t.source.None?
    && t.version == m.pins[cell.task].version && t.digest == m.pins[cell.task].digest && t.run.Some?
  }

  /** The raw run r is this cell's evidence for position k. */
  predicate RunMatches(app: App, m: Manifest, cell: Cell, e: EvalId, r: RunId, k: Key)
    requires cell.task in m.pins
  {
    && r in app.db.runs
    && var run := app.db.runs[r];
    && run.eval == Some(e) && run.agent == cell.model && run.task == cell.task && run.idx == k.idx
    && run.version == m.pins[cell.task].version && run.backend == Some(m.config.backend)
    && ClassOfRun(app.db, m.reserved, r).Real? && run.scored && run.diffed
  }

  predicate HasRun(app: App, k: Key, r: RunId) {
    k in app.db.trials && app.db.trials[k].run == Some(r)
  }

  /** The row that trial_by_run keeps for its run: a later row with the same run overwrites an earlier one. */
  ghost predicate KeptForItsRun(app: App, e: EvalId, k: Key, r: RunId) {
    k in KeysOf(app.db, e) && HasRun(app, k, r) && forall j :: j in KeysOf(app.db, e) && HasRun(app, j, r) && j != k ==> Before(j, k)
  }

  ghost predicate CellOk(app: App, m: Manifest, cell: Cell, e: EvalId) {
    && cell.task in m.pins && e in app.db.jobs && JobMatches(app, m, cell, e)
    && KeysOf(app.db, e) == ExpectedKeys(e, cell, m.repetitions)
    && (forall k :: k in KeysOf(app.db, e) ==> TrialMatches(app, m, cell, k))
    && (forall k, r :: KeptForItsRun(app, e, k, r) ==> RunMatches(app, m, cell, e, r, k))
    && (forall r :: r in app.db.runs && app.db.runs[r].eval == Some(e) ==> exists k :: k in KeysOf(app.db, e) && HasRun(app, k, r))
  }

  predicate Voided(app: App, r: RunId) {
    r in app.db.runs && (app.db.runs[r].outcome.voided || app.db.runs[r].outcome.infra)
  }

  // ---- The check -------------------------------------------------------------------------

  method CheckJob(app: App, m: Manifest, cell: Cell, e: EvalId) returns (problems: seq<Problem>)
    requires cell.task in m.pins && e in app.db.jobs
    ensures problems == [] <==> JobMatches(app, m, cell, e)
  {
    problems := [];
    var job, pin := app.db.jobs[e], m.pins[cell.task];
    if !job.status.Succeeded? { problems := problems + [WrongStatus]; }
    if !job.mode.FreshMode? || job.source.Some? { problems := problems + [NotFresh]; }
    if e !in app.verified {
      problems := problems + [ParamsUnverified];
    } else if job.snapshot.config != CellConfig(m, cell) || job.snapshot.repeats != m.repetitions || job.name != NameOf(cell) {
      problems := problems + [WrongParameter];
    }
    if |job.snapshot.tasks| != 1 {
      problems := problems + [WrongSnapshot];
    } else if job.snapshot.tasks[0] != pin {
      problems := problems + [WrongSnapshot];
    } else {
      assert job.snapshot.tasks == [pin];
    }
  }

  /** Row k is the last of the first n rows that holds run r. */
  ghost predicate LastWith(app: App, rows: seq<Key>, n: nat, r: RunId, k: Key)
    requires n <= |rows|
  {
    exists i :: 0 <= i < n && rows[i] == k && HasRun(app, k, r) && NoneAfter(app, rows, i + 1, n, r)
  }

  ghost predicate NoneAfter(app: App, rows: seq<Key>, from: nat, n: nat, r: RunId)
    requires n <= |rows|
  {
    forall j :: from <= j < n ==> !HasRun(app, rows[j], r)
  }

  /** What the loop over trial rows has gathered from the first n of them. */
  ghost predicate Gathered(app: App, rows: seq<Key>, n: nat, runIds: seq<RunId>, trialByRun: map<RunId, Key>)
    requires n <= |rows|
  {
    && (forall i, r :: 0 <= i < n && HasRun(app, rows[i], r) ==> r in trialByRun)
    && (forall r :: r in runIds <==> r in trialByRun)
    && (forall r :: r in trialByRun ==> LastWith(app, rows, n, r, trialByRun[r]))
  }

  lemma LastStays(app: App, rows: seq<Key>, n: nat, r: RunId, k: Key)
    requires n < |rows| && LastWith(app, rows, n, r, k) && !HasRun(app, rows[n], r)
    ensures LastWith(app, rows, n + 1, r, k)
  {
    var i :| 0 <= i < n && rows[i] == k && HasRun(app, k, r) && NoneAfter(app, rows, i + 1, n, r);
    assert NoneAfter(app, rows, i + 1, n + 1, r);
  }

  lemma LastIsNew(app: App, rows: seq<Key>, n: nat, r: RunId)
    requires n < |rows| && HasRun(app, rows[n], r)
    ensures LastWith(app, rows, n + 1, r, rows[n])
  {
    assert NoneAfter(app, rows, n + 1, n + 1, r);
  }

  lemma GatherNext(app: App, rows: seq<Key>, n: nat, runIds: seq<RunId>, trialByRun: map<RunId, Key>, r: RunId)
    requires n < |rows| && Gathered(app, rows, n, runIds, trialByRun) && HasRun(app, rows[n], r)
    ensures Gathered(app, rows, n + 1, runIds + [r], trialByRun[r := rows[n]])
  {
    var kept := trialByRun[r := rows[n]];
    forall q | q in kept ensures LastWith(app, rows, n + 1, q, kept[q]) {
      if q == r { LastIsNew(app, rows, n, r); } else { LastStays(app, rows, n, q, trialByRun[q]); }
    }
    hide LastWith;
  }

  lemma GatherNone(app: App, rows: seq<Key>, n: nat, runIds: seq<RunId>, trialByRun: map<RunId, Key>)
    requires n < |rows| && Gathered(app, rows, n, runIds, trialByRun) && forall r :: !HasRun(app, rows[n], r)
    ensures Gathered(app, rows, n + 1, runIds, trialByRun)
  {
    forall q | q in trialByRun ensures LastWith(app, rows, n + 1, q, trialByRun[q]) {
      LastStays(app, rows, n, q, trialByRun[q]);
    }
    hide LastWith;
  }

  method CheckTrials(app: App, m: Manifest, cell: Cell, rows: seq<Key>)
    returns (problems: seq<Problem>, runIds: seq<RunId>, trialByRun: map<RunId, Key>)
    requires cell.task in m.pins && forall k :: k in rows ==> k in app.db.trials
    ensures problems == [] <==> forall k :: k in rows ==> TrialMatches(app, m, cell, k)
    ensures Gathered(app, rows, |rows|, runIds, trialByRun)
    ensures |runIds| <= |rows| && (problems == [] ==> |runIds| == |rows|)
    ensures problems == [] ==> forall i :: 0 <= i < |rows| ==> app.db.trials[rows[i]].run == Some(runIds[i])
  {
    hide LastWith;
    problems, runIds, trialByRun := [], [], map[];
    for n := 0 to |rows|
      invariant problems == [] <==> forall i :: 0 <= i < n ==> TrialMatches(app, m, cell, rows[i])
      invariant Gathered(app, rows, n, runIds, trialByRun)
      invariant |runIds| <= n && (problems == [] ==> |runIds| == n)
      invariant problems == [] ==> forall i :: 0 <= i < n ==> app.db.trials[rows[i]].run == Some(runIds[i])
    {
      var k := rows[n];
      var t := app.db.trials[k];
      if !t.state.Completed? || !t.evidence.Fresh? || t.origin != Some(k.eval) || t.source.Some?
         || t.version != m.pins[cell.task].version || t.digest != m.pins[cell.task].digest {
        problems := problems + [TrialProblem(k.idx)];
      }
      if t.run.None? {
        problems := problems + [NoRun(k.idx)];
        GatherNone(app, rows, n, runIds, trialByRun);
      } else {
        GatherNext(app, rows, n, runIds, trialByRun, t.run.value);
        runIds, trialByRun := runIds + [t.run.value], trialByRun[t.run.value := k];
      }
    }
  }

  /** Which of the collected runs are unvoided, which of those passed, and which are voided. */
  ghost function ValidAt(app: App, ids: seq<RunId>): set<int> {
    set i | 0 <= i < |ids| && ids[i] in app.db.runs && !app.db.runs[ids[i]].outcome.voided && !app.db.runs[ids[i]].outcome.infra
  }

  ghost function PassedAt(app: App, ids: seq<RunId>): set<int> {
    set i | i in ValidAt(app, ids) && app.db.runs[ids[i]].outcome.pass
  }

  ghost function VoidedAt(app: App, ids: seq<RunId>): set<int> {
    set i | 0 <= i < |ids| && ids[i] in app.db.runs && (app.db.runs[ids[i]].outcome.voided || app.db.runs[ids[i]].outcome.infra)
  }

  lemma OneMoreValid(app: App, ids: seq<RunId>, n: nat)
    requires n < |ids|
    ensures |ValidAt(app, ids[..n + 1])| == |ValidAt(app, ids[..n])| + if ids[n] in app.db.runs && !Voided(app, ids[n]) then 1 else 0
  {
    var before, after := ids[..n], ids[..n + 1];
    forall i ensures i in ValidAt(app, after) <==> i in ValidAt(app, before) || (i == n && ids[n] in app.db.runs && !Voided(app, ids[n])) {
      if 0 <= i < n { assert after[i] == before[i]; }
    }
    Counting.GrownBy(ValidAt(app, before), ValidAt(app, after), n, ids[n] in app.db.runs && !Voided(app, ids[n]));
  }

  lemma OneMorePassed(app: App, ids: seq<RunId>, n: nat)
    requires n < |ids|
    ensures |PassedAt(app, ids[..n + 1])| == |PassedAt(app, ids[..n])| + if ids[n] in app.db.runs && !Voided(app, ids[n]) && app.db.runs[ids[n]].outcome.pass then 1 else 0
  {
    var before, after := ids[..n], ids[..n + 1];
    forall i ensures i in PassedAt(app, after) <==> i in PassedAt(app, before) || (i == n && ids[n] in app.db.runs && !Voided(app, ids[n]) && app.db.runs[ids[n]].outcome.pass) {
      if 0 <= i < n { assert after[i] == before[i]; }
    }
    Counting.GrownBy(PassedAt(app, before), PassedAt(app, after), n, ids[n] in app.db.runs && !Voided(app, ids[n]) && app.db.runs[ids[n]].outcome.pass);
  }

  lemma OneMoreVoided(app: App, ids: seq<RunId>, n: nat)
    requires n < |ids|
    ensures |VoidedAt(app, ids[..n + 1])| == |VoidedAt(app, ids[..n])| + if Voided(app, ids[n]) then 1 else 0
  {
    var before, after := ids[..n], ids[..n + 1];
    forall i ensures i in VoidedAt(app, after) <==> i in VoidedAt(app, before) || (i == n && Voided(app, ids[n])) {
      if 0 <= i < n { assert after[i] == before[i]; }
    }
    Counting.GrownBy(VoidedAt(app, before), VoidedAt(app, after), n, Voided(app, ids[n]));
  }

  lemma NoRunYet(app: App, ids: seq<RunId>)
    ensures |ValidAt(app, ids[..0])| == |PassedAt(app, ids[..0])| == |VoidedAt(app, ids[..0])| == 0
  {
    assert ValidAt(app, ids[..0]) == PassedAt(app, ids[..0]) == VoidedAt(app, ids[..0]) == {};
  }

  /** The checks of one collected run against the trial kept for it. */
  method CheckRun(app: App, m: Manifest, cell: Cell, e: EvalId, r: RunId, k: Key) returns (problems: seq<Problem>, unreal: nat)
    requires cell.task in m.pins
    ensures problems == [] <==> RunMatches(app, m, cell, e, r, k)
    ensures problems == [] ==> unreal == 0
  {
    if r !in app.db.runs { return [RunProblem(k.idx)], 0; }
    problems, unreal := [], 0;
    var run := app.db.runs[r];
    if run.eval != Some(e) || run.agent != cell.model || run.task != cell.task || run.idx != k.idx
       || run.version != m.pins[cell.task].version || run.backend != Some(m.config.backend) {
      problems := problems + [RunProblem(k.idx)];
    }
    if !ClassOfRun(app.db, m.reserved, r).Real? {
      unreal := 1;
      problems := problems + [RunProblem(k.idx)];
    }
    if !run.scored || !run.diffed { problems := problems + [RunProblem(k.idx)]; }
  }

  method CheckRuns(app: App, m: Manifest, cell: Cell, e: EvalId, runIds: seq<RunId>, trialByRun: map<RunId, Key>)
    returns (problems: seq<Problem>, valid: nat, passed: nat, voided: nat, unreal: nat)
    requires cell.task in m.pins && forall r :: r in runIds ==> r in trialByRun
    ensures problems == [] <==> forall r :: r in runIds ==> RunMatches(app, m, cell, e, r, trialByRun[r])
    ensures valid + voided <= |runIds| && passed <= valid && (problems == [] ==> valid + voided == |runIds|)
    ensures voided == 0 <==> forall r :: r in runIds ==> !Voided(app, r)
    ensures problems == [] ==> unreal == 0
    ensures valid == |ValidAt(app, runIds)| && passed == |PassedAt(app, runIds)| && voided == |VoidedAt(app, runIds)|
  {
    hide RunMatches, ValidAt, PassedAt, VoidedAt;
    NoRunYet(app, runIds);
    problems, valid, passed, voided, unreal := [], 0, 0, 0, 0;
    for n := 0 to |runIds|
      invariant problems == [] <==> forall i :: 0 <= i < n ==> RunMatches(app, m, cell, e, runIds[i], trialByRun[runIds[i]])
      invariant valid + voided <= n && passed <= valid && (problems == [] ==> valid + voided == n)
      invariant voided == 0 <==> forall i :: 0 <= i < n ==> !Voided(app, runIds[i])
      invariant problems == [] ==> unreal == 0
      invariant valid == |ValidAt(app, runIds[..n])| && passed == |PassedAt(app, runIds[..n])| && voided == |VoidedAt(app, runIds[..n])|
    {
      var r := runIds[n];
      OneMoreValid(app, runIds, n);
      OneMorePassed(app, runIds, n);
      OneMoreVoided(app, runIds, n);
      var found, fake := CheckRun(app, m, cell, e, r, trialByRun[r]);
      MatchedIsStored(app, m, cell, e, r, trialByRun[r]);
      problems, unreal := problems + found, unreal + fake;
      if r in app.db.runs {
        var outcome := app.db.runs[r].outcome;
        if outcome.voided || outcome.infra {
          voided := voided + 1;
        } else {
          valid, passed := valid + 1, passed + if outcome.pass then 1 else 0;
        }
      }
    }
    assert runIds[..|runIds|] == runIds;
  }

  lemma MatchedIsStored(app: App, m: Manifest, cell: Cell, e: EvalId, r: RunId, k: Key)
    requires cell.task in m.pins
    ensures RunMatches(app, m, cell, e, r, k) ==> r in app.db.runs
  {
  }

  /** check_cell_evaluation. */
  method CheckCellEvaluation(app: App, m: Manifest, cell: Cell, id: Option<EvalId>) returns (check: CellCheck)
    ensures check.ok == (check.problems == [])
    ensures check.ok <==> id.Some? && CellOk(app, m, cell, id.value)
    ensures check.ok ==> |check.runIds| == m.repetitions && check.valid + check.voided == m.repetitions
    ensures check.ok ==> (check.voided == 0 <==> NoVoids(app, id.value))
    ensures check.passed <= check.valid && (check.ok ==> check.unreal == 0)
    ensures check.valid == |ValidAt(app, check.runIds)| && check.passed == |PassedAt(app, check.runIds)|
    ensures check.voided == |VoidedAt(app, check.runIds)|
  {
    if id.None? { return CellCheck(false, [NoEvaluation], [], 0, 0, 0, 0); }
    var e := id.value;
    if cell.task !in m.pins { return CellCheck(false, [UnknownTask], [], 0, 0, 0, 0); }
    if e !in app.db.jobs { return CellCheck(false, [MissingEvaluation], [], 0, 0, 0, 0); }
    var problems := CheckJob(app, m, cell, e);
    var rows := ListRows(app.db, e);
    var positions := (set k | k in rows) == ExpectedKeys(e, cell, m.repetitions);
    if !positions { problems := problems + [WrongPositions]; }
    var trialProblems, runIds, trialByRun := CheckTrials(app, m, cell, rows);
    var runProblems, valid, passed, voided, unreal := CheckRuns(app, m, cell, e, runIds, trialByRun);
    var extra := exists r :: r in app.db.runs && app.db.runs[r].eval == Some(e) && r !in runIds;
    problems := problems + trialProblems + runProblems + if extra then [ExtraRuns] else [];
    AllChecksTogether(app, m, cell, e, rows, runIds, trialByRun, positions, trialProblems == [], runProblems == [], extra);
    if problems == [] { RowsAreCounted(e, cell, m.repetitions, rows); }
    check := CellCheck(problems == [], problems, runIds, valid, passed, voided, unreal);
  }

  ghost predicate NoVoids(app: App, e: EvalId) {
    forall k, r :: k in KeysOf(app.db, e) && HasRun(app, k, r) ==> !Voided(app, r)
  }

  lemma AllChecksTogether(app: App, m: Manifest, cell: Cell, e: EvalId, rows: seq<Key>, runIds: seq<RunId>,
                          trialByRun: map<RunId, Key>, positions: bool, trialsOk: bool, runsOk: bool, extra: bool)
    requires cell.task in m.pins && e in app.db.jobs && RowsInOrder(app.db, e, rows)
    requires Gathered(app, rows, |rows|, runIds, trialByRun)
    requires positions <==> (set k | k in rows) == ExpectedKeys(e, cell, m.repetitions)
    requires trialsOk <==> forall k :: k in rows ==> k in app.db.trials && TrialMatches(app, m, cell, k)
    requires runsOk <==> forall r :: r in runIds ==> r in trialByRun && RunMatches(app, m, cell, e, r, trialByRun[r])
    requires extra <==> exists r :: r in app.db.runs && app.db.runs[r].eval == Some(e) && r !in runIds
    ensures CellOk(app, m, cell, e) <==> JobMatches(app, m, cell, e) && positions && trialsOk && runsOk && !extra
    ensures (forall r :: r in runIds ==> !Voided(app, r)) <==> NoVoids(app, e)
  {
    assert (set k | k in rows) == KeysOf(app.db, e);
    forall r ensures r in runIds <==> exists k :: k in KeysOf(app.db, e) && HasRun(app, k, r) {
      if r in runIds {
        assert LastWith(app, rows, |rows|, r, trialByRun[r]);
        assert trialByRun[r] in rows;
      }
      if exists k :: k in KeysOf(app.db, e) && HasRun(app, k, r) {
        var k :| k in KeysOf(app.db, e) && HasRun(app, k, r);
        var i :| 0 <= i < |rows| && rows[i] == k;
      }
    }
    forall k, r ensures KeptForItsRun(app, e, k, r) <==> r in trialByRun && trialByRun[r] == k {
      KeptIsLast(app, e, rows, runIds, trialByRun, k, r);
    }
  }

  lemma KeptIsLast(app: App, e: EvalId, rows: seq<Key>, runIds: seq<RunId>, trialByRun: map<RunId, Key>, k: Key, r: RunId)
    requires RowsInOrder(app.db, e, rows) && Gathered(app, rows, |rows|, runIds, trialByRun)
    ensures KeptForItsRun(app, e, k, r) <==> r in trialByRun && trialByRun[r] == k
  {
    if KeptForItsRun(app, e, k, r) {
      var q :| 0 <= q < |rows| && rows[q] == k;
      assert HasRun(app, rows[q], r);
      assert r in trialByRun;
    }
    if r in trialByRun {
      assert LastWith(app, rows, |rows|, r, trialByRun[r]);
      var i :| 0 <= i < |rows| && rows[i] == trialByRun[r] && HasRun(app, rows[i], r) && NoneAfter(app, rows, i + 1, |rows|, r);
      assert rows[i] in rows;
      forall j | j in KeysOf(app.db, e) && HasRun(app, j, r) && j != rows[i] ensures Before(j, rows[i]) {
        var q :| 0 <= q < |rows| && rows[q] == j;
      }
      assert KeptForItsRun(app, e, rows[i], r);
    }
  }

  lemma RowsAreCounted(e: EvalId, cell: Cell, repetitions: nat, rows: seq<Key>)
    requires Sorted(rows) && (set k | k in rows) == ExpectedKeys(e, cell, repetitions)
    ensures |rows| == repetitions
  {
    DistinctSize(rows);
    ExpectedSize(e, cell, repetitions);
  }

  lemma {:induction false} DistinctSize(rows: seq<Key>)
    requires Sorted(rows)
    ensures |set k | k in rows| == |rows|
  {
    if rows == [] {
      assert (set k | k in rows) == {};
    } else {
      var last, rest := rows[|rows| - 1], rows[..|rows| - 1];
      DistinctSize(rest);
      assert (set k | k in rows) == (set k | k in rest) + {last};
    }
  }

  lemma {:induction false} ExpectedSize(e: EvalId, cell: Cell, n: nat)
    ensures |ExpectedKeys(e, cell, n)| == n
  {
    if n == 0 {
      assert ExpectedKeys(e, cell, 0) == {};
    } else {
      ExpectedSize(e, cell, n - 1);
      assert ExpectedKeys(e, cell, n) == ExpectedKeys(e, cell, n - 1) + {Key(e, cell.task, n - 1)};
    }
  }

  // ---- Distinct runs ---------------------------------------------------------------------

  ghost predicate DistinctRuns(app: App, e: EvalId) {
    forall k, j, r :: k in KeysOf(app.db, e) && j in KeysOf(app.db, e) && HasRun(app, k, r) && HasRun(app, j, r) ==> k == j
  }

  /** Every position's run carries that position's own index. */
  ghost predicate OwnIndices(app: App, e: EvalId) {
    forall k, r :: k in KeysOf(app.db, e) && HasRun(app, k, r) ==> r in app.db.runs && app.db.runs[r].idx == k.idx
  }

  /** The cell check compares each run with one trial only, so it alone does not establish distinct runs; it does exactly
      when each run also carries the index of every trial that names it. */
  lemma DistinctExactlyWithOwnIndices(app: App, m: Manifest, cell: Cell, e: EvalId)
    requires CellOk(app, m, cell, e)
    ensures DistinctRuns(app, e) <==> OwnIndices(app, e)
  {
    forall k | k in KeysOf(app.db, e) ensures k == Key(e, cell.task, k.idx) { assert k in ExpectedKeys(e, cell, m.repetitions); }
    forall k, r | k in KeysOf(app.db, e) && HasRun(app, k, r)
      ensures exists j :: KeptForItsRun(app, e, j, r) && RunMatches(app, m, cell, e, r, j)
    {
      KeptExists(app, e, k, r);
    }
  }

  lemma KeptExists(app: App, e: EvalId, k: Key, r: RunId)
    requires k in KeysOf(app.db, e) && HasRun(app, k, r)
    ensures exists j :: KeptForItsRun(app, e, j, r)
  {
    var sharing := set j | j in KeysOf(app.db, e) && HasRun(app, j, r);
    assert k in sharing;
    HasLast(sharing, e);
    var last :| last in sharing && forall j :: j in sharing && j != last ==> Before(j, last);
    assert KeptForItsRun(app, e, last, r);
  }

  lemma {:induction false} HasLast(keys: set<Key>, e: EvalId)
    requires keys != {} && forall k :: k in keys ==> k.eval == e
    ensures exists last :: last in keys && forall j :: j in keys && j != last ==> Before(j, last)
  {
    var k :| k in keys;
    var rest := keys - {k};
    if rest != {} {
      HasLast(rest, e);
      var l :| l in rest && forall j :: j in rest && j != l ==> Before(j, l);
      var last := if Before(l, k) then k else l;
      forall j | j in keys && j != last ensures Before(j, last) {
        if j != k && j != l { assert j in rest; }
      }
    } else {
      assert keys == {k};
    }
  }

  /** A database in which two positions share one run, and the cell check still passes. */
  lemma SharedRunPassesTheCheck() returns (app: App, m: Manifest, cell: Cell, e: EvalId)
    ensures ValidManifest(m) && CellOk(app, m, cell, e) && NoVoids(app, e) && !DistinctRuns(app, e)
  {
    e, cell := 7, Cell(1, 2, 0);
    var pin, config := Pin(2, 1, 9), Config(1, Ollama, 0, 0, 0, 0);
    m := Manifest([cell], map[2 := pin], 2, config, false, map[], {}, 1, {});
    var job := Job(Succeeded, false, None, None, FreshMode, None, Snapshot(config, [pin], 2), NameOf(cell));
    var trial := Trial(1, 9, Completed, Fresh, Some(5), None, None, Some(7), None, Some(0), Some(1));
    var first, second := Key(7, 2, 0), Key(7, 2, 1);
    var run := Run(Some(7), 1, 2, 1, 1, Some(Ollama), 0, true, true, Outcome(true, false, false, true, 1));
    app := App(Db(map[7 := job], map[first := trial, second := trial], map[5 := run]), {7}, map[]);
    assert HasRun(app, first, 5) && HasRun(app, second, 5) && first in KeysOf(app.db, 7) && second in KeysOf(app.db, 7);
    assert ExpectedKeys(7, cell, 2) == {first, second};
    assert KeysOf(app.db, 7) == {first, second};
    assert !KeptForItsRun(app, 7, first, 5);
  }

  /** Rows written by the control plane do carry their own indices. */
  lemma ControlPlaneRowsAreDistinct(app: App, m: Manifest, cell: Cell, e: EvalId)
    requires DbInv(app.db) && CellOk(app, m, cell, e)
    ensures DistinctRuns(app, e) && OwnIndices(app, e)
  {
    forall k, r | k in KeysOf(app.db, e) && HasRun(app, k, r) ensures r in app.db.runs && app.db.runs[r].idx == k.idx {
      assert TrialMatches(app, m, cell, k);
      assert IsFresh(app.db, k) && FreshOk(app.db, k);
    }
    DistinctExactlyWithOwnIndices(app, m, cell, e);
  }

  // ---- Running alone ---------------------------------------------------------------------

  /** Trial o of another evaluation shared the model server with the completed trial t. */
  predicate RanAlongside(db: Db, t: Key, o: Key) {
    && t in db.trials && o in db.trials && o.eval != t.eval && o.eval in db.jobs
    && db.trials[t].claimedAt.Some? && db.trials[t].completedAt.Some? && db.trials[o].claimedAt.Some?
    && db.trials[o].claimedAt.value < db.trials[t].completedAt.value
    && ((db.trials[o].completedAt.Some? && db.trials[o].completedAt.value > db.trials[t].claimedAt.value)
        || (db.trials[o].completedAt.None? && db.trials[o].state.Claimed?
            && (db.jobs[o.eval].status.Queued? || db.jobs[o.eval].status.Running?)))
  }

  function OverlappingEvaluations(db: Db, e: EvalId): set<EvalId> {
    set t, o | t in db.trials && o in db.trials && t.eval == e && RanAlongside(db, t, o) :: o.eval
  }

  /** Every executed trial of another evaluation lies wholly before or after each of e's, and a trial of another queued or running
      evaluation that is still claimed was claimed no earlier than each of e's was completed. */
  ghost predicate RanAlone(db: Db, e: EvalId) {
    && (forall t, o :: Executed(db, t) && Executed(db, o) && t.eval == e && o.eval != e && o.eval in db.jobs ==>
         db.trials[o].completedAt.value <= db.trials[t].claimedAt.value || db.trials[t].completedAt.value <= db.trials[o].claimedAt.value)
    && (forall t, o :: Executed(db, t) && StillClaimed(db, o) && t.eval == e && o.eval != e ==>
         db.trials[t].completedAt.value <= db.trials[o].claimedAt.value)
  }

  predicate Executed(db: Db, t: Key) {
    t in db.trials && db.trials[t].claimedAt.Some? && db.trials[t].completedAt.Some?
  }

  predicate StillClaimed(db: Db, o: Key) {
    && o in db.trials && db.trials[o].state.Claimed? && db.trials[o].claimedAt.Some? && db.trials[o].completedAt.None?
    && o.eval in db.jobs && (db.jobs[o.eval].status.Queued? || db.jobs[o.eval].status.Running?)
  }

  lemma DisjointFrom(db: Db, t: Key, o: Key)
    requires Executed(db, t) && o.eval != t.eval && !RanAlongside(db, t, o)
    ensures Executed(db, o) && o.eval in db.jobs ==>
      db.trials[o].completedAt.value <= db.trials[t].claimedAt.value || db.trials[t].completedAt.value <= db.trials[o].claimedAt.value
    ensures StillClaimed(db, o) ==> db.trials[t].completedAt.value <= db.trials[o].claimedAt.value
  {
  }

  /** The overlap query returns nothing exactly when the evaluation ran alone. */
  lemma NoOverlapMeansAlone(db: Db, e: EvalId)
    ensures OverlappingEvaluations(db, e) == {} <==> RanAlone(db, e)
  {
    if OverlappingEvaluations(db, e) == {} {
      forall t, o: Key | Executed(db, t) && t.eval == e && o.eval != e ensures !RanAlongside(db, t, o) {
        assert RanAlongside(db, t, o) ==> o.eval in OverlappingEvaluations(db, e);
      }
      forall t, o | Executed(db, t) && (Executed(db, o) || StillClaimed(db, o)) && t.eval == e && o.eval != e
        ensures Executed(db, o) && o.eval in db.jobs ==>
          db.trials[o].completedAt.value <= db.trials[t].claimedAt.value || db.trials[t].completedAt.value <= db.trials[o].claimedAt.value
        ensures StillClaimed(db, o) ==> db.trials[t].completedAt.value <= db.trials[o].claimedAt.value
      {
        DisjointFrom(db, t, o);
      }
    }
    if RanAlone(db, e) {
      forall t, o | t in db.trials && o in db.trials && t.eval == e ensures !RanAlongside(db, t, o) {
        AlongsideIsNotDisjoint(db, t, o);
      }
      assert OverlappingEvaluations(db, e) == {};
    }
  }

  lemma AlongsideIsNotDisjoint(db: Db, t: Key, o: Key)
    ensures RanAlongside(db, t, o) ==>
      && Executed(db, t) && o.eval != t.eval
      && ((Executed(db, o) && o.eval in db.jobs && db.trials[o].completedAt.value > db.trials[t].claimedAt.value
           && db.trials[t].completedAt.value > db.trials[o].claimedAt.value)
          || (StillClaimed(db, o) && db.trials[t].completedAt.value > db.trials[o].claimedAt.value))
  {
  }
}
