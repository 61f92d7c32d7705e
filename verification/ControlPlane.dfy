/**
 afa_api/jobs.py over its tables: one object, one method per guarded UPDATE or
 transaction. Each method's contract names the table transition of module Tables it
 performs and states what that does to the rows; TableInvariants, Safety and
 ControlPlaneTheorems say what those transitions guarantee together.
 */
module ControlPlaneStore {
  import opened Wrappers
  import opened Tables
  import opened TableInvariants

  datatype CreateError = SourceRequired | SourceForbidden | NoTasks | DuplicateTasks | SourceUnusable | StatementFailed

  /** ORDER BY task_id, idx. */
  predicate Before(a: Key, b: Key) {
    a.task < b.task || (a.task == b.task && a.idx < b.idx)
  }

  predicate Sorted(keys: seq<Key>) {
    forall i, j :: 0 <= i < j < |keys| ==> Before(keys[i], keys[j])
  }

  /** The positions of e, each once, in query order. */
  ghost predicate RowsInOrder(db: Db, e: EvalId, keys: seq<Key>) {
    Sorted(keys) && forall k :: k in keys <==> k in KeysOf(db, e)
  }

  predicate IsFirst(k: Key, keys: set<Key>) {
    k in keys && forall j :: j in keys && j != k ==> Before(k, j)
  }

  lemma {:induction false} HasFirst(keys: set<Key>, e: EvalId)
    requires keys != {} && forall k :: k in keys ==> k.eval == e
    ensures exists k :: IsFirst(k, keys)
  {
    var k :| k in keys;
    var rest := keys - {k};
    if rest == {} {
      assert keys == {k};
      assert IsFirst(k, keys);
    } else {
      HasFirst(rest, e);
      var f :| IsFirst(f, rest);
      var first := if Before(k, f) then k else f;
      forall j | j in keys && j != first ensures Before(first, j) {
        if j != k && j != f { assert j in rest && Before(f, j); }
      }
      assert IsFirst(first, keys);
    }
  }

  lemma HasMember(keys: seq<Key>)
    ensures keys != [] ==> exists k :: k in keys
  {
    if keys != [] { assert keys[0] in keys; }
  }

  /** Two listings of the same rows in query order are the same list. */
  lemma {:induction false} OrderIsUnique(db: Db, e: EvalId, a: seq<Key>, b: seq<Key>)
    requires Sorted(a) && Sorted(b) && forall k :: k in a <==> k in b
    ensures a == b
  {
    if a == [] {
      HasMember(b);
    } else {
      assert a[0] in b && b != [] && b[0] in a;
      assert a[0] == b[0];
      forall k ensures k in a[1..] <==> k in b[1..] {
        if k in a[1..] { assert k in a && Before(a[0], k); }
        if k in b[1..] { assert k in b && Before(b[0], k); }
      }
      OrderIsUnique(db, e, a[1..], b[1..]);
    }
  }

  /** SELECT * FROM evaluation_trials WHERE evaluation_id=? ORDER BY task_id, idx */
  method ListRows(db: Db, e: EvalId) returns (keys: seq<Key>)
    ensures RowsInOrder(db, e, keys)
    ensures forall k :: k in keys <==> k in db.trials && k.eval == e
    ensures forall i, j :: 0 <= i < j < |keys| ==> keys[i].task < keys[j].task || (keys[i].task == keys[j].task && keys[i].idx < keys[j].idx)
  {
    keys := [];
    var todo := set k | k in db.trials && k.eval == e;
    while todo != {}
      invariant Sorted(keys) && todo <= KeysOf(db, e)
      invariant forall k :: k in KeysOf(db, e) <==> k in todo || k in keys
      invariant forall k, j :: k in keys && j in todo ==> Before(k, j)
      decreases |todo|
    {
      HasFirst(todo, e);
      var k :| IsFirst(k, todo);
      keys, todo := keys + [k], todo - {k};
    }
  }

  // ---- Creation request checks (build_snapshot) ------------------------------------------

  datatype Request = Request(snap: Snapshot, source: Option<EvalId>, reuse: bool, name: Name)

  predicate Admissible(db: Db, q: Request, sourceParamsOk: bool) {
    && q.reuse == q.source.Some? && ValidSnapshot(q.snap)
    && (q.reuse ==> sourceParamsOk && CanReuse(db, q.source.value, q.snap))
  }

  /** What a committed creation leaves. */
  function Created(db: Db, e: EvalId, q: Request, now: Time): Db
    requires Admissible(db, q, true)
  {
    if q.reuse then CreateReuse(db, e, q.source.value, q.snap, q.name, now) else CreateFresh(db, e, q.snap, q.name)
  }

  /** The trial row that creation inserts at one position. */
  function RowFor(db: Db, q: Request, k: Key, now: Time): Trial
    requires Admissible(db, q, true) && Requested(q.snap, k.task, k.idx)
  {
    if q.reuse then ReusedTrial(db, q.source.value, q.snap, k, now) else NewTrial(q.snap, k)
  }

  // ---- What a usable source is, and what a creation leaves ---------------------------------

  /** The row carries the version and digest of its task's first pin. */
  ghost predicate PinnedBy(snap: Snapshot, k: Key, t: Trial) {
    exists p :: 0 <= p < |snap.tasks| && FirstPin(snap, p, k.task) && t.version == snap.tasks[p].version && t.digest == snap.tasks[p].digest
  }

  ghost predicate FirstPin(snap: Snapshot, p: nat, task: TaskId)
    requires p < |snap.tasks|
  {
    snap.tasks[p].task == task && forall q :: 0 <= q < p ==> snap.tasks[q].task != task
  }

  /** The run has its score, its diff, its artifacts and a known origin that is not a legacy evaluation. */
  ghost predicate IsSound(db: Db, r: Option<RunId>) {
    && r.Some? && r.value in db.runs
    && var run := db.runs[r.value];
    && run.scored && run.diffed && run.outcome.patch && run.outcome.tests > 0
    && run.eval.Some? && run.eval.value in db.jobs && !db.jobs[run.eval.value].mode.Legacy?
  }

  /** The source evaluation was created from this very snapshot, has exactly its positions, and each of them is completed with a
      sound run at the pinned version and digest. */
  ghost predicate SoundSource(db: Db, source: EvalId, snap: Snapshot) {
    && source in db.jobs && !db.jobs[source].mode.Legacy? && db.jobs[source].snapshot == snap
    && HasRequestedRows(db, source, snap)
    && (forall k :: k in db.trials && k.eval == source ==> SoundRow(db, snap, k))
  }

  /** One row per task of the snapshot and repetition. */
  ghost predicate HasRequestedRows(db: Db, e: EvalId, snap: Snapshot) {
    forall k: Key :: k.eval == e ==>
      (k in db.trials <==> k.idx < snap.repeats && exists p :: 0 <= p < |snap.tasks| && snap.tasks[p].task == k.task)
  }

  lemma RequestedRows(db: Db, e: EvalId, snap: Snapshot)
    ensures HasRequestedRows(db, e, snap) <==> KeysOf(db, e) == RequestedKeys(e, snap)
  {
    if HasRequestedRows(db, e, snap) { assert KeysOf(db, e) == RequestedKeys(e, snap); }
    if KeysOf(db, e) == RequestedKeys(e, snap) {
      forall k: Key | k.eval == e
        ensures k in db.trials <==> k.idx < snap.repeats && exists p :: 0 <= p < |snap.tasks| && snap.tasks[p].task == k.task
      {
        assert k in db.trials <==> k in KeysOf(db, e);
        assert k in RequestedKeys(e, snap) <==> Requested(snap, k.task, k.idx);
      }
    }
  }

  ghost predicate SoundRow(db: Db, snap: Snapshot, k: Key)
    requires k in db.trials
  {
    var t := db.trials[k];
    t.state == Completed && (t.evidence == Fresh || t.evidence == Reused) && PinnedBy(snap, k, t) && IsSound(db, t.run)
  }

  lemma {:induction false} FirstPinFrom(pins: seq<Pin>, task: TaskId) returns (p: nat)
    requires exists p :: 0 <= p < |pins| && pins[p].task == task
    ensures p < |pins| && pins[p] == PinFrom(pins, task) && pins[p].task == task && forall q :: 0 <= q < p ==> pins[q].task != task
  {
    if pins[0].task == task {
      p := 0;
    } else {
      var r := FirstPinFrom(pins[1..], task);
      p := r + 1;
      assert forall q :: 0 < q < p ==> pins[q] == pins[1..][q - 1];
    }
  }

  lemma PinIsFirst(snap: Snapshot, k: Key, t: Trial)
    requires Pins(snap, k.task)
    ensures PinnedBy(snap, k, t) <==> t.version == PinOf(snap, k.task).version && t.digest == PinOf(snap, k.task).digest
  {
    var p := FirstPinFrom(snap.tasks, k.task);
    assert FirstPin(snap, p, k.task);
    forall q | 0 <= q < |snap.tasks| && FirstPin(snap, q, k.task) ensures q == p {}
  }

  lemma ReusableIsSound(db: Db, snap: Snapshot, k: Key)
    requires k in db.trials && Pins(snap, k.task)
    ensures ReusableRow(db, snap, k) <==> SoundRow(db, snap, k)
  {
    PinIsFirst(snap, k, db.trials[k]);
    hide PinnedBy;
  }

  lemma ReuseNeedsSoundSource(db: Db, source: EvalId, snap: Snapshot)
    ensures CanReuse(db, source, snap) <==> SoundSource(db, source, snap)
  {
    RequestedRows(db, source, snap);
    hide ReusableRow, SoundRow, RequestedKeys, HasRequestedRows;
    if KeysOf(db, source) == RequestedKeys(source, snap) {
      forall k | k in KeysOf(db, source) ensures ReusableRow(db, snap, k) <==> SoundRow(db, snap, k) { ReusableIsSound(db, snap, k); }
    }
  }

  /** A created evaluation is queued and unowned with exactly the requested positions: all pending and pinned, or all completed with
      the run of the source's position at the same place and the evaluation that owns that run as origin. */
  ghost predicate IsCreated(db: Db, d: Db, e: EvalId, q: Request, now: Time) {
    && d.runs == db.runs
    && d.jobs == db.jobs[e := Job(Queued, false, None, None, if q.reuse then ReuseMode else FreshMode, q.source, q.snap, q.name)]
    && SameElsewhere(db, d, e) && HasRequestedRows(d, e, q.snap)
    && (forall k :: k in d.trials && k.eval == e ==> PinnedBy(q.snap, k, d.trials[k]) && IsCreatedRow(db, q, k, d.trials[k], now))
  }

  /** The positions of all other evaluations are as before. */
  ghost predicate SameElsewhere(db: Db, d: Db, e: EvalId) {
    && (forall k: Key :: k.eval != e ==> (k in d.trials <==> k in db.trials))
    && (forall k :: k in db.trials && k.eval != e ==> k in d.trials && d.trials[k] == db.trials[k])
  }

  ghost predicate IsCreatedRow(db: Db, q: Request, k: Key, t: Trial, now: Time) {
    if !q.reuse then
      t == Trial(t.version, t.digest, Pending, Missing, None, None, None, None, None, None, None)
    else
      && q.source.Some? && Key(q.source.value, k.task, k.idx) in db.trials && IsSound(db, t.run)
      && t.run == db.trials[Key(q.source.value, k.task, k.idx)].run
      && t == Trial(t.version, t.digest, Completed, Reused, t.run, q.source, t.run, db.runs[t.run.value].eval, None, None, Some(now))
  }

  lemma CreatedRowIs(db: Db, q: Request, k: Key, now: Time)
    requires Admissible(db, q, true) && Requested(q.snap, k.task, k.idx)
    ensures PinnedBy(q.snap, k, RowFor(db, q, k, now)) && IsCreatedRow(db, q, k, RowFor(db, q, k, now), now)
  {
    PinIsFirst(q.snap, k, RowFor(db, q, k, now));
    hide PinnedBy, PinOf;
    if q.reuse {
      var from := Key(q.source.value, k.task, k.idx);
      assert from in RequestedKeys(q.source.value, q.snap) && from in KeysOf(db, q.source.value);
      assert ReusableRow(db, q.snap, from);
    }
  }

  lemma CreatedTables(db: Db, e: EvalId, q: Request, now: Time)
    requires Admissible(db, q, true) && e !in db.jobs && forall k :: k in db.trials ==> k.eval != e
    ensures var d := Created(db, e, q, now);
      && d.runs == db.runs
      && d.jobs == db.jobs[e := Job(Queued, false, None, None, if q.reuse then ReuseMode else FreshMode, q.source, q.snap, q.name)]
      && (forall k :: k in d.trials <==> k in db.trials || k in RequestedKeys(e, q.snap))
      && (forall k :: k in db.trials ==> d.trials[k] == db.trials[k])
      && (forall k :: k in RequestedKeys(e, q.snap) ==> d.trials[k] == RowFor(db, q, k, now))
  {
    hide CanReuse, ReusedTrial, NewTrial, UniqueTasks;
  }

  lemma CreatedPlaces(db: Db, e: EvalId, q: Request, now: Time)
    requires Admissible(db, q, true) && e !in db.jobs && forall k :: k in db.trials ==> k.eval != e
    ensures var d := Created(db, e, q, now);
      && SameElsewhere(db, d, e) && HasRequestedRows(d, e, q.snap) && forall k :: k in d.trials && k.eval == e ==> k in RequestedKeys(e, q.snap)
  {
    var d := Created(db, e, q, now);
    CreatedTables(db, e, q, now);
    RequestedRows(d, e, q.snap);
    hide Created, RowFor, Admissible, RequestedKeys, HasRequestedRows;
    assert KeysOf(d, e) == RequestedKeys(e, q.snap);
  }

  lemma CreatedRows(db: Db, e: EvalId, q: Request, now: Time)
    requires Admissible(db, q, true) && e !in db.jobs && forall k :: k in db.trials ==> k.eval != e
    ensures var d := Created(db, e, q, now);
      forall k :: k in d.trials && k.eval == e ==> PinnedBy(q.snap, k, d.trials[k]) && IsCreatedRow(db, q, k, d.trials[k], now)
  {
    var d := Created(db, e, q, now);
    CreatedTables(db, e, q, now);
    CreatedPlaces(db, e, q, now);
    hide Created, RowFor, IsCreatedRow, PinnedBy, Admissible, RequestedKeys, HasRequestedRows, SameElsewhere;
    forall k | k in d.trials && k.eval == e ensures PinnedBy(q.snap, k, d.trials[k]) && IsCreatedRow(db, q, k, d.trials[k], now) {
      assert Requested(q.snap, k.task, k.idx);
      CreatedRowIs(db, q, k, now);
    }
  }

  lemma CreationMeans(db: Db, e: EvalId, q: Request, now: Time)
    requires Admissible(db, q, true) && e !in db.jobs && forall k :: k in db.trials ==> k.eval != e
    ensures IsCreated(db, Created(db, e, q, now), e, q, now)
  {
    CreatedTables(db, e, q, now);
    CreatedPlaces(db, e, q, now);
    CreatedRows(db, e, q, now);
    hide SameElsewhere, Created, RowFor, IsCreatedRow, PinnedBy, Admissible, RequestedKeys, HasRequestedRows;
  }

  lemma KeysBeforeNext(e: EvalId, snap: Snapshot, p: nat, i: nat)
    requires p < |snap.tasks| && i < snap.repeats
    ensures KeysBefore(e, snap, p, i + 1) == KeysBefore(e, snap, p, i) + {Key(e, snap.tasks[p].task, i)}
  {
    forall k | k in KeysBefore(e, snap, p, i) + {Key(e, snap.tasks[p].task, i)}
      ensures k in KeysBefore(e, snap, p, i + 1)
    {
      if k in KeysBefore(e, snap, p, i) {
        var q, j :| 0 <= q < |snap.tasks| && 0 <= j < snap.repeats && (q < p || (q == p && j < i)) && k == Key(e, snap.tasks[q].task, j);
      }
    }
  }

  lemma KeysBeforeTask(e: EvalId, snap: Snapshot, p: nat)
    requires p < |snap.tasks|
    ensures KeysBefore(e, snap, p, snap.repeats) == KeysBefore(e, snap, p + 1, 0)
  {
    forall k | k in KeysBefore(e, snap, p + 1, 0) ensures k in KeysBefore(e, snap, p, snap.repeats) {
      var q, j :| 0 <= q < |snap.tasks| && 0 <= j < snap.repeats && q < p + 1 && k == Key(e, snap.tasks[q].task, j);
      assert q < p || (q == p && j < snap.repeats);
    }
    forall k | k in KeysBefore(e, snap, p, snap.repeats) ensures k in KeysBefore(e, snap, p + 1, 0) {
      var q, j :| 0 <= q < |snap.tasks| && 0 <= j < snap.repeats && (q < p || (q == p && j < snap.repeats))
        && k == Key(e, snap.tasks[q].task, j);
      assert q < p + 1;
    }
  }

  // ---- Recovery of running evaluations (reclaim_stale_running) ----------------------------

  /** What recovery meets at one row: is its owner lock free, does processing raise, does recording its outcome raise, are its
      parameters trustworthy, and which request timeout do they hint at. */
  datatype RowEnv = RowEnv(lockFree: bool, raises: bool, recordRaises: bool, paramsOk: bool, timeoutHint: int)

  datatype Recovery = Recovery(now: Time, staleAfter: int, recoverUnlocked: bool)

  datatype Verdict = LeftAlone | Requeued | MadeUnverifiable

  const DAY: int := 86400

  /** An absurd or negative timeout hint must not disable staleness detection. */
  function StaleBefore(w: Recovery, timeoutHint: int): Time {
    var hint := if timeoutHint < 0 then 0 else if timeoutHint > DAY then DAY else timeoutHint;
    var base := if w.staleAfter < 0 then 0 else w.staleAfter;
    w.now - if base > hint + 60 then base else hint + 60
  }

  function VerdictOn(job: Job, env: RowEnv, w: Recovery): Verdict {
    if !job.status.Running? || !env.lockFree || env.raises then LeftAlone
    else if job.lease.Some? && job.lease.value >= StaleBefore(w, env.timeoutHint) && !w.recoverUnlocked then LeftAlone
    else if env.paramsOk then Requeued
    else MadeUnverifiable
  }

  predicate Raises(job: Job, env: RowEnv) {
    job.status.Running? && env.lockFree && env.raises
  }

  /** Its processing raised, or it was recovered and that could not be recorded. */
  predicate FailedFor(job: Job, env: RowEnv, w: Recovery) {
    Raises(job, env) || (!VerdictOn(job, env, w).LeftAlone? && env.recordRaises)
  }

  function JobAfter(job: Job, v: Verdict): Job {
    match v
    case LeftAlone => job
    case Requeued => job.(status := Queued, token := None, lease := None)
    case MadeUnverifiable => job.(status := Failed, token := None, lease := None)
  }

  function TrialAfter(t: Trial, v: Verdict): Trial {
    if v.Requeued? && t.state.Claimed? then t.(state := Pending, claim := None, claimedAt := None)
    else if v.MadeUnverifiable? && (t.state.Pending? || t.state.Claimed?)
    then t.(state := Blocked, evidence := Unverifiable, claim := None, claimedAt := None)
    else t
  }

  /** The tables once recovery has dealt with the evaluations in `done`. */
  function Recovered(db: Db, done: set<EvalId>, env: EvalId -> RowEnv, w: Recovery): Db {
    Db(map e | e in db.jobs :: if e in done then JobAfter(db.jobs[e], VerdictOn(db.jobs[e], env(e), w)) else db.jobs[e],
       map k | k in db.trials ::
         if k.eval in done && k.eval in db.jobs
         then TrialAfter(db.trials[k], VerdictOn(db.jobs[k.eval], env(k.eval), w)) else db.trials[k],
       db.runs)
  }

  // ---- What recovery means for one evaluation ---------------------------------------------

  /** The owner renewed its lease no longer ago than the configured window, or than one request may take and a minute:
      a timeout hint counts for at most a day, and a negative one for nothing. */
  predicate LeaseIsCurrent(lease: Time, timeoutHint: int, w: Recovery) {
    var age := w.now - lease;
    age <= w.staleAfter || age <= 60 || (age <= timeoutHint + 60 && age <= 86460)
  }

  /** The evaluation's row and all its positions are as before. */
  ghost predicate Untouched(db: Db, d: Db, e: EvalId) {
    && (e in db.jobs <==> e in d.jobs) && (e in db.jobs ==> d.jobs[e] == db.jobs[e])
    && (forall k: Key :: k.eval == e ==> (k in d.trials <==> k in db.trials))
    && (forall k :: k in db.trials && k.eval == e ==> k in d.trials && d.trials[k] == db.trials[k])
  }

  /** Queued again without an owner; its claimed positions are pending, all others as before. */
  ghost predicate PutBack(db: Db, d: Db, e: EvalId)
    requires e in db.jobs
  {
    && e in d.jobs && d.jobs[e] == db.jobs[e].(status := Queued, token := None, lease := None)
    && forall k :: k in db.trials && k.eval == e ==>
         && k in d.trials && (!db.trials[k].state.Claimed? ==> d.trials[k] == db.trials[k])
         && (db.trials[k].state.Claimed? ==> d.trials[k] == db.trials[k].(state := Pending, claim := None, claimedAt := None))
  }

  /** Failed without an owner; every pending or claimed position is blocked as unverifiable, all others as before. */
  ghost predicate GivenUp(db: Db, d: Db, e: EvalId)
    requires e in db.jobs
  {
    && e in d.jobs && d.jobs[e] == db.jobs[e].(status := Failed, token := None, lease := None)
    && forall k :: k in db.trials && k.eval == e ==>
         && k in d.trials
         && (db.trials[k].state.Completed? || db.trials[k].state.Blocked? ==> d.trials[k] == db.trials[k])
         && (db.trials[k].state.Pending? || db.trials[k].state.Claimed? ==>
               d.trials[k] == db.trials[k].(state := Blocked, evidence := Unverifiable, claim := None, claimedAt := None))
  }

  /** A running evaluation keeps its row, its owner and its positions while its lock is held or its lease is current; with both
      gone it is put back, or given up when its parameters are not trustworthy; the two lists say which. */
  ghost predicate RecoveryOutcome(db: Db, d: Db, e: EvalId, env: RowEnv, w: Recovery, ids: seq<EvalId>, failures: seq<EvalId>)
    requires e in db.jobs
  {
    var job := db.jobs[e];
    if !job.status.Running? || !env.lockFree then
      Untouched(db, d, e) && e !in ids && e !in failures
    else if env.raises then
      Untouched(db, d, e) && e !in ids && e in failures
    else if job.lease.Some? && LeaseIsCurrent(job.lease.value, env.timeoutHint, w) && !w.recoverUnlocked then
      Untouched(db, d, e) && e !in ids && e !in failures
    else if env.paramsOk then
      PutBack(db, d, e) && e in ids && (e in failures <==> env.recordRaises)
    else
      GivenUp(db, d, e) && e !in ids && (e in failures <==> env.recordRaises)
  }

  lemma StalenessMeans(w: Recovery, timeoutHint: int, lease: Time)
    ensures lease >= StaleBefore(w, timeoutHint) <==> LeaseIsCurrent(lease, timeoutHint, w)
  {
  }

  lemma OutcomeOf(db: Db, e: EvalId, env: EvalId -> RowEnv, w: Recovery, ids: seq<EvalId>, failures: seq<EvalId>)
    requires e in db.jobs && Reported(ids, failures, db.jobs, db.jobs.Keys, env, w)
    ensures RecoveryOutcome(db, Recovered(db, db.jobs.Keys, env, w), e, env(e), w, ids, failures)
  {
    var d, job := Recovered(db, db.jobs.Keys, env, w), db.jobs[e];
    if job.lease.Some? { StalenessMeans(w, env(e).timeoutHint, job.lease.value); }
    hide StaleBefore, LeaseIsCurrent;
    assert forall k :: k in d.trials <==> k in db.trials;
  }

  /** ids and unverifiable list exactly the evaluations with that verdict, failures exactly those whose processing raised. */
  ghost predicate Triaged(ids: seq<EvalId>, unverifiable: seq<EvalId>, failures: seq<EvalId>, read: map<EvalId, Job>, done: set<EvalId>,
                          env: EvalId -> RowEnv, w: Recovery)
  {
    && (forall e :: e in ids <==> e in done && e in read && VerdictOn(read[e], env(e), w).Requeued?)
    && (forall e :: e in unverifiable <==> e in done && e in read && VerdictOn(read[e], env(e), w).MadeUnverifiable?)
    && (forall e :: e in failures <==> e in done && e in read && Raises(read[e], env(e)))
  }

  /** ids lists exactly the requeued evaluations; failures those whose processing raised and those whose recovery could not
      be recorded, which recovered them all the same. */
  ghost predicate Reported(ids: seq<EvalId>, failures: seq<EvalId>, read: map<EvalId, Job>, done: set<EvalId>,
                           env: EvalId -> RowEnv, w: Recovery)
  {
    && (forall e :: e in ids <==> e in done && e in read && VerdictOn(read[e], env(e), w).Requeued?)
    && (forall e :: e in failures <==> e in done && e in read && FailedFor(read[e], env(e), w))
  }

  lemma ReportNext(ids: seq<EvalId>, unverifiable: seq<EvalId>, failures: seq<EvalId>, read: map<EvalId, Job>, done: set<EvalId>,
                   e: EvalId, env: EvalId -> RowEnv, w: Recovery)
    requires e in read && Triaged(ids, unverifiable, failures, read, done, env, w)
    ensures var v := VerdictOn(read[e], env(e), w);
      Triaged(if v.Requeued? then ids + [e] else ids, if v.MadeUnverifiable? then unverifiable + [e] else unverifiable,
              if Raises(read[e], env(e)) then failures + [e] else failures, read, done + {e}, env, w)
  {
  }

  lemma AllReported(ids: seq<EvalId>, unverifiable: seq<EvalId>, raised: seq<EvalId>, failures: seq<EvalId>,
                    db: Db, running: set<EvalId>, env: EvalId -> RowEnv, w: Recovery)
    requires forall e :: e in running <==> e in db.jobs && db.jobs[e].status.Running?
    requires Triaged(ids, unverifiable, raised, db.jobs, running, env, w)
    requires forall e :: e in failures <==> e in raised || ((e in unverifiable || e in ids) && env(e).recordRaises)
    ensures Reported(ids, failures, db.jobs, db.jobs.Keys, env, w)
  {
    forall e | e in db.jobs && e !in running ensures !db.jobs[e].status.Running? {}
  }

  /** _record_recovery_outcome for each of these: what cannot be recorded is a failure, and the rest are still recorded. */
  method RecordOutcomes(recovered: seq<EvalId>, failures: seq<EvalId>, env: EvalId -> RowEnv) returns (more: seq<EvalId>)
    ensures forall e :: e in more <==> e in failures || (e in recovered && env(e).recordRaises)
  {
    more := failures;
    for i := 0 to |recovered|
      invariant forall e :: e in more <==> e in failures || (e in recovered[..i] && env(e).recordRaises)
    {
      assert recovered[..i + 1] == recovered[..i] + [recovered[i]];
      if env(recovered[i]).recordRaises { more := more + [recovered[i]]; }
    }
    assert recovered[..|recovered|] == recovered;
  }

  lemma NothingRecovered(db: Db, env: EvalId -> RowEnv, w: Recovery)
    ensures Recovered(db, {}, env, w) == db
  {
    assert Recovered(db, {}, env, w).jobs == db.jobs;
    assert Recovered(db, {}, env, w).trials == db.trials;
  }

  lemma OnlyRunningRowsMatter(db: Db, running: set<EvalId>, env: EvalId -> RowEnv, w: Recovery)
    requires forall e :: e in running <==> e in db.jobs && db.jobs[e].status.Running?
    ensures Recovered(db, running, env, w) == Recovered(db, db.jobs.Keys, env, w)
  {
    var a, b := Recovered(db, running, env, w), Recovered(db, db.jobs.Keys, env, w);
    forall e | e in db.jobs ensures a.jobs[e] == b.jobs[e] {
      if db.jobs[e].status.Running? { assert e in running; }
    }
    assert a.jobs.Keys == b.jobs.Keys;
    assert a.jobs == b.jobs;
    assert a.trials == b.trials;
  }

  method Pick<T(==)>(s: set<T>) returns (x: T)
    requires s != {}
    ensures x in s
  {
    x :| x in s;
  }

  lemma RecoverOneMore(db: Db, done: set<EvalId>, e: EvalId, env: EvalId -> RowEnv, w: Recovery)
    requires e in db.jobs && db.jobs[e].status.Running? && e !in done
    ensures var d, v := Recovered(db, done, env, w), VerdictOn(db.jobs[e], env(e), w);
      && e in d.jobs && d.jobs[e] == db.jobs[e]
      && Recovered(db, done + {e}, env, w)
         == if v.Requeued? then Requeue(d, e, db.jobs[e].token, db.jobs[e].lease)
            else if v.MadeUnverifiable? then FailUnverifiable(d, e, db.jobs[e].token, db.jobs[e].lease)
            else d
  {
    var d, v := Recovered(db, done, env, w), VerdictOn(db.jobs[e], env(e), w);
    var next := if v.Requeued? then Requeue(d, e, db.jobs[e].token, db.jobs[e].lease)
                else if v.MadeUnverifiable? then FailUnverifiable(d, e, db.jobs[e].token, db.jobs[e].lease)
                else d;
    assert Recovered(db, done + {e}, env, w).jobs == next.jobs;
    assert Recovered(db, done + {e}, env, w).trials == next.trials;
  }

  class ControlPlane {
    var jobs: map<EvalId, Job>
    var trials: map<Key, Trial>
    var runs: map<RunId, Run>
    var nextToken: Token
    var nextRun: RunId

    function Contents(): Db
      reads this
    {
      Db(jobs, trials, runs)
    }

    /** Raw run ids are handed out in order. */
    ghost predicate Valid()
      reads this
    {
      forall r :: r in runs ==> r < nextRun
    }

    constructor ()
      ensures Valid() && Contents() == Db(map[], map[], map[])
    {
      jobs, trials, runs, nextToken, nextRun := map[], map[], map[], 0, 0;
    }

    // ---- Queries ---------------------------------------------------------------------------

    method TrialRows(e: EvalId) returns (keys: seq<Key>)
      ensures RowsInOrder(Contents(), e, keys)
    {
      keys := ListRows(Contents(), e);
    }

    method AllTrialsCompleted(e: EvalId) returns (all: bool)
      ensures all <==> AllCompleted(Contents(), e)
    {
      all := forall k | k in trials :: k.eval == e ==> trials[k].state.Completed?;
    }

    // ---- Ownership -------------------------------------------------------------------------

    method ClaimJobToken(e: EvalId, now: Time) returns (token: Option<Token>)
      modifies `jobs, `nextToken
      ensures Contents() == ClaimJob(old(Contents()), e, old(nextToken), now) && nextToken == old(nextToken) + 1
      ensures token == if CanClaimJob(old(Contents()), e) then Some(old(nextToken)) else None
      ensures token.Some? <==> e in old(jobs) && old(jobs)[e].status.Queued? && old(jobs)[e].token.None?
      ensures token.Some? ==>
        && token.value == old(nextToken)
        && jobs == old(jobs)[e := old(jobs)[e].(status := Running, token := token, lease := Some(now))]
      ensures token.None? ==> jobs == old(jobs)
    {
      var drawn := nextToken;
      nextToken := nextToken + 1;
      if e in jobs && jobs[e].status.Queued? && jobs[e].token.None? {
        jobs := jobs[e := jobs[e].(status := Running, token := Some(drawn), lease := Some(now))];
        return Some(drawn);
      }
      return None;
    }

    method TouchOwner(e: EvalId, owner: Token, now: Time) returns (renewed: bool)
      modifies `jobs
      ensures Contents() == Tables.TouchOwner(old(Contents()), e, owner, now)
      ensures renewed <==> e in old(jobs) && old(jobs)[e].status.Running? && old(jobs)[e].token == Some(owner)
      ensures jobs == if renewed then old(jobs)[e := old(jobs)[e].(lease := Some(now))] else old(jobs)
    {
      renewed := e in jobs && jobs[e].status.Running? && jobs[e].token == Some(owner);
      if renewed { jobs := jobs[e := jobs[e].(lease := Some(now))]; }
    }

    method MarkTerminal(e: EvalId, status: Status, owner: Token)
      modifies `jobs
      ensures Contents() == Tables.MarkTerminal(old(Contents()), e, status, owner)
      ensures jobs == if e in old(jobs) && old(jobs)[e].status.Running? && old(jobs)[e].token == Some(owner)
                      then old(jobs)[e := old(jobs)[e].(status := status, token := None, lease := None)] else old(jobs)
    {
      if e in jobs && jobs[e].token == Some(owner) && jobs[e].status.Running? {
        jobs := jobs[e := jobs[e].(status := status, token := None, lease := None)];
      }
    }

    method RequestCancel(e: EvalId)
      modifies `jobs
      ensures Contents() == Tables.RequestCancel(old(Contents()), e)
      ensures e in old(jobs) && old(jobs)[e].status.Queued? ==> jobs == old(jobs)[e := old(jobs)[e].(status := Canceled, cancel := true)]
      ensures e in old(jobs) && old(jobs)[e].status.Running? ==> jobs == old(jobs)[e := old(jobs)[e].(cancel := true)]
      ensures e !in old(jobs) || (!old(jobs)[e].status.Queued? && !old(jobs)[e].status.Running?) ==> jobs == old(jobs)
    {
      if e in jobs && (jobs[e].status.Queued? || jobs[e].status.Running?) {
        var status := if jobs[e].status.Queued? then Canceled else jobs[e].status;
        jobs := jobs[e := jobs[e].(cancel := true, status := status)];
      }
    }

    method ResumeJob(e: EvalId) returns (resumed: bool)
      modifies `jobs, `trials
      ensures resumed == CanResume(old(Contents()), e)
      ensures Contents() == Resume(old(Contents()), e)
      ensures resumed <==>
        && e in old(jobs) && !old(jobs)[e].mode.Legacy? && old(jobs)[e].token.None?
        && (old(jobs)[e].status.Failed? || old(jobs)[e].status.Canceled? || old(jobs)[e].status.Queued?)
      ensures !resumed ==> jobs == old(jobs) && trials == old(trials)
      ensures resumed ==> jobs == old(jobs)[e := old(jobs)[e].(status := Queued, cancel := false, token := None, lease := None)]
      ensures resumed ==>
        && trials.Keys == old(trials).Keys
        && forall k :: k in trials ==> if k.eval == e && old(trials)[k].state.Blocked? && old(trials)[k].evidence.Unverifiable?
             then trials[k] == old(trials)[k].(state := Pending, evidence := Missing, claim := None, claimedAt := None)
             else trials[k] == old(trials)[k]
    {
      resumed := e in jobs && !jobs[e].mode.Legacy? && jobs[e].token.None?
                 && (jobs[e].status.Failed? || jobs[e].status.Canceled? || jobs[e].status.Queued?);
      if !resumed { return; }
      jobs := jobs[e := jobs[e].(status := Queued, cancel := false, token := None, lease := None)];
      trials := map k | k in trials ::
        if k.eval == e && trials[k].state.Blocked? && trials[k].evidence.Unverifiable?
        then trials[k].(state := Pending, evidence := Missing, claim := None, claimedAt := None)
        else trials[k];
    }

    // ---- Trials ----------------------------------------------------------------------------

    method ClaimTrial(k: Key, owner: Token, now: Time) returns (claim: Option<Token>)
      modifies `trials, `nextToken
      ensures Contents() == Tables.ClaimTrial(old(Contents()), k, owner, old(nextToken), now)
      ensures nextToken == old(nextToken) + 1
      ensures claim == if CanClaimTrial(old(Contents()), k, owner) then Some(old(nextToken)) else None
      ensures claim.Some? <==>
        && k in old(trials) && old(trials)[k].state.Pending?
        && k.eval in jobs && jobs[k.eval].status.Running? && jobs[k.eval].token == Some(owner)
      ensures trials == if claim.Some? then old(trials)[k := old(trials)[k].(state := Claimed, claim := claim, claimedAt := Some(now))]
                        else old(trials)
    {
      var drawn := nextToken;
      nextToken := nextToken + 1;
      if k in trials && trials[k].state.Pending?
         && k.eval in jobs && jobs[k.eval].status.Running? && jobs[k.eval].token == Some(owner) {
        trials := trials[k := trials[k].(state := Claimed, claim := Some(drawn), claimedAt := Some(now))];
        return Some(drawn);
      }
      return None;
    }

    method CompleteTrial(k: Key, owner: Token, claim: Token, r: RunId, now: Time) returns (completed: bool)
      modifies `trials
      ensures completed == CanComplete(old(Contents()), k, owner, claim)
      ensures completed <==>
        && k in old(trials) && old(trials)[k].state.Claimed? && old(trials)[k].claim == Some(claim)
        && k.eval in jobs && jobs[k.eval].status.Running? && jobs[k.eval].token == Some(owner)
      ensures !completed ==> trials == old(trials)
      ensures completed ==> trials == old(trials)[k := old(trials)[k].(state := Completed, evidence := Fresh, run := Some(r),
                                source := None, sourceRun := None, origin := Some(k.eval), claim := None, completedAt := Some(now))]
    {
      completed := k in trials && trials[k].state.Claimed? && trials[k].claim == Some(claim)
                   && k.eval in jobs && jobs[k.eval].status.Running? && jobs[k.eval].token == Some(owner);
      if completed {
        trials := trials[k := trials[k].(state := Completed, evidence := Fresh, run := Some(r), source := None,
                                         sourceRun := None, origin := Some(k.eval), claim := None, completedAt := Some(now))];
      }
    }

    /** save_run(commit=False), complete_trial, commit; a lost claim rolls the inserted run back. */
    method SaveRunAndComplete(k: Key, owner: Token, claim: Token, run: Run, now: Time) returns (persisted: Option<RunId>)
      requires Valid()
      modifies `trials, `runs, `nextRun
      ensures Valid() && nextRun == old(nextRun) + 1
      ensures persisted == if CanComplete(old(Contents()), k, owner, claim) then Some(old(nextRun)) else None
      ensures Contents() == Persist(old(Contents()), k, owner, claim, old(nextRun), run, now)
      ensures persisted.Some? ==>
        && runs == old(runs)[persisted.value := run] && k in old(trials)
        && trials == old(trials)[k := old(trials)[k].(state := Completed, evidence := Fresh, run := persisted, source := None,
                                   sourceRun := None, origin := Some(k.eval), claim := None, completedAt := Some(now))]
      ensures persisted.None? ==> runs == old(runs) && trials == old(trials)
    {
      var r := nextRun;
      var before := runs;
      nextRun, runs := nextRun + 1, runs[r := run];
      var completed := CompleteTrial(k, owner, claim, r, now);
      if !completed {
        runs := before;
        return None;
      }
      return Some(r);
    }

    method ReleaseClaim(k: Key, claim: Token)
      modifies `trials
      ensures Contents() == Tables.ReleaseClaim(old(Contents()), k, claim)
      ensures trials == if k in old(trials) && old(trials)[k].state.Claimed? && old(trials)[k].claim == Some(claim)
                        then old(trials)[k := old(trials)[k].(state := Pending, claim := None, claimedAt := None)] else old(trials)
    {
      if k in trials && trials[k].state.Claimed? && trials[k].claim == Some(claim) {
        trials := trials[k := trials[k].(state := Pending, claim := None, claimedAt := None)];
      }
    }

    method MarkTrialUnverifiable(e: EvalId, task: TaskId, owner: Token)
      modifies `trials
      ensures Contents() == BlockTask(old(Contents()), e, task, owner)
      ensures trials.Keys == old(trials).Keys
      ensures e in jobs && jobs[e].status.Running? && jobs[e].token == Some(owner) ==>
        forall k :: k in trials && k.eval == e && k.task == task && !old(trials)[k].state.Completed? ==>
          trials[k] == old(trials)[k].(state := Blocked, evidence := Unverifiable)
      ensures forall k :: k in trials && (k.eval != e || k.task != task || old(trials)[k].state.Completed?) ==> trials[k] == old(trials)[k]
      ensures e !in jobs || !jobs[e].status.Running? || jobs[e].token != Some(owner) ==> trials == old(trials)
    {
      if e in jobs && jobs[e].status.Running? && jobs[e].token == Some(owner) {
        trials := map k | k in trials ::
          if k.eval == e && k.task == task && !trials[k].state.Completed?
          then trials[k].(state := Blocked, evidence := Unverifiable)
          else trials[k];
      }
    }

    // ---- Recovery --------------------------------------------------------------------------

    /** Both recovery transitions re-check the row they read; the trial rows change in the same savepoint. */
    method ReclaimOne(e: EvalId, token: Option<Token>, lease: Option<Time>, env: RowEnv, w: Recovery) returns (v: Verdict)
      modifies `jobs, `trials
      ensures v.Requeued? ==> StillAsRead(old(Contents()), e, token, lease) && Contents() == Requeue(old(Contents()), e, token, lease)
      ensures v.MadeUnverifiable? ==>
        StillAsRead(old(Contents()), e, token, lease) && Contents() == FailUnverifiable(old(Contents()), e, token, lease)
      ensures v.LeftAlone? ==> Contents() == old(Contents())
      ensures StillAsRead(old(Contents()), e, token, lease) ==> v == VerdictOn(old(jobs)[e], env, w)
      ensures v.Requeued? ==> e in old(jobs) && PutBack(old(Contents()), Contents(), e)
      ensures v.MadeUnverifiable? ==> e in old(jobs) && GivenUp(old(Contents()), Contents(), e)
      ensures e in old(jobs) && old(jobs)[e].lease.Some? && LeaseIsCurrent(old(jobs)[e].lease.value, env.timeoutHint, w) ==>
        w.recoverUnlocked || v.LeftAlone?
    {
      if e in jobs && jobs[e].lease.Some? { StalenessMeans(w, env.timeoutHint, jobs[e].lease.value); }
      if !env.lockFree || env.raises { return LeftAlone; }
      if lease.Some? {
        var stale := e in jobs && jobs[e].lease.Some? && jobs[e].lease.value < StaleBefore(w, env.timeoutHint);
        if !stale && !w.recoverUnlocked { return LeftAlone; }
      }
      if !(e in jobs && jobs[e].status.Running? && jobs[e].token == token && jobs[e].lease == lease) { return LeftAlone; }
      if env.paramsOk {
        jobs := jobs[e := jobs[e].(status := Queued, token := None, lease := None)];
        trials := map k | k in trials ::
          if k.eval == e && trials[k].state.Claimed?
          then trials[k].(state := Pending, claim := None, claimedAt := None) else trials[k];
        return Requeued;
      } else {
        jobs := jobs[e := jobs[e].(status := Failed, token := None, lease := None)];
        trials := map k | k in trials ::
          if k.eval == e && (trials[k].state.Pending? || trials[k].state.Claimed?)
          then trials[k].(state := Blocked, evidence := Unverifiable, claim := None, claimedAt := None) else trials[k];
        return MadeUnverifiable;
      }
    }

    /** One row of a recovery pass that has dealt with `done` since the tables were `db`. */
    method ReclaimNext(e: EvalId, read: Job, env: EvalId -> RowEnv, w: Recovery, ghost db: Db, ghost done: set<EvalId>)
      returns (v: Verdict)
      requires e in db.jobs && db.jobs[e] == read && read.status.Running? && e !in done
      requires Contents() == Recovered(db, done, env, w)
      modifies `jobs, `trials
      ensures v == VerdictOn(read, env(e), w)
      ensures Contents() == Recovered(db, done + {e}, env, w)
    {
      RecoverOneMore(db, done, e, env, w);
      v := ReclaimOne(e, read.token, read.lease, env(e), w);
    }

    /** SELECT ... WHERE status='running', each row once, in whatever order. */
    method RunningRows() returns (rows: seq<EvalId>)
      ensures forall e :: e in rows <==> e in jobs && jobs[e].status.Running?
      ensures forall i, j :: 0 <= i < j < |rows| ==> rows[i] != rows[j]
    {
      rows := [];
      var todo := set e | e in jobs && jobs[e].status.Running?;
      while todo != {}
        invariant forall e :: e in jobs && jobs[e].status.Running? <==> e in todo || e in rows
        invariant forall e :: e in rows ==> e !in todo
        invariant forall i, j :: 0 <= i < j < |rows| ==> rows[i] != rows[j]
        decreases |todo|
      {
        var e := Pick(todo);
        rows, todo := rows + [e], todo - {e};
      }
    }

    /** Rows are isolated: whatever order they come in and whichever of them raise, every other one is recovered, and one whose
        outcome cannot be recorded stays recovered. */
    method ReclaimStaleRunning(env: EvalId -> RowEnv, w: Recovery) returns (ids: seq<EvalId>, failures: seq<EvalId>)
      modifies `jobs, `trials
      ensures Contents() == Recovered(old(Contents()), old(jobs).Keys, env, w)
      ensures Reported(ids, failures, old(jobs), old(jobs).Keys, env, w)
      ensures jobs.Keys == old(jobs).Keys && trials.Keys == old(trials).Keys
      ensures forall e :: e in old(jobs) ==> RecoveryOutcome(old(Contents()), Contents(), e, env(e), w, ids, failures)
      ensures forall e :: e in ids || e in failures ==> e in old(jobs)
    {
      ids, failures := [], [];
      var unverifiable: seq<EvalId> := [];
      var read := jobs;
      var rows := RunningRows();
      ghost var db := Contents();
      ghost var done: set<EvalId> := {};
      NothingRecovered(db, env, w);
      for i := 0 to |rows|
        invariant forall e :: e in done <==> e in rows[..i]
        invariant Contents() == Recovered(db, done, env, w)
        invariant Triaged(ids, unverifiable, failures, read, done, env, w)
      {
        var e := rows[i];
        var v := ReclaimNext(e, read[e], env, w, db, done);
        ReportNext(ids, unverifiable, failures, read, done, e, env, w);
        hide Triaged;
        if v.Requeued? {
          ids := ids + [e];
        } else if v.MadeUnverifiable? {
          unverifiable := unverifiable + [e];
        }
        if Raises(read[e], env(e)) { failures := failures + [e]; }
        done := done + {e};
        assert rows[..i + 1] == rows[..i] + [e];
      }
      assert rows[..|rows|] == rows;
      OnlyRunningRowsMatter(db, done, env, w);
      ghost var raised := failures;
      failures := RecordOutcomes(unverifiable, failures, env);
      failures := RecordOutcomes(ids, failures, env);
      AllReported(ids, unverifiable, raised, failures, db, done, env, w);
      forall e: EvalId | e in db.jobs ensures RecoveryOutcome(db, Contents(), e, env(e), w, ids, failures) {
        OutcomeOf(db, e, env, w, ids, failures);
      }
    }

    // ---- Creation --------------------------------------------------------------------------

    /** The reuse branch's checks; collects where each row's raw run came from. */
    method CheckReuse(source: EvalId, snap: Snapshot) returns (ok: bool, origins: map<Key, Option<EvalId>>)
      ensures ok == CanReuse(Contents(), source, snap)
      ensures ok <==> SoundSource(Contents(), source, snap)
      ensures ok ==> OriginsOf(Contents(), source, origins)
    {
      ok, origins := false, map[];
      ReuseNeedsSoundSource(Contents(), source, snap);
      hide SoundSource;
      if source !in jobs || jobs[source].mode.Legacy? || jobs[source].snapshot != snap { return; }
      var keys := TrialRows(source);
      assert (set k | k in keys) == KeysOf(Contents(), source);
      if (set k | k in keys) != RequestedKeys(source, snap) { return; }
      hide ReusableRow, RequestedKeys, RowOrigin;
      ok, origins := CheckRows(snap, keys);
    }

    /** The source's rows, one by one, up to the first that cannot be reused. */
    method CheckRows(snap: Snapshot, keys: seq<Key>) returns (ok: bool, origins: map<Key, Option<EvalId>>)
      ensures ok <==> forall k :: k in keys ==> ReusableRow(Contents(), snap, k)
      ensures ok ==> origins.Keys == (set k | k in keys) && forall k :: k in keys ==> RowOrigin(Contents(), k, origins[k])
    {
      hide ReusableRow, RowOrigin;
      ok, origins := true, map[];
      for i := 0 to |keys|
        invariant forall j :: 0 <= j < i ==> ReusableRow(Contents(), snap, keys[j])
        invariant forall k :: k in origins <==> k in keys[..i]
        invariant forall k :: k in origins ==> RowOrigin(Contents(), k, origins[k])
      {
        if !ReusableRow(Contents(), snap, keys[i]) { return false, map[]; }
        ReusableHasRun(Contents(), snap, keys[i]);
        origins := origins[keys[i] := runs[trials[keys[i]].run.value].eval];
        assert keys[..i + 1] == keys[..i] + [keys[i]];
      }
      assert keys[..|keys|] == keys;
    }

    /** INSERT of the rows of one task, after `executed` statements; at the statement that raises it stops. */
    method InsertTaskRows(e: EvalId, q: Request, p: nat, origins: map<Key, Option<EvalId>>, executed: nat,
                          failsAt: Option<nat>, now: Time, ghost db: Db)
      returns (ok: bool)
      requires Admissible(db, q, true) && p < |q.snap.tasks| && e !in db.jobs && forall k :: k in db.trials ==> k.eval != e
      requires q.reuse ==> OriginsOf(db, q.source.value, origins)
      requires trials == WithRows(db, e, q, p, 0, now) && (failsAt.Some? ==> failsAt.value >= executed)
      modifies `trials
      ensures ok ==> trials == WithRows(db, e, q, p + 1, 0, now)
      ensures ok <==> (failsAt.Some? ==> failsAt.value >= executed + q.snap.repeats)
    {
      var pin := q.snap.tasks[p];
      for i := 0 to q.snap.repeats
        invariant failsAt.Some? ==> failsAt.value >= executed + i
        invariant trials == WithRows(db, e, q, p, i, now)
      {
        if failsAt == Some(executed + i) { return false; }
        var row := Trial(pin.version, pin.digest, Pending, Missing, None, None, None, None, None, None, None);
        if q.reuse {
          var from := Key(q.source.value, pin.task, i);
          SourceRow(db, e, q, p, i, now);
          row := Trial(pin.version, pin.digest, Completed, Reused, trials[from].run, q.source,
                       trials[from].run, origins[from], None, None, Some(now));
        }
        RowIs(db, e, q, p, i, origins, now);
        NextRow(db, e, q, p, i, now);
        trials := trials[Key(e, pin.task, i) := row];
      }
      LastRow(db, e, q, p, now);
      return true;
    }

    /** Creates the evaluation with all its trial rows, or nothing: failsAt is the statement at which the database raises,
        counted from the insert of the evaluation row to the commit. */
    method CreateJob(e: EvalId, q: Request, sourceParamsOk: bool, failsAt: Option<nat>, now: Time)
      returns (result: Result<EvalId, CreateError>)
      requires e !in jobs && forall k :: k in trials ==> k.eval != e
      modifies `jobs, `trials
      ensures result.Err? ==> Contents() == old(Contents())
      ensures result.Ok? <==> Admissible(old(Contents()), q, sourceParamsOk)
                               && (failsAt.Some? ==> failsAt.value >= 2 + |q.snap.tasks| * q.snap.repeats)
      ensures result.Ok? ==> result.value == e && Contents() == Created(old(Contents()), e, q, now)
      ensures result.Ok? ==> IsCreated(old(Contents()), Contents(), e, q, now)
    {
      hide IsCreated, RowFor, RowsBefore, WithRows, CanReuse, OriginsOf, RequestedKeys, KeysBefore, UniqueTasks;
      ghost var db := Contents();
      if q.reuse && q.source.None? { return Err(SourceRequired); }
      if !q.reuse && q.source.Some? { return Err(SourceForbidden); }
      if |q.snap.tasks| == 0 { return Err(NoTasks); }
      if !UniqueTasks(q.snap) { return Err(DuplicateTasks); }
      var origins := map[];
      if q.reuse {
        var usable;
        usable, origins := CheckReuse(q.source.value, q.snap);
        if !usable || !sourceParamsOk { return Err(SourceUnusable); }
      }
      var jobsBefore, trialsBefore := jobs, trials;
      if failsAt == Some(0) { return Err(StatementFailed); }
      jobs := jobs[e := Job(Queued, false, None, None, if q.reuse then ReuseMode else FreshMode, q.source, q.snap, q.name)];
      NoRowsBefore(db, e, q, now);
      for p := 0 to |q.snap.tasks|
        invariant failsAt.Some? ==> failsAt.value >= 1 + p * q.snap.repeats
        invariant jobs == Created(db, e, q, now).jobs
        invariant trials == WithRows(db, e, q, p, 0, now)
      {
        var ok := InsertTaskRows(e, q, p, origins, 1 + p * q.snap.repeats, failsAt, now, db);
        InsertsRemain(|q.snap.tasks|, q.snap.repeats, p);
        if !ok {
          jobs, trials := jobsBefore, trialsBefore;
          return Err(StatementFailed);
        }
      }
      if failsAt == Some(1 + |q.snap.tasks| * q.snap.repeats) {
        jobs, trials := jobsBefore, trialsBefore;
        return Err(StatementFailed);
      }
      AllRowsBefore(db, e, q, now);
      CreationMeans(db, e, q, now);
      return Ok(e);
    }
  }

  /** The rows before position (p, i) of evaluation e, in the order of insertion. */
  ghost function RowsBefore(db: Db, e: EvalId, q: Request, p: nat, i: nat, now: Time): (rows: map<Key, Trial>)
    requires Admissible(db, q, true) && p <= |q.snap.tasks|
    ensures rows.Keys == KeysBefore(e, q.snap, p, i)
    ensures forall k :: k in rows ==> Requested(q.snap, k.task, k.idx) && rows[k] == RowFor(db, q, k, now)
  {
    map k | k in KeysBefore(e, q.snap, p, i) :: RowFor(db, q, k, now)
  }

  /** The trials table once the rows before position (p, i) of evaluation e are inserted. */
  ghost function WithRows(db: Db, e: EvalId, q: Request, p: nat, i: nat, now: Time): map<Key, Trial>
    requires Admissible(db, q, true) && p <= |q.snap.tasks|
  {
    db.trials + RowsBefore(db, e, q, p, i, now)
  }

  /** o is the evaluation recorded on the raw run of row k. */
  ghost predicate RowOrigin(db: Db, k: Key, o: Option<EvalId>) {
    && k in db.trials && db.trials[k].run.Some? && db.trials[k].run.value in db.runs
    && o == db.runs[db.trials[k].run.value].eval
  }

  ghost predicate OriginsOf(db: Db, source: EvalId, origins: map<Key, Option<EvalId>>) {
    && origins.Keys == KeysOf(db, source)
    && forall k :: k in origins ==> RowOrigin(db, k, origins[k])
  }

  lemma ReusableHasRun(db: Db, snap: Snapshot, k: Key)
    requires ReusableRow(db, snap, k)
    ensures k in db.trials && db.trials[k].run.Some? && db.trials[k].run.value in db.runs
    ensures RowOrigin(db, k, db.runs[db.trials[k].run.value].eval)
  {
  }

  lemma NoRowsBefore(db: Db, e: EvalId, q: Request, now: Time)
    requires Admissible(db, q, true)
    ensures WithRows(db, e, q, 0, 0, now) == db.trials
  {
    assert KeysBefore(e, q.snap, 0, 0) == {};
  }

  lemma AllKeysBefore(e: EvalId, snap: Snapshot)
    ensures RequestedKeys(e, snap) == KeysBefore(e, snap, |snap.tasks|, 0)
  {
  }

  lemma AllRowsBefore(db: Db, e: EvalId, q: Request, now: Time)
    requires Admissible(db, q, true)
    ensures WithRows(db, e, q, |q.snap.tasks|, 0, now) == Created(db, e, q, now).trials
  {
    hide RequestedKeys, CanReuse, UniqueTasks, RowsBefore, ReusedTrial, NewTrial;
    AllKeysBefore(e, q.snap);
    var keys := RequestedKeys(e, q.snap);
    if q.reuse {
      SameRows(db.trials, RowsBefore(db, e, q, |q.snap.tasks|, 0, now), map k | k in keys :: ReusedTrial(db, q.source.value, q.snap, k, now));
    } else {
      SameRows(db.trials, RowsBefore(db, e, q, |q.snap.tasks|, 0, now), map k | k in keys :: NewTrial(q.snap, k));
    }
  }

  lemma SameRows<V>(base: map<Key, V>, a: map<Key, V>, b: map<Key, V>)
    requires a.Keys == b.Keys && forall k :: k in a ==> a[k] == b[k]
    ensures base + a == base + b
  {
    assert a == b;
  }

  lemma AddRow<V>(base: map<Key, V>, before: map<Key, V>, k: Key, v: V, after: map<Key, V>)
    requires after.Keys == before.Keys + {k} && after[k] == v
    requires forall j :: j in before && j != k ==> after[j] == before[j]
    ensures base + after == (base + before)[k := v]
  {
  }

  lemma NextRow(db: Db, e: EvalId, q: Request, p: nat, i: nat, now: Time)
    requires Admissible(db, q, true) && p < |q.snap.tasks| && i < q.snap.repeats
    ensures var k := Key(e, q.snap.tasks[p].task, i);
      && Requested(q.snap, k.task, k.idx)
      && WithRows(db, e, q, p, i + 1, now) == WithRows(db, e, q, p, i, now)[k := RowFor(db, q, k, now)]
  {
    KeysBeforeNext(e, q.snap, p, i);
    hide Admissible, RowFor, KeysBefore, RowsBefore;
    var k := Key(e, q.snap.tasks[p].task, i);
    AddRow(db.trials, RowsBefore(db, e, q, p, i, now), k, RowFor(db, q, k, now), RowsBefore(db, e, q, p, i + 1, now));
  }

  lemma LastRow(db: Db, e: EvalId, q: Request, p: nat, now: Time)
    requires Admissible(db, q, true) && p < |q.snap.tasks|
    ensures WithRows(db, e, q, p, q.snap.repeats, now) == WithRows(db, e, q, p + 1, 0, now)
  {
    KeysBeforeTask(e, q.snap, p);
  }

  lemma SourceRow(db: Db, e: EvalId, q: Request, p: nat, i: nat, now: Time)
    requires Admissible(db, q, true) && q.reuse && p < |q.snap.tasks| && i < q.snap.repeats
    requires forall k :: k in db.trials ==> k.eval != e
    ensures var from := Key(q.source.value, q.snap.tasks[p].task, i);
      && from in KeysOf(db, q.source.value) && from in WithRows(db, e, q, p, i, now)
      && WithRows(db, e, q, p, i, now)[from] == db.trials[from]
  {
    var from := Key(q.source.value, q.snap.tasks[p].task, i);
    assert from in RequestedKeys(q.source.value, q.snap);
    assert from in KeysOf(db, q.source.value);
    assert from.eval != e;
  }

  lemma RowIs(db: Db, e: EvalId, q: Request, p: nat, i: nat, origins: map<Key, Option<EvalId>>, now: Time)
    requires Admissible(db, q, true) && p < |q.snap.tasks| && i < q.snap.repeats
    requires q.reuse ==> OriginsOf(db, q.source.value, origins)
    ensures var pin := q.snap.tasks[p];
      && Requested(q.snap, pin.task, i)
      && (!q.reuse ==>
            RowFor(db, q, Key(e, pin.task, i), now)
            == Trial(pin.version, pin.digest, Pending, Missing, None, None, None, None, None, None, None))
      && (q.reuse ==>
            var from := Key(q.source.value, pin.task, i);
            && from in db.trials && from in origins
            && RowFor(db, q, Key(e, pin.task, i), now)
               == Trial(pin.version, pin.digest, Completed, Reused, db.trials[from].run, q.source,
                        db.trials[from].run, origins[from], None, None, Some(now)))
  {
    PinUnique(q.snap, q.snap.tasks[p]);
    if q.reuse {
      var from := Key(q.source.value, q.snap.tasks[p].task, i);
      assert from in RequestedKeys(q.source.value, q.snap);
      assert ReusableRow(db, q.snap, from);
    }
  }

  lemma InsertsRemain(tasks: nat, repeats: nat, p: nat)
    requires p < tasks
    ensures p * repeats + repeats == (p + 1) * repeats <= tasks * repeats
  {
  }
}
