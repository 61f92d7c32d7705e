/** What the control plane guarantees over whole runs. */
module ControlPlaneTheorems {
  import opened Wrappers
  import opened Tables
  import opened Protocol
  import opened TableInvariants
  import opened Safety
  import opened Counting

  // ---- Exactly-once evidence -------------------------------------------------------------

  function RunsOf(db: Db, e: EvalId): set<RunId> {
    set r | r in db.runs && db.runs[r].eval == Some(e)
  }

  function FreshOf(db: Db, e: EvalId): set<Key> {
    set k | k in db.trials && k.eval == e && IsFresh(db, k)
  }

  /** In every reachable state the raw runs of an evaluation and its fresh completed positions correspond one to one. */
  lemma ExactlyOnce(trace: Trace, locking: bool, n: nat, e: EvalId)
    requires IsRun(trace, locking) && n < |trace.states|
    requires e in trace.states[n].db.jobs && !trace.states[n].db.jobs[e].mode.Legacy?
    ensures var db := trace.states[n].db;
      && (forall r :: r in RunsOf(db, e) ==>
           HomeOf(db.runs[r]) in FreshOf(db, e) && db.trials[HomeOf(db.runs[r])].run == Some(r))
      && (forall k :: k in FreshOf(db, e) ==>
           && db.trials[k].run.Some? && db.trials[k].run.value in RunsOf(db, e)
           && HomeOf(db.runs[db.trials[k].run.value]) == k)
      && |RunsOf(db, e)| == |FreshOf(db, e)|
  {
    RunKeeps(trace, locking, n);
    var db := trace.states[n].db;
    Bijection(db, e);
    var home := map r | r in RunsOf(db, e) :: HomeOf(db.runs[r]);
    forall r | r in RunsOf(db, e) ensures home[r] in FreshOf(db, e) && db.trials[home[r]].run == Some(r) {}
    forall k | k in FreshOf(db, e) ensures exists r :: r in RunsOf(db, e) && home[r] == k {
      var r := db.trials[k].run.value;
      assert r in RunsOf(db, e) && home[r] == k;
    }
    SameSize(RunsOf(db, e), FreshOf(db, e), home);
  }

  lemma Bijection(db: Db, e: EvalId)
    requires DbInv(db) && e in db.jobs && !db.jobs[e].mode.Legacy?
    ensures forall r :: r in RunsOf(db, e) ==>
              HomeOf(db.runs[r]) in FreshOf(db, e) && db.trials[HomeOf(db.runs[r])].run == Some(r)
    ensures forall k :: k in FreshOf(db, e) ==>
              && db.trials[k].run.Some? && db.trials[k].run.value in RunsOf(db, e)
              && HomeOf(db.runs[db.trials[k].run.value]) == k
  {
    forall r | r in RunsOf(db, e)
      ensures HomeOf(db.runs[r]) in FreshOf(db, e) && db.trials[HomeOf(db.runs[r])].run == Some(r)
    {
      assert OwnedByEvaluation(db, r);
    }
    forall k | k in FreshOf(db, e)
      ensures db.trials[k].run.Some? && db.trials[k].run.value in RunsOf(db, e) && HomeOf(db.runs[db.trials[k].run.value]) == k
    {
      assert FreshOk(db, k);
    }
  }

  // ---- Completion is absorbing, success is frozen ----------------------------------------

  /** What no later step ever takes back. */
  ghost predicate Kept(db: Db, d: Db) {
    && (forall k :: k in db.trials ==> k in d.trials)
    && (forall k :: k in db.trials && db.trials[k].state.Completed? ==> d.trials[k] == db.trials[k])
    && (forall r :: r in db.runs ==> r in d.runs && d.runs[r] == db.runs[r])
    && (forall e :: e in db.jobs ==> e in d.jobs && d.jobs[e].mode == db.jobs[e].mode && d.jobs[e].snapshot == db.jobs[e].snapshot)
    && (forall e :: e in db.jobs && db.jobs[e].status.Succeeded? ==> d.jobs[e] == db.jobs[e])
    && (forall k :: k in d.trials && k.eval in db.jobs ==> k in db.trials)
  }

  lemma OwnerStatementKept(s: State, a: Action, locking: bool)
    requires StateInv(s) && Enabled(s, a) && (a.Dispatch? || a.Touch? || a.Finish? || a.FailAbandoned?)
    ensures Kept(s.db, Step(s, a, locking).db)
  {
    hide ActorsOk, PlacesOk, StatesOk, EvidenceOk;
    var t := Step(s, a, locking);
    assert t.db.trials == s.db.trials && t.db.runs == s.db.runs;
    assert t.db == s.db || (a.Dispatch? && CanClaimJob(s.db, a.e)) || Valid(s, a.x);
  }

  lemma RequeueKept(db: Db, e: EvalId, token: Option<Token>, lease: Option<Time>)
    ensures Kept(db, Requeue(db, e, token, lease))
  {
  }

  lemma FailUnverifiableKept(db: Db, e: EvalId, token: Option<Token>, lease: Option<Time>)
    ensures Kept(db, FailUnverifiable(db, e, token, lease))
  {
  }

  lemma RecoveryKept(s: State, a: Action, locking: bool)
    requires StateInv(s) && Enabled(s, a) && a.RecoverAct?
    ensures Kept(s.db, Step(s, a, locking).db)
  {
    var y := s.actors[a.x];
    RequeueKept(s.db, y.eval, y.seenToken, y.seenLease);
    FailUnverifiableKept(s.db, y.eval, y.seenToken, y.seenLease);
    var d := DoRecover(s, a.x, a.staleBefore, a.recoverUnlocked, a.paramsOk).db;
    assert d == s.db || d == Requeue(s.db, y.eval, y.seenToken, y.seenLease)
      || d == FailUnverifiable(s.db, y.eval, y.seenToken, y.seenLease);
  }

  lemma ResumeKept(db: Db, e: EvalId)
    ensures Kept(db, Resume(db, e))
  {
  }

  lemma CancelKept(db: Db, e: EvalId)
    ensures Kept(db, RequestCancel(db, e))
  {
  }

  lemma OperatorKept(s: State, a: Action, locking: bool)
    requires Enabled(s, a) && (a.Cancel? || a.ResumeJob?)
    ensures Kept(s.db, Step(s, a, locking).db)
  {
    match a {
      case Cancel(e) => CancelKept(s.db, e);
      case ResumeJob(e) => ResumeKept(s.db, e);
    }
  }

  lemma JobStatementKept(s: State, a: Action, locking: bool)
    requires StateInv(s) && Enabled(s, a) && IsJobStatement(a)
    ensures Kept(s.db, Step(s, a, locking).db)
  {
    if a.RecoverAct? {
      RecoveryKept(s, a, locking);
    } else if a.Cancel? || a.ResumeJob? {
      OperatorKept(s, a, locking);
    } else {
      OwnerStatementKept(s, a, locking);
    }
  }

  lemma BlockTaskKept(db: Db, e: EvalId, task: TaskId, owner: Token)
    ensures Kept(db, BlockTask(db, e, task, owner))
  {
  }

  lemma ClaimKept(db: Db, k: Key, owner: Token, claim: Token, now: Time)
    ensures Kept(db, ClaimTrial(db, k, owner, claim, now))
  {
  }

  lemma ReleaseKept(db: Db, k: Key, claim: Token)
    ensures Kept(db, ReleaseClaim(db, k, claim))
  {
  }

  lemma PersistKept(db: Db, k: Key, owner: Token, claim: Token, r: RunId, run: Run, now: Time)
    requires r !in db.runs
    ensures Kept(db, Persist(db, k, owner, claim, r, run, now))
  {
  }

  lemma NothingLost(db: Db)
    ensures Kept(db, db)
  {
  }

  lemma TrialStatementKept(s: State, a: Action, locking: bool)
    requires Enabled(s, a) && IsTrialStatement(a)
    ensures Kept(s.db, Step(s, a, locking).db)
  {
    hide Kept, BlockTask, ClaimTrial, Persist, ReleaseClaim, CanClaimTrial, CanComplete;
    NothingLost(s.db);
    var x := s.actors[a.x];
    match a {
      case BlockOne(_, task) => BlockTaskKept(s.db, x.eval, task, x.token);
      case LoadFails(_) => BlockTaskKept(s.db, x.eval, KeyAt(s, a.x).task, x.token);
      case Claim(_, now) => ClaimKept(s.db, KeyAt(s, a.x), x.token, s.nextToken, now);
      case Complete(_, r, backend, seed, outcome, now) =>
        PersistKept(s.db, KeyAt(s, a.x), x.token, x.pc.claim, r, RunFor(s.db, KeyAt(s, a.x), backend, seed, outcome), now);
      case Drop(_) => ReleaseKept(s.db, KeyAt(s, a.x), x.pc.claim);
    }
  }

  lemma StepKept(s: State, a: Action, locking: bool)
    requires StateInv(s) && Enabled(s, a)
    ensures Kept(s.db, Step(s, a, locking).db)
  {
    hide ActorsOk, PlacesOk, StatesOk, EvidenceOk;
    if IsCreation(a) {
      NoRowsYet(s.db, a.e);
    } else if IsJobStatement(a) {
      JobStatementKept(s, a, locking);
    } else if IsTrialStatement(a) {
      TrialStatementKept(s, a, locking);
    } else {
      assert Step(s, a, locking).db == s.db;
    }
  }

  lemma {:induction false} RunKept(trace: Trace, locking: bool, i: nat, j: nat)
    requires IsRun(trace, locking) && i <= j < |trace.states|
    ensures Kept(trace.states[i].db, trace.states[j].db)
  {
    if i < j {
      RunKept(trace, locking, i, j - 1);
      RunKeeps(trace, locking, j - 1);
      StepKept(trace.states[j - 1], trace.actions[j - 1], locking);
    }
  }

  /** A succeeded evaluation has every position completed, and neither its row nor any position ever changes again. */
  lemma SuccessIsFrozen(trace: Trace, locking: bool, i: nat, j: nat, e: EvalId)
    requires IsRun(trace, locking) && i <= j < |trace.states|
    requires e in trace.states[i].db.jobs && trace.states[i].db.jobs[e].status.Succeeded?
    ensures var db, d := trace.states[i].db, trace.states[j].db;
      && AllCompleted(db, e) && e in d.jobs && d.jobs[e] == db.jobs[e]
      && KeysOf(d, e) == KeysOf(db, e) && forall k :: k in KeysOf(db, e) ==> d.trials[k] == db.trials[k]
  {
    RunKeeps(trace, locking, i);
    RunKept(trace, locking, i, j);
  }

  // ---- Reuse chains ----------------------------------------------------------------------

  /** However often evidence was reused, its recorded origin is the evaluation that owns the raw run, and the position
      there is a fresh completed one with the same run, task, index, version and digest. */
  lemma OriginsAreTrue(trace: Trace, locking: bool, n: nat, k: Key)
    requires IsRun(trace, locking) && n < |trace.states|
    requires k in trace.states[n].db.trials && trace.states[n].db.trials[k].state.Completed?
    ensures var db := trace.states[n].db;
      && db.trials[k].run.Some? && db.trials[k].run.value in db.runs && db.trials[k].origin.Some?
      && db.runs[db.trials[k].run.value].eval == db.trials[k].origin
      && var home := Key(db.trials[k].origin.value, k.task, k.idx);
      && IsFresh(db, home) && db.trials[home].run == db.trials[k].run
      && db.trials[home].version == db.trials[k].version && db.trials[home].digest == db.trials[k].digest
  {
    RunKeeps(trace, locking, n);
    var db := trace.states[n].db;
    assert OriginOk(db, k);
    assert FreshOk(db, Key(db.trials[k].origin.value, k.task, k.idx));
  }

  // ---- Row and ownership invariants ------------------------------------------------------

  lemma RowsInEveryState(trace: Trace, locking: bool, n: nat)
    requires IsRun(trace, locking) && n < |trace.states|
    ensures var db := trace.states[n].db;
      && (forall e :: e in db.jobs ==> (db.jobs[e].status.Running? <==> db.jobs[e].token.Some?))
      && (forall k :: k in db.trials ==> ShapeOk(k, db.trials[k]))
      && (forall k, j :: IsClaimed(db, k) && IsClaimed(db, j) && k.eval == j.eval ==> k == j)
      && (forall k :: IsClaimed(db, k) ==> k.eval in db.jobs && db.jobs[k.eval].status.Running?)
  {
    RunKeeps(trace, locking, n);
  }

  // ---- The fencing tokens alone ----------------------------------------------------------

  predicate ActsAs(a: Action, x: ActorId) {
    !IsCreation(a) && !a.Dispatch? && !a.RecoverRead? && !a.Cancel? && !a.ResumeJob? && a.x == x
  }

  /** An executor whose token is no longer current changes no evaluation, position or run, whatever it does next. */
  lemma StaleExecutorChangesNothing(trace: Trace, locking: bool, n: nat, x: ActorId)
    requires IsRun(trace, locking) && n < |trace.actions|
    requires IsExecutor(trace.states[n], x) && !Valid(trace.states[n], x) && ActsAs(trace.actions[n], x)
    ensures trace.states[n + 1].db == trace.states[n].db
  {
    RunKeeps(trace, locking, n);
    StaleStep(trace.states[n], trace.actions[n], locking);
  }

  lemma StaleStep(s: State, a: Action, locking: bool)
    requires StateInv(s) && Enabled(s, a) && !IsCreation(a) && !a.Cancel? && !a.ResumeJob?
    requires IsExecutor(s, a.x) && !Valid(s, a.x)
    ensures Step(s, a, locking).db == s.db
  {
    hide DbInv, TokensOk;
    assert ExecOk(s, a.x);
    if IsTrialStatement(a) {
      StaleTrialStatement(s, a, locking);
    } else if IsJobStatement(a) {
      StaleJobStatement(s, a, locking);
    } else {
      assert Step(s, a, locking).db == s.db;
    }
  }

  lemma StaleTrialStatement(s: State, a: Action, locking: bool)
    requires Enabled(s, a) && IsTrialStatement(a) && !Valid(s, a.x) && ExecOk(s, a.x)
    ensures Step(s, a, locking).db == s.db
  {
    if a.Drop? { assert !IsClaimed(s.db, KeyAt(s, a.x)) || s.db.trials[KeyAt(s, a.x)].claim != Some(s.actors[a.x].pc.claim); }
  }

  lemma StaleJobStatement(s: State, a: Action, locking: bool)
    requires Enabled(s, a) && (a.Touch? || a.Finish? || a.FailAbandoned? || a.Dispatch? || a.RecoverAct?)
    requires IsExecutor(s, a.x) && !Valid(s, a.x)
    ensures Step(s, a, locking).db == s.db
  {
  }

  /** Without exclusion a recovery pass can fence out an executor in mid-attempt: its completion is rolled back, run and all. */
  lemma FencedOutInMidAttempt(s: State, x: ActorId, y: ActorId, r: RunId, backend: Option<Backend>, seed: int,
                              outcome: Outcome, now: Time)
    requires StateInv(s) && CanPersist(s, x, r) && Valid(s, x) && y !in s.actors
    ensures var e := s.actors[x].eval;
      var s1 := DoRecoverRead(s, y, e);
      var s2 := DoRecoverLock(s1, y, false);
      && IsRecoverer(s2, y, true)
      && var s3 := DoRecover(s2, y, 0, true, true);
      && CanPersist(s3, x, r) && !CanComplete(s3.db, KeyAt(s3, x), s3.actors[x].token, s3.actors[x].pc.claim)
      && DoComplete(s3, x, r, backend, seed, outcome, now).db == s3.db && s3.db.jobs[e].status.Queued?
  {
    assert ExecOk(s, x);
  }

  // ---- The owner lock and the tokens together --------------------------------------------

  ghost predicate LockOk(s: State, x: ActorId)
    requires x in s.actors
  {
    match s.actors[x]
    case Executor(e, token, pc, _) =>
      && (HoldsLockAt(pc) ==> e in s.locks && s.locks[e] == x)
      && (Inside(pc) ==> Valid(s, x))
    case Recoverer(e, _, _, locked) => locked ==> e in s.locks && s.locks[e] == x
  }

  ghost predicate LocksOk(s: State) {
    forall x {:trigger LockOk(s, x)} :: x in s.actors ==> LockOk(s, x)
  }

  predicate Actorless(a: Action) {
    a.CreateFreshJob? || a.CreateReuseJob? || a.Cancel? || a.ResumeJob?
  }

  lemma OtherIsUntouched(s: State, a: Action, z: ActorId)
    requires Enabled(s, a) && z in s.actors && (Actorless(a) || a.x != z)
    ensures var t := Step(s, a, true); z in t.actors && t.actors[z] == s.actors[z]
  {
    hide Step, Enabled;
    if IsGoto(a) {
      OtherThroughGoto(s, a, z);
    } else if IsTrialStatement(a) {
      OtherThroughTrialStatement(s, a, z);
    } else {
      OtherThroughRest(s, a, z);
    }
  }

  lemma OtherThroughGoto(s: State, a: Action, z: ActorId)
    requires Enabled(s, a) && IsGoto(a) && z in s.actors && a.x != z
    ensures var t := Step(s, a, true); z in t.actors && t.actors[z] == s.actors[z]
  {
    hide ClaimJob, TouchOwner, MarkTerminal, RequestCancel, Requeue, FailUnverifiable, Resume, ClaimTrial, Persist,
      ReleaseClaim, BlockTask, CreateFresh, CreateReuse, CanReuse, CanClaimTrial, CanComplete, AllCompleted, RowsOf;
  }

  lemma OtherThroughTrialStatement(s: State, a: Action, z: ActorId)
    requires Enabled(s, a) && IsTrialStatement(a) && z in s.actors && a.x != z
    ensures var t := Step(s, a, true); z in t.actors && t.actors[z] == s.actors[z]
  {
    hide ClaimJob, TouchOwner, MarkTerminal, RequestCancel, Requeue, FailUnverifiable, Resume, ClaimTrial, Persist,
      ReleaseClaim, BlockTask, CreateFresh, CreateReuse, CanReuse, CanClaimTrial, CanComplete, AllCompleted, RowsOf;
  }

  lemma OtherThroughRest(s: State, a: Action, z: ActorId)
    requires Enabled(s, a) && !IsGoto(a) && !IsTrialStatement(a) && z in s.actors && (Actorless(a) || a.x != z)
    ensures var t := Step(s, a, true); z in t.actors && t.actors[z] == s.actors[z]
  {
    hide ClaimJob, TouchOwner, MarkTerminal, RequestCancel, Requeue, FailUnverifiable, Resume, ClaimTrial, Persist,
      ReleaseClaim, BlockTask, CreateFresh, CreateReuse, CanReuse, CanClaimTrial, CanComplete, AllCompleted, RowsOf;
  }

  /** A statement on positions leaves the evaluation's row alone. */
  lemma TrialStatementKeepsJobs(s: State, a: Action, locking: bool)
    requires Enabled(s, a) && IsTrialStatement(a)
    ensures var t := Step(s, a, locking); t.db.jobs == s.db.jobs && t.locks == s.locks
    ensures var t := Step(s, a, locking);
      && a.x in t.actors && t.actors[a.x].Executor?
      && t.actors[a.x].eval == s.actors[a.x].eval && t.actors[a.x].token == s.actors[a.x].token
    ensures Inside(s.actors[a.x].pc) && HoldsLockAt(s.actors[a.x].pc)
  {
  }

  /** An executor that does not act keeps its lock and, once inside, its ownership. */
  lemma OtherKeepsLock(s: State, a: Action, z: ActorId)
    requires StateInv(s) && LocksOk(s) && Enabled(s, a) && z in s.actors && (Actorless(a) || a.x != z)
    requires !IsTrialStatement(a) && !a.RecoverAct? && !a.Finish? && !a.FailAbandoned?
    ensures var t := Step(s, a, true); z in t.actors && LockOk(t, z)
  {
    hide ExecOk, TokensOk, PlacesOk, StatesOk, EvidenceOk, ClaimTrial, Persist, ReleaseClaim, BlockTask, CanReuse, RowsOf;
    assert LockOk(s, z);
    OtherIsUntouched(s, a, z);
  }

  lemma OtherKeepsLockTrial(s: State, a: Action, z: ActorId)
    requires LocksOk(s) && Enabled(s, a) && z in s.actors && IsTrialStatement(a) && a.x != z
    ensures var t := Step(s, a, true); z in t.actors && LockOk(t, z)
  {
    hide Step, Enabled;
    assert LockOk(s, z);
    OtherIsUntouched(s, a, z);
    TrialStatementKeepsJobs(s, a, true);
  }

  lemma OtherKeepsLockTerminal(s: State, a: Action, z: ActorId)
    requires StateInv(s) && LocksOk(s) && Enabled(s, a) && z in s.actors && (a.Finish? || a.FailAbandoned?) && a.x != z
    ensures var t := Step(s, a, true); z in t.actors && LockOk(t, z)
  {
    assert LockOk(s, z) && ExecOk(s, a.x);
    if IsExecutor(s, z) { assert s.actors[z].token != s.actors[a.x].token; }
  }

  lemma OtherKeepsLockRecovery(s: State, a: Action, z: ActorId)
    requires StateInv(s) && LocksOk(s) && Enabled(s, a) && z in s.actors && a.RecoverAct? && a.x != z
    ensures var t := Step(s, a, true); z in t.actors && LockOk(t, z)
  {
    assert LockOk(s, z) && LockOk(s, a.x);
  }

  lemma ActorKeepsLockExit(s: State, a: Action)
    requires StateInv(s) && LocksOk(s) && Enabled(s, a) && IsExit(a)
    ensures var t := Step(s, a, true); a.x in t.actors ==> LockOk(t, a.x)
  {
    hide ExecOk, TokensOk, PlacesOk, StatesOk, EvidenceOk, ClaimJob, TouchOwner, MarkTerminal, RequestCancel, Requeue, FailUnverifiable, Resume, ClaimTrial, Persist,
      ReleaseClaim, BlockTask, CreateFresh, CreateReuse, CanReuse, CanClaimTrial, CanComplete, AllCompleted, RowsOf;
    assert LockOk(s, a.x);
  }

  lemma ActorKeepsLockMove(s: State, a: Action)
    requires StateInv(s) && LocksOk(s) && Enabled(s, a) && IsMove(a)
    ensures var t := Step(s, a, true); a.x in t.actors ==> LockOk(t, a.x)
  {
    hide ExecOk, TokensOk, PlacesOk, StatesOk, EvidenceOk, ClaimJob, TouchOwner, MarkTerminal, RequestCancel, Requeue, FailUnverifiable, Resume, ClaimTrial, Persist,
      ReleaseClaim, BlockTask, CreateFresh, CreateReuse, CanReuse, CanClaimTrial, CanComplete, AllCompleted, RowsOf;
    assert LockOk(s, a.x);
  }

  lemma ActorKeepsLockTrial(s: State, a: Action)
    requires StateInv(s) && LocksOk(s) && Enabled(s, a) && IsTrialStatement(a)
    ensures var t := Step(s, a, true); a.x in t.actors ==> LockOk(t, a.x)
  {
    TrialStatementKeepsJobs(s, a, true);
    hide Step, Enabled, ExecOk, TokensOk, PlacesOk, StatesOk, EvidenceOk;
    assert LockOk(s, a.x);
  }

  lemma ActorKeepsLockStatement(s: State, a: Action)
    requires StateInv(s) && LocksOk(s) && Enabled(s, a) && (a.Touch? || a.Finish? || a.FailAbandoned?)
    ensures var t := Step(s, a, true); a.x in t.actors ==> LockOk(t, a.x)
  {
    hide ExecOk, TokensOk, PlacesOk, StatesOk, EvidenceOk;
    assert LockOk(s, a.x);
  }

  lemma ActorKeepsLock(s: State, a: Action)
    requires StateInv(s) && LocksOk(s) && Enabled(s, a) && !Actorless(a)
    ensures var t := Step(s, a, true); a.x in t.actors ==> LockOk(t, a.x)
  {
    if IsExit(a) {
      ActorKeepsLockExit(s, a);
    } else if IsMove(a) {
      ActorKeepsLockMove(s, a);
    } else if IsTrialStatement(a) {
      ActorKeepsLockTrial(s, a);
    } else if a.Touch? || a.Finish? || a.FailAbandoned? {
      ActorKeepsLockStatement(s, a);
    } else if a.Begin? || a.AttemptFails? {
      assert LockOk(s, a.x);
    }
  }

  lemma NoOtherArrives(s: State, a: Action, z: ActorId)
    requires Enabled(s, a) && z in Step(s, a, true).actors
    ensures z in s.actors || (!Actorless(a) && a.x == z)
  {
    hide ClaimJob, TouchOwner, MarkTerminal, RequestCancel, Requeue, FailUnverifiable, Resume, ClaimTrial, Persist,
      ReleaseClaim, BlockTask, CreateFresh, CreateReuse, CanReuse, CanClaimTrial, CanComplete, AllCompleted, RowsOf;
  }

  lemma LocksStep(s: State, a: Action)
    requires StateInv(s) && LocksOk(s) && Enabled(s, a)
    ensures LocksOk(Step(s, a, true))
  {
    hide Step, Enabled, StateInv, LockOk;
    var t := Step(s, a, true);
    forall z | z in t.actors ensures LockOk(t, z) {
      NoOtherArrives(s, a, z);
      if !Actorless(a) && a.x == z {
        ActorKeepsLock(s, a);
      } else if a.RecoverAct? {
        OtherKeepsLockRecovery(s, a, z);
      } else if IsTrialStatement(a) {
        OtherKeepsLockTrial(s, a, z);
      } else if a.Finish? || a.FailAbandoned? {
        OtherKeepsLockTerminal(s, a, z);
      } else {
        OtherKeepsLock(s, a, z);
      }
    }
  }

  lemma {:induction false} RunLocks(trace: Trace, n: nat)
    requires IsRun(trace, true) && n < |trace.states|
    ensures LocksOk(trace.states[n])
  {
    if n > 0 {
      RunLocks(trace, n - 1);
      RunKeeps(trace, true, n - 1);
      LocksStep(trace.states[n - 1], trace.actions[n - 1]);
    }
  }

  /** With the lock, complete_trial never raises TrialClaimError: every attempted completion commits. */
  lemma CompletionNeverLosesItsClaim(trace: Trace, n: nat)
    requires IsRun(trace, true) && n < |trace.actions| && trace.actions[n].Complete?
    ensures var s, x := trace.states[n], trace.actions[n].x;
      && CanComplete(s.db, KeyAt(s, x), s.actors[x].token, s.actors[x].pc.claim)
      && IsFresh(trace.states[n + 1].db, KeyAt(s, x))
      && trace.states[n + 1].db.trials[KeyAt(s, x)].run == Some(trace.actions[n].r)
  {
    RunKeeps(trace, true, n);
    RunLocks(trace, n);
    var s, x := trace.states[n], trace.actions[n].x;
    assert LockOk(s, x) && ExecOk(s, x);
  }

  /** This executor or recovery pass has taken the evaluation's owner lock and not yet released it. */
  predicate PastTheLock(s: State, y: ActorId, e: EvalId) {
    y in s.actors && s.actors[y].eval == e
    && match s.actors[y]
       case Executor(_, _, pc, _) => HoldsLockAt(pc)
       case Recoverer(_, _, _, locked) => locked
  }

  /** While an executor is inside, no one else is past the lock, and only its own steps can change the evaluation's status or token. */
  lemma OwnerIsAlone(trace: Trace, n: nat, x: ActorId)
    requires IsRun(trace, true) && n < |trace.actions|
    requires IsExecutor(trace.states[n], x) && Inside(trace.states[n].actors[x].pc)
    ensures var s, t, e := trace.states[n], trace.states[n + 1], trace.states[n].actors[x].eval;
      && Valid(s, x)
      && (forall y :: PastTheLock(s, y, e) ==> y == x)
      && (Actorless(trace.actions[n]) || trace.actions[n].x != x ==>
           e in t.db.jobs && t.db.jobs[e].status == s.db.jobs[e].status && t.db.jobs[e].token == s.db.jobs[e].token)
  {
    hide Enabled, Step, DbInv, ActorsOk;
    RunKeeps(trace, true, n);
    RunLocks(trace, n);
    var s := trace.states[n];
    assert LockOk(s, x);
    forall y | PastTheLock(s, y, s.actors[x].eval) ensures y == x {
      assert LockOk(s, y);
    }
    if Actorless(trace.actions[n]) || trace.actions[n].x != x {
      LocksStep(s, trace.actions[n]);
      OtherIsUntouched(s, trace.actions[n], x);
      assert LockOk(trace.states[n + 1], x);
      RowsInEveryState(trace, true, n);
      RowsInEveryState(trace, true, n + 1);
    }
  }
}
