/**
 The evaluation control plane as a transition system: executors (afa_api/worker.py),
 recovery passes (afa_api/jobs.py), operators and crashes interleave, one committed
 statement or one local step at a time. `locking` says whether the same-host owner
 lock excludes; with false every attempt to take it succeeds, so only the fencing
 tokens in the WHERE clauses protect the tables.
 */
module Protocol {
  import opened Wrappers
  import opened Tables

  type ActorId = int

  /** A row of the list that trial_rows returned when the executor started its loop. */
  datatype Row = Row(key: Key, state: TrialState)

  /** Where an executor is in run_job / _run_job_locked. */
  datatype Pc =
    | GotToken                         // claim_job_token returned the token
    | SawRunning                       // get_job showed a running evaluation
    | Locked                           // holds the owner lock, token not yet rechecked
    | Checked                          // the token still was the evaluation's
    | Blocking                    // parameters refused: blocking the uncompleted trials
    | AtRow(i: nat)                    // about to renew the lease for rows[i]
    | Touched(i: nat)                  // lease renewed
    | Cleared(i: nat)                  // rows[i] was not completed or blocked, no cancel request seen
    | HasClaim(i: nat, claim: Token)   // claimed rows[i]; the agent runs
    | Dropping(i: nat, claim: Token)   // attempt rolled back; about to release the claim
    | AtEnd                            // past the loop, no cancel request seen
    | Finishing(status: Status)        // about to mark the evaluation terminal
    | Releasing                        // about to release the owner lock
    | Abandoned                        // lock released by an escaping exception; about to fail the evaluation

  datatype Actor =
    | Executor(eval: EvalId, token: Token, pc: Pc, rows: seq<Row>)
    | Recoverer(eval: EvalId, seenToken: Option<Token>, seenLease: Option<Time>, locked: bool)

  datatype State = State(db: Db, actors: map<ActorId, Actor>, locks: map<EvalId, ActorId>, nextToken: Token)

  datatype Action =
    | CreateFreshJob(e: EvalId, snap: Snapshot, name: Name)
    | CreateReuseJob(e: EvalId, source: EvalId, snap: Snapshot, name: Name, now: Time)
    | Dispatch(x: ActorId, e: EvalId, now: Time)
    | SeeRunning(x: ActorId)
    | TakeLock(x: ActorId)
    | Recheck(x: ActorId)
    | Begin(x: ActorId, paramsOk: bool, rows: seq<Row>)
    | BlockOne(x: ActorId, task: TaskId)
    | BlockedAll(x: ActorId)
    | Touch(x: ActorId, now: Time)
    | Look(x: ActorId)
    | LoadFails(x: ActorId)
    | Claim(x: ActorId, now: Time)
    | Complete(x: ActorId, r: RunId, backend: Option<Backend>, seed: int, outcome: Outcome, now: Time)
    | AttemptFails(x: ActorId)
    | Drop(x: ActorId)
    | Raise(x: ActorId)
    | EndLook(x: ActorId)
    | Decide(x: ActorId)
    | Finish(x: ActorId)
    | Unlock(x: ActorId)
    | Escape(x: ActorId)
    | FailAbandoned(x: ActorId)
    | Crash(x: ActorId)
    | RecoverRead(x: ActorId, e: EvalId)
    | RecoverLock(x: ActorId)
    | RecoverAct(x: ActorId, staleBefore: Time, recoverUnlocked: bool, paramsOk: bool)
    | Cancel(e: EvalId)
    | ResumeJob(e: EvalId)

  // ---- Helpers ---------------------------------------------------------------------------

  predicate IsExecutor(s: State, x: ActorId) {
    x in s.actors && s.actors[x].Executor?
  }

  /** Does this executor's token own its evaluation right now? */
  predicate Valid(s: State, x: ActorId) {
    IsExecutor(s, x) && Owned(s.db, s.actors[x].eval, s.actors[x].token)
  }

  predicate AtPc(s: State, x: ActorId, pc: Pc) {
    IsExecutor(s, x) && s.actors[x].pc == pc
  }

  function Goto(s: State, x: ActorId, pc: Pc): State
    requires IsExecutor(s, x)
  {
    s.(actors := s.actors[x := s.actors[x].(pc := pc)])
  }

  /** The program counters at which an executor holds the owner lock. */
  predicate HoldsLockAt(pc: Pc) {
    !pc.GotToken? && !pc.SawRunning? && !pc.Abandoned?
  }

  /** The program counters between a successful recheck and the terminal update. */
  predicate Inside(pc: Pc) {
    HoldsLockAt(pc) && !pc.Locked? && !pc.Releasing?
  }

  predicate Holding(pc: Pc) {
    pc.HasClaim? || pc.Dropping?
  }

  function FreeLock(s: State, x: ActorId): map<EvalId, ActorId> {
    map e | e in s.locks && s.locks[e] != x :: s.locks[e]
  }

  function Leave(s: State, x: ActorId): State {
    s.(actors := s.actors - {x}, locks := FreeLock(s, x))
  }

  /** A freshly drawn UUID names no evaluation and no row refers to it. */
  predicate UnusedId(db: Db, e: EvalId) {
    && e !in db.jobs
    && (forall r :: r in db.runs ==> db.runs[r].eval != Some(e))
  }

  /** trial_rows: every position of the evaluation exactly once, as stored now. */
  predicate RowsOf(db: Db, e: EvalId, rows: seq<Row>) {
    && (forall i :: 0 <= i < |rows| ==>
         rows[i].key in KeysOf(db, e) && rows[i].state == db.trials[rows[i].key].state)
    && (forall k :: k in KeysOf(db, e) ==> exists i :: 0 <= i < |rows| && rows[i].key == k)
    && (forall i, j :: 0 <= i < j < |rows| ==> rows[i].key != rows[j].key)
  }

  predicate AtRowIn(s: State, x: ActorId) {
    IsExecutor(s, x) && s.actors[x].pc.AtRow? && s.actors[x].pc.i < |s.actors[x].rows|
  }

  predicate TouchedIn(s: State, x: ActorId) {
    IsExecutor(s, x) && s.actors[x].pc.Touched? && s.actors[x].pc.i < |s.actors[x].rows|
  }

  predicate ClearedIn(s: State, x: ActorId) {
    IsExecutor(s, x) && s.actors[x].pc.Cleared? && s.actors[x].pc.i < |s.actors[x].rows|
  }

  predicate HoldingIn(s: State, x: ActorId) {
    IsExecutor(s, x) && Holding(s.actors[x].pc) && s.actors[x].pc.i < |s.actors[x].rows|
  }

  /** The position of the row an executor is working on. */
  function KeyAt(s: State, x: ActorId): Key
    requires AtRowIn(s, x) || TouchedIn(s, x) || ClearedIn(s, x) || HoldingIn(s, x)
  {
    s.actors[x].rows[s.actors[x].pc.i].key
  }

  predicate CanPersist(s: State, x: ActorId, r: RunId) {
    && HoldingIn(s, x) && s.actors[x].pc.HasClaim? && r !in s.db.runs
    && KeyAt(s, x).eval in s.db.jobs && Pins(s.db.jobs[KeyAt(s, x).eval].snapshot, KeyAt(s, x).task)
  }

  predicate CanRaise(s: State, x: ActorId) {
    IsExecutor(s, x)
    && (s.actors[x].pc.AtRow? || s.actors[x].pc.Touched? || s.actors[x].pc.Cleared? || s.actors[x].pc.AtEnd?)
  }

  predicate IsRecoverer(s: State, x: ActorId, locked: bool) {
    x in s.actors && s.actors[x].Recoverer? && s.actors[x].locked == locked
  }

  predicate LockFree(s: State, e: EvalId, locking: bool) {
    !locking || e !in s.locks
  }

  /** _reclaim_one decides staleness from the row as it is once the lock is held. */
  predicate Reclaims(db: Db, e: EvalId, seenLease: Option<Time>, staleBefore: Time, recoverUnlocked: bool) {
    || seenLease.None?
    || (e in db.jobs && db.jobs[e].lease.Some? && db.jobs[e].lease.value < staleBefore)
    || recoverUnlocked
  }

  // ---- The steps -------------------------------------------------------------------------

  function DoDispatch(s: State, x: ActorId, e: EvalId, now: Time): State {
    State(ClaimJob(s.db, e, s.nextToken, now), s.actors[x := Executor(e, s.nextToken, GotToken, [])],
          s.locks, s.nextToken + 1)
  }

  function DoSeeRunning(s: State, x: ActorId): State
    requires IsExecutor(s, x)
  {
    var e := s.actors[x].eval;
    if e in s.db.jobs && s.db.jobs[e].status.Running? then Goto(s, x, SawRunning) else Leave(s, x)
  }

  function DoTakeLock(s: State, x: ActorId, locking: bool): State
    requires IsExecutor(s, x)
  {
    var e := s.actors[x].eval;
    if LockFree(s, e, locking) then Goto(s, x, Locked).(locks := s.locks[e := x]) else Leave(s, x)
  }

  function DoRecheck(s: State, x: ActorId): State
    requires IsExecutor(s, x)
  {
    var e := s.actors[x].eval;
    if e in s.db.jobs && s.db.jobs[e].token == Some(s.actors[x].token) then Goto(s, x, Checked) else Goto(s, x, Releasing)
  }

  function DoBegin(s: State, x: ActorId, paramsOk: bool, rows: seq<Row>): State
    requires IsExecutor(s, x)
  {
    var e := s.actors[x].eval;
    if !(e in s.db.jobs && s.db.jobs[e].status.Running?) then Goto(s, x, Releasing)
    else if s.db.jobs[e].mode.Legacy? then Goto(s, x, Finishing(Failed))
    else if !paramsOk then Goto(s, x, Blocking)
    else s.(actors := s.actors[x := s.actors[x].(pc := AtRow(0), rows := rows)])
  }

  function DoBlockOne(s: State, x: ActorId, task: TaskId): State
    requires IsExecutor(s, x)
  {
    s.(db := BlockTask(s.db, s.actors[x].eval, task, s.actors[x].token))
  }

  function DoTouch(s: State, x: ActorId, now: Time): State
    requires AtRowIn(s, x)
  {
    if Valid(s, x)
    then Goto(s, x, Touched(s.actors[x].pc.i)).(db := TouchOwner(s.db, s.actors[x].eval, s.actors[x].token, now))
    else Goto(s, x, Releasing)
  }

  /** The row was read when the loop started; the cancel flag is read now. */
  function DoLook(s: State, x: ActorId): State
    requires TouchedIn(s, x)
  {
    var i, e := s.actors[x].pc.i, s.actors[x].eval;
    if s.actors[x].rows[i].state.Completed? || s.actors[x].rows[i].state.Blocked? then Goto(s, x, AtRow(i + 1))
    else if e in s.db.jobs && s.db.jobs[e].cancel then Goto(s, x, Finishing(Canceled))
    else Goto(s, x, Cleared(i))
  }

  function DoLoadFails(s: State, x: ActorId): State
    requires ClearedIn(s, x)
  {
    Goto(s, x, AtRow(s.actors[x].pc.i + 1)).(db :=
      BlockTask(s.db, s.actors[x].eval, KeyAt(s, x).task, s.actors[x].token))
  }

  function DoClaim(s: State, x: ActorId, now: Time): State
    requires ClearedIn(s, x)
  {
    var i, k := s.actors[x].pc.i, KeyAt(s, x);
    if CanClaimTrial(s.db, k, s.actors[x].token)
    then State(ClaimTrial(s.db, k, s.actors[x].token, s.nextToken, now),
               s.actors[x := s.actors[x].(pc := HasClaim(i, s.nextToken))], s.locks, s.nextToken + 1)
    else Goto(s, x, AtRow(i + 1))
  }

  /** A lost claim (TrialClaimError) rolls the whole transaction back, the raw run included. */
  function DoComplete(s: State, x: ActorId, r: RunId, backend: Option<Backend>, seed: int, outcome: Outcome, now: Time): State
    requires CanPersist(s, x, r)
  {
    var i, c, k := s.actors[x].pc.i, s.actors[x].pc.claim, KeyAt(s, x);
    if CanComplete(s.db, k, s.actors[x].token, c)
    then Goto(s, x, AtRow(i + 1)).(db := Persist(s.db, k, s.actors[x].token, c, r,
                                                  RunFor(s.db, k, backend, seed, outcome), now))
    else Goto(s, x, Dropping(i, c))
  }

  function DoDrop(s: State, x: ActorId): State
    requires HoldingIn(s, x)
  {
    Goto(s, x, Finishing(Failed)).(db := ReleaseClaim(s.db, KeyAt(s, x), s.actors[x].pc.claim))
  }

  function DoEndLook(s: State, x: ActorId): State
    requires IsExecutor(s, x)
  {
    var e := s.actors[x].eval;
    if e in s.db.jobs && s.db.jobs[e].cancel then Goto(s, x, Finishing(Canceled)) else Goto(s, x, AtEnd)
  }

  function DoDecide(s: State, x: ActorId): State
    requires IsExecutor(s, x)
  {
    Goto(s, x, Finishing(if AllCompleted(s.db, s.actors[x].eval) then Succeeded else Failed))
  }

  function DoFinish(s: State, x: ActorId): State
    requires IsExecutor(s, x) && s.actors[x].pc.Finishing?
  {
    Goto(s, x, Releasing).(db := MarkTerminal(s.db, s.actors[x].eval, s.actors[x].pc.status, s.actors[x].token))
  }

  function DoFailAbandoned(s: State, x: ActorId): State
    requires IsExecutor(s, x)
  {
    Leave(s.(db := MarkTerminal(s.db, s.actors[x].eval, Failed, s.actors[x].token)), x)
  }

  function DoRecoverRead(s: State, x: ActorId, e: EvalId): State
    requires e in s.db.jobs
  {
    s.(actors := s.actors[x := Recoverer(e, s.db.jobs[e].token, s.db.jobs[e].lease, false)])
  }

  function DoRecoverLock(s: State, x: ActorId, locking: bool): State
    requires IsRecoverer(s, x, false)
  {
    var e := s.actors[x].eval;
    if LockFree(s, e, locking)
    then s.(actors := s.actors[x := s.actors[x].(locked := true)], locks := s.locks[e := x])
    else Leave(s, x)
  }

  function DoRecover(s: State, x: ActorId, staleBefore: Time, recoverUnlocked: bool, paramsOk: bool): State
    requires IsRecoverer(s, x, true)
  {
    var y := s.actors[x];
    if !Reclaims(s.db, y.eval, y.seenLease, staleBefore, recoverUnlocked) then Leave(s, x)
    else if paramsOk then Leave(s.(db := Requeue(s.db, y.eval, y.seenToken, y.seenLease)), x)
    else Leave(s.(db := FailUnverifiable(s.db, y.eval, y.seenToken, y.seenLease)), x)
  }

  predicate Enabled(s: State, a: Action) {
    match a
    case CreateFreshJob(e, snap, _) => UnusedId(s.db, e) && ValidSnapshot(snap)
    case CreateReuseJob(e, source, snap, _, _) => UnusedId(s.db, e) && ValidSnapshot(snap) && CanReuse(s.db, source, snap)
    case Dispatch(x, e, _) => x !in s.actors && CanClaimJob(s.db, e)
    case SeeRunning(x) => AtPc(s, x, GotToken)
    case TakeLock(x) => AtPc(s, x, SawRunning)
    case Recheck(x) => AtPc(s, x, Locked)
    case Begin(x, _, rows) => AtPc(s, x, Checked) && RowsOf(s.db, s.actors[x].eval, rows)
    case BlockOne(x, _) => AtPc(s, x, Blocking)
    case BlockedAll(x) => AtPc(s, x, Blocking)
    case Touch(x, _) => AtRowIn(s, x)
    case Look(x) => TouchedIn(s, x)
    case LoadFails(x) => ClearedIn(s, x)
    case Claim(x, _) => ClearedIn(s, x)
    case Complete(x, r, _, _, _, _) => CanPersist(s, x, r)
    case AttemptFails(x) => HoldingIn(s, x) && s.actors[x].pc.HasClaim?
    case Drop(x) => HoldingIn(s, x) && s.actors[x].pc.Dropping?
    case Raise(x) => CanRaise(s, x)
    case EndLook(x) => IsExecutor(s, x) && s.actors[x].pc.AtRow? && s.actors[x].pc.i >= |s.actors[x].rows|
    case Decide(x) => AtPc(s, x, AtEnd)
    case Finish(x) => IsExecutor(s, x) && s.actors[x].pc.Finishing?
    case Unlock(x) => AtPc(s, x, Releasing)
    case Escape(x) => IsExecutor(s, x) && !Holding(s.actors[x].pc)
    case FailAbandoned(x) => AtPc(s, x, Abandoned)
    case Crash(x) => x in s.actors
    case RecoverRead(x, e) => x !in s.actors && e in s.db.jobs && s.db.jobs[e].status.Running?
    case RecoverLock(x) => IsRecoverer(s, x, false)
    case RecoverAct(x, _, _, _) => IsRecoverer(s, x, true)
    case Cancel(_) => true
    case ResumeJob(_) => true
  }

  function Step(s: State, a: Action, locking: bool): State
    requires Enabled(s, a)
  {
    match a
    case CreateFreshJob(e, snap, name) => s.(db := CreateFresh(s.db, e, snap, name))
    case CreateReuseJob(e, source, snap, name, now) => s.(db := CreateReuse(s.db, e, source, snap, name, now))
    case Dispatch(x, e, now) => DoDispatch(s, x, e, now)
    case SeeRunning(x) => DoSeeRunning(s, x)
    case TakeLock(x) => DoTakeLock(s, x, locking)
    case Recheck(x) => DoRecheck(s, x)
    case Begin(x, paramsOk, rows) => DoBegin(s, x, paramsOk, rows)
    case BlockOne(x, task) => DoBlockOne(s, x, task)
    case BlockedAll(x) => Goto(s, x, Finishing(Failed))
    case Touch(x, now) => DoTouch(s, x, now)
    case Look(x) => DoLook(s, x)
    case LoadFails(x) => DoLoadFails(s, x)
    case Claim(x, now) => DoClaim(s, x, now)
    case Complete(x, r, backend, seed, outcome, now) => DoComplete(s, x, r, backend, seed, outcome, now)
    case AttemptFails(x) => Goto(s, x, Dropping(s.actors[x].pc.i, s.actors[x].pc.claim))
    case Drop(x) => DoDrop(s, x)
    case Raise(x) => Goto(s, x, Finishing(Failed))
    case EndLook(x) => DoEndLook(s, x)
    case Decide(x) => DoDecide(s, x)
    case Finish(x) => DoFinish(s, x)
    case Unlock(x) => Leave(s, x)
    case Escape(x) => Goto(s, x, Abandoned).(locks := FreeLock(s, x))
    case FailAbandoned(x) => DoFailAbandoned(s, x)
    case Crash(x) => Leave(s, x)
    case RecoverRead(x, e) => DoRecoverRead(s, x, e)
    case RecoverLock(x) => DoRecoverLock(s, x, locking)
    case RecoverAct(x, staleBefore, recoverUnlocked, paramsOk) => DoRecover(s, x, staleBefore, recoverUnlocked, paramsOk)
    case Cancel(e) => s.(db := RequestCancel(s.db, e))
    case ResumeJob(e) => s.(db := Resume(s.db, e))
  }

  /** Before the control plane is used: legacy evaluations and their raw runs may exist, trials and actors do not. */
  predicate Init(s: State) {
    && s.db.trials == map[] && s.actors == map[] && s.locks == map[]
    && (forall e :: e in s.db.jobs ==>
         s.db.jobs[e].mode.Legacy? && !s.db.jobs[e].status.Running? && s.db.jobs[e].token.None? && s.db.jobs[e].lease.None?)
  }

  datatype Trace = Trace(states: seq<State>, actions: seq<Action>)

  /** A run: any interleaving of enabled actions from an initial state. */
  ghost predicate IsRun(trace: Trace, locking: bool) {
    && |trace.states| == |trace.actions| + 1
    && Init(trace.states[0])
    && forall i :: 0 <= i < |trace.actions| ==>
         Enabled(trace.states[i], trace.actions[i])
         && trace.states[i + 1] == Step(trace.states[i], trace.actions[i], locking)
  }
}
