/**
 The control-plane tables and the guarded UPDATE statements of afa_api/jobs.py,
 as functions from one table state to the next. Every SQL statement (or committed
 transaction) is one function; a statement whose WHERE clause matches no row
 returns the state unchanged.
 */
module Tables {
  import opened Wrappers

  type EvalId = int
  type TaskId = int
  type AgentName = int
  type RunId = int
  type Token = int
  type Time = int

  datatype Status = Queued | Running | Succeeded | Failed | Canceled
  datatype Mode = Legacy | FreshMode | ReuseMode
  datatype TrialState = Pending | Claimed | Completed | Blocked
  datatype Evidence = Missing | Fresh | Reused | Unverifiable
  datatype Backend = Mock | Ollama | OpenAiCompat | OtherBackend

  /** A task as the creation snapshot pins it: its version and content digest. */
  datatype Pin = Pin(task: TaskId, version: int, digest: int)

  datatype Config = Config(model: AgentName, backend: Backend, url: int, temperature: int, timeout: int, baseSeed: int)

  datatype Snapshot = Snapshot(config: Config, tasks: seq<Pin>, repeats: nat)

  /** An evaluation's persisted name: a campaign cell's, another name with the campaign's prefix, or none of ours. */
  datatype Name = CellName(model: AgentName, task: TaskId) | PrefixedName(rest: int) | ForeignName(text: int)

  datatype Job = Job(
    status: Status, cancel: bool, token: Option<Token>, lease: Option<Time>,
    mode: Mode, source: Option<EvalId>, snapshot: Snapshot, name: Name)

  /** The primary key of evaluation_trials. */
  datatype Key = Key(eval: EvalId, task: TaskId, idx: nat)

  datatype Trial = Trial(
    version: int, digest: int, state: TrialState, evidence: Evidence, run: Option<RunId>,
    source: Option<EvalId>, sourceRun: Option<RunId>, origin: Option<EvalId>,
    claim: Option<Token>, claimedAt: Option<Time>, completedAt: Option<Time>)

  /** What grading one attempt produced: the score flags and the stored artifacts. */
  datatype Outcome = Outcome(pass: bool, voided: bool, infra: bool, patch: bool, tests: nat)

  /** A raw runs row joined with its score and diff rows. */
  datatype Run = Run(
    eval: Option<EvalId>, agent: AgentName, task: TaskId, version: int, idx: nat,
    backend: Option<Backend>, seed: int, scored: bool, diffed: bool, outcome: Outcome)

  datatype Db = Db(jobs: map<EvalId, Job>, trials: map<Key, Trial>, runs: map<RunId, Run>)

  // ---- Snapshots and positions -----------------------------------------------------------

  predicate UniqueTasks(snap: Snapshot) {
    forall p, q :: 0 <= p < q < |snap.tasks| ==> snap.tasks[p].task != snap.tasks[q].task
  }

  predicate ValidSnapshot(snap: Snapshot) {
    |snap.tasks| > 0 && UniqueTasks(snap)
  }

  predicate Pins(snap: Snapshot, task: TaskId) {
    exists p :: 0 <= p < |snap.tasks| && snap.tasks[p].task == task
  }

  function PinOf(snap: Snapshot, task: TaskId): (pin: Pin)
    requires Pins(snap, task)
    ensures pin in snap.tasks && pin.task == task
  {
    PinFrom(snap.tasks, task)
  }

  function PinFrom(pins: seq<Pin>, task: TaskId): (pin: Pin)
    requires exists p :: 0 <= p < |pins| && pins[p].task == task
    ensures pin in pins && pin.task == task
  {
    if pins[0].task == task then pins[0] else PinFrom(pins[1..], task)
  }

  /** The positions an evaluation with this snapshot owns: one per pinned task and repetition. */
  predicate Requested(snap: Snapshot, task: TaskId, idx: nat) {
    Pins(snap, task) && idx < snap.repeats
  }

  function KeysBefore(e: EvalId, snap: Snapshot, p: nat, i: nat): (keys: set<Key>)
    requires p <= |snap.tasks|
  {
    set q, j | 0 <= q < |snap.tasks| && 0 <= j < snap.repeats && (q < p || (q == p && j < i))
      :: Key(e, snap.tasks[q].task, j)
  }

  function RequestedKeys(e: EvalId, snap: Snapshot): (keys: set<Key>)
    ensures forall k :: k in keys <==> k.eval == e && Requested(snap, k.task, k.idx)
  {
    KeysBefore(e, snap, |snap.tasks|, 0)
  }

  function KeysOf(db: Db, e: EvalId): set<Key> {
    set k | k in db.trials && k.eval == e
  }

  predicate AllCompleted(db: Db, e: EvalId) {
    forall k :: k in db.trials && k.eval == e ==> db.trials[k].state.Completed?
  }

  predicate NoneClaimed(db: Db, e: EvalId) {
    forall k :: k in db.trials && k.eval == e ==> !db.trials[k].state.Claimed?
  }

  /** The WHERE clause every executor statement carries: the evaluation runs under this owner token. */
  predicate Owned(db: Db, e: EvalId, owner: Token) {
    e in db.jobs && db.jobs[e].status.Running? && db.jobs[e].token == Some(owner)
  }

  // ---- Guarded updates of evaluation_jobs ------------------------------------------------

  predicate CanClaimJob(db: Db, e: EvalId) {
    e in db.jobs && db.jobs[e].status.Queued? && db.jobs[e].token.None?
  }

  function ClaimJob(db: Db, e: EvalId, token: Token, now: Time): Db {
    if CanClaimJob(db, e)
    then db.(jobs := db.jobs[e := db.jobs[e].(status := Running, token := Some(token), lease := Some(now))])
    else db
  }

  function TouchOwner(db: Db, e: EvalId, owner: Token, now: Time): Db {
    if Owned(db, e, owner) then db.(jobs := db.jobs[e := db.jobs[e].(lease := Some(now))]) else db
  }

  function MarkTerminal(db: Db, e: EvalId, status: Status, owner: Token): Db {
    if Owned(db, e, owner)
    then db.(jobs := db.jobs[e := db.jobs[e].(status := status, token := None, lease := None)])
    else db
  }

  function RequestCancel(db: Db, e: EvalId): Db {
    if e in db.jobs && (db.jobs[e].status.Queued? || db.jobs[e].status.Running?)
    then db.(jobs := db.jobs[e := db.jobs[e].(cancel := true,
                                              status := if db.jobs[e].status.Queued? then Canceled else Running)])
    else db
  }

  /** The guard of both recovery transitions: the row still is what the recovery pass read. */
  predicate StillAsRead(db: Db, e: EvalId, token: Option<Token>, lease: Option<Time>) {
    e in db.jobs && db.jobs[e].status.Running? && db.jobs[e].token == token && db.jobs[e].lease == lease
  }

  function Requeue(db: Db, e: EvalId, token: Option<Token>, lease: Option<Time>): Db {
    if StillAsRead(db, e, token, lease) then
      Db(db.jobs[e := db.jobs[e].(status := Queued, token := None, lease := None)],
         map k | k in db.trials :: if k.eval == e && db.trials[k].state.Claimed?
                                   then db.trials[k].(state := Pending, claim := None, claimedAt := None)
                                   else db.trials[k],
         db.runs)
    else db
  }

  function FailUnverifiable(db: Db, e: EvalId, token: Option<Token>, lease: Option<Time>): Db {
    if StillAsRead(db, e, token, lease) then
      Db(db.jobs[e := db.jobs[e].(status := Failed, token := None, lease := None)],
         map k | k in db.trials ::
           if k.eval == e && (db.trials[k].state.Pending? || db.trials[k].state.Claimed?)
           then db.trials[k].(state := Blocked, evidence := Unverifiable, claim := None, claimedAt := None)
           else db.trials[k],
         db.runs)
    else db
  }

  predicate CanResume(db: Db, e: EvalId) {
    && e in db.jobs && !db.jobs[e].mode.Legacy? && db.jobs[e].token.None?
    && (db.jobs[e].status.Failed? || db.jobs[e].status.Canceled? || db.jobs[e].status.Queued?)
  }

  function Resume(db: Db, e: EvalId): Db {
    if CanResume(db, e) then
      Db(db.jobs[e := db.jobs[e].(status := Queued, cancel := false, token := None, lease := None)],
         map k | k in db.trials ::
           if k.eval == e && db.trials[k].state.Blocked? && db.trials[k].evidence.Unverifiable?
           then db.trials[k].(state := Pending, evidence := Missing, claim := None, claimedAt := None)
           else db.trials[k],
         db.runs)
    else db
  }

  // ---- Guarded updates of evaluation_trials ----------------------------------------------

  predicate CanClaimTrial(db: Db, k: Key, owner: Token) {
    k in db.trials && db.trials[k].state.Pending? && Owned(db, k.eval, owner)
  }

  function ClaimTrial(db: Db, k: Key, owner: Token, claim: Token, now: Time): Db {
    if CanClaimTrial(db, k, owner)
    then db.(trials := db.trials[k := db.trials[k].(state := Claimed, claim := Some(claim), claimedAt := Some(now))])
    else db
  }

  predicate CanComplete(db: Db, k: Key, owner: Token, claim: Token) {
    k in db.trials && db.trials[k].state.Claimed? && db.trials[k].claim == Some(claim) && Owned(db, k.eval, owner)
  }

  /** save_run and complete_trial in one transaction: both rows or, when the claim was lost, neither. */
  function Persist(db: Db, k: Key, owner: Token, claim: Token, r: RunId, run: Run, now: Time): Db {
    if CanComplete(db, k, owner, claim)
    then db.(trials := db.trials[k := db.trials[k].(state := Completed, evidence := Fresh, run := Some(r),
                                                    source := None, sourceRun := None, origin := Some(k.eval),
                                                    claim := None, completedAt := Some(now))],
             runs := db.runs[r := run])
    else db
  }

  function ReleaseClaim(db: Db, k: Key, claim: Token): Db {
    if k in db.trials && db.trials[k].state.Claimed? && db.trials[k].claim == Some(claim)
    then db.(trials := db.trials[k := db.trials[k].(state := Pending, claim := None, claimedAt := None)])
    else db
  }

  /** mark_trial_unverifiable: every uncompleted position of one task; claim_token is left as it was. */
  function BlockTask(db: Db, e: EvalId, task: TaskId, owner: Token): Db {
    if Owned(db, e, owner) then
      db.(trials := map k | k in db.trials ::
            if k.eval == e && k.task == task && !db.trials[k].state.Completed?
            then db.trials[k].(state := Blocked, evidence := Unverifiable)
            else db.trials[k])
    else db
  }

  /** The run a fresh execution of position k stores: the evaluation's model at the pinned version. */
  function RunFor(db: Db, k: Key, backend: Option<Backend>, seed: int, outcome: Outcome): Run
    requires k.eval in db.jobs && Pins(db.jobs[k.eval].snapshot, k.task)
  {
    var snap := db.jobs[k.eval].snapshot;
    Run(Some(k.eval), snap.config.model, k.task, PinOf(snap, k.task).version, k.idx, backend, seed, true, true, outcome)
  }

  // ---- Creation --------------------------------------------------------------------------

  function NewTrial(snap: Snapshot, k: Key): Trial
    requires Pins(snap, k.task)
  {
    var pin := PinOf(snap, k.task);
    Trial(pin.version, pin.digest, Pending, Missing, None, None, None, None, None, None, None)
  }

  function CreateFresh(db: Db, e: EvalId, snap: Snapshot, name: Name): Db {
    Db(db.jobs[e := Job(Queued, false, None, None, FreshMode, None, snap, name)],
       db.trials + map k | k in RequestedKeys(e, snap) :: NewTrial(snap, k),
       db.runs)
  }

  /** One source row is usable evidence of known origin at the pinned version and digest. */
  predicate ReusableRow(db: Db, snap: Snapshot, k: Key) {
    && k in db.trials && Pins(snap, k.task)
    && var t := db.trials[k];
       var pin := PinOf(snap, k.task);
    && t.version == pin.version && t.digest == pin.digest && t.state.Completed?
    && (t.evidence.Fresh? || t.evidence.Reused?)
    && t.run.Some? && t.run.value in db.runs
    && var run := db.runs[t.run.value];
    && run.scored && run.diffed && run.eval.Some? && run.outcome.patch && run.outcome.tests > 0
    && run.eval.value in db.jobs && !db.jobs[run.eval.value].mode.Legacy?
  }

  predicate CanReuse(db: Db, source: EvalId, snap: Snapshot) {
    && source in db.jobs && !db.jobs[source].mode.Legacy? && db.jobs[source].snapshot == snap
    && KeysOf(db, source) == RequestedKeys(source, snap)
    && forall k :: k in KeysOf(db, source) ==> ReusableRow(db, snap, k)
  }

  function ReusedTrial(db: Db, source: EvalId, snap: Snapshot, k: Key, now: Time): Trial
    requires CanReuse(db, source, snap) && Requested(snap, k.task, k.idx)
  {
    var from := Key(source, k.task, k.idx);
    assert from in KeysOf(db, source);
    var run := db.trials[from].run.value;
    var pin := PinOf(snap, k.task);
    Trial(pin.version, pin.digest, Completed, Reused, Some(run), Some(source), Some(run), db.runs[run].eval,
          None, None, Some(now))
  }

  function CreateReuse(db: Db, e: EvalId, source: EvalId, snap: Snapshot, name: Name, now: Time): Db
    requires CanReuse(db, source, snap)
  {
    Db(db.jobs[e := Job(Queued, false, None, None, ReuseMode, Some(source), snap, name)],
       db.trials + map k | k in RequestedKeys(e, snap) :: ReusedTrial(db, source, snap, k, now),
       db.runs)
  }
}
