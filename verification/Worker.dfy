/**
 afa_api/worker.py: the loop that executes one claimed evaluation, on the ControlPlane object,
 with no other actor interfering, and the seeded agent of runner/afa_runner/agents_ollama.py.
 */
module Worker {
  import opened Wrappers
  import opened Tables
  import opened TableInvariants
  import opened ControlPlaneStore

  /** OllamaAgent, as far as its sampling seed goes. */
  class SeededAgent {
    var baseSeed: int
    var calls: nat

    constructor (baseSeed: int)
      ensures this.baseSeed == baseSeed && calls == 0
    {
      this.baseSeed, calls := baseSeed, 0;
    }

    method SetRunSeed(seed: int)
      modifies this
      ensures baseSeed == seed && calls == 0
    {
      baseSeed, calls := seed, 0;
    }

    /** One model call; returns the seed it used. */
    method Act() returns (seed: int)
      modifies this
      ensures seed == old(baseSeed) + old(calls)
      ensures baseSeed == old(baseSeed) && calls == old(calls) + 1
    {
      seed := baseSeed + calls;
      calls := calls + 1;
    }
  }

  /** What happens when a position is attempted: the task no longer matches the snapshot, the agent cannot be made,
      the attempt raises, or it is graded. */
  datatype Attempt = TaskChanged | FactoryRaises | RunRaises | Graded(outcome: Outcome)

  /** One model call made for a position. */
  datatype Call = Call(key: Key, seed: int)

  datatype RowExit = Continue | Stop(status: Status) | LeaseLost

  /** What stays fixed during one execution. */
  datatype Work = Work(e: EvalId, owner: Token, backend: Option<Backend>, attempt: Key -> Attempt, now: Time)

  function BaseSeed(db: Db, e: EvalId): int
    requires e in db.jobs
  {
    db.jobs[e].snapshot.config.baseSeed
  }

  /** The state an executor is in once it has passed the token recheck. */
  ghost predicate Ready(db: Db, w: Work) {
    DbInv(db) && Owned(db, w.e, w.owner) && NoneClaimed(db, w.e) && !db.jobs[w.e].mode.Legacy?
  }

  /** Nothing but the lease of w.e changed in the evaluations table. */
  ghost predicate OnlyLease(db: Db, d: Db, e: EvalId)
    requires e in db.jobs
  {
    e in d.jobs && d.jobs == db.jobs[e := db.jobs[e].(lease := d.jobs[e].lease)]
  }

  /** Position k as a completed fresh execution leaves it. */
  function DoneRow(t: Trial, k: Key, claim: Token, r: RunId, now: Time): Trial {
    t.(state := Completed, evidence := Fresh, run := Some(r), source := None, sourceRun := None, origin := Some(k.eval),
       claim := None, claimedAt := Some(now), completedAt := Some(now))
  }

  /** Is the position attempted when its row comes up (and no cancel request was seen)? */
  predicate Attempted(db: Db, k: Key, read: TrialState, w: Work) {
    k in db.trials && !read.Completed? && !read.Blocked? && db.trials[k].state.Pending? && !w.attempt(k).TaskChanged?
  }

  // ---- One row ---------------------------------------------------------------------------

  /** The effect of one loop iteration on the trial and run tables. */
  ghost predicate RowDone(db: Db, d: Db, k: Key, read: TrialState, w: Work, r: RunId, exit: RowExit)
    requires Ready(db, w) && k in KeysOf(db, w.e)
  {
    if read.Completed? || read.Blocked? then
      d.trials == db.trials && d.runs == db.runs && exit == Continue
    else if db.jobs[w.e].cancel then
      d.trials == db.trials && d.runs == db.runs && exit == Stop(Canceled)
    else if w.attempt(k).TaskChanged? then
      d.trials == BlockTask(db, w.e, k.task, w.owner).trials && d.runs == db.runs && exit == Continue
    else if !db.trials[k].state.Pending? then
      d.trials == db.trials && d.runs == db.runs && exit == Continue
    else if w.attempt(k).Graded? then
      && (exists claim :: d.trials == db.trials[k := DoneRow(db.trials[k], k, claim, r, w.now)])
      && Pins(db.jobs[w.e].snapshot, k.task)
      && d.runs == db.runs[r := RunFor(db, k, w.backend, BaseSeed(db, w.e) + k.idx, w.attempt(k).outcome)]
      && exit == Continue
    else
      d.trials == db.trials[k := db.trials[k].(claimedAt := None)] && d.runs == db.runs && exit == Stop(Failed)
  }

  lemma RenewKeeps(db: Db, w: Work, now: Time)
    requires Ready(db, w)
    ensures var d := TouchOwner(db, w.e, w.owner, now);
            Ready(d, w) && OnlyLease(db, d, w.e) && d.trials == db.trials && d.runs == db.runs
  {
    TouchOwnerQuiet(db, w.e, w.owner, now);
    FrameKeeps(db, TouchOwner(db, w.e, w.owner, now));
  }

  lemma BlockKeeps(db: Db, w: Work, task: TaskId)
    requires Ready(db, w)
    ensures Ready(BlockTask(db, w.e, task, w.owner), w)
  {
    BlockTaskQuiet(db, w.e, task, w.owner);
    FrameKeeps(db, BlockTask(db, w.e, task, w.owner));
  }

  lemma ClaimKeeps(db: Db, w: Work, k: Key, claim: Token)
    requires Ready(db, w) && CanClaimTrial(db, k, w.owner) && k.eval == w.e
    ensures DbInv(ClaimTrial(db, k, w.owner, claim, w.now))
  {
    ClaimTrialQuiet(db, k, w.owner, claim, w.now);
    FrameKeeps(db, ClaimTrial(db, k, w.owner, claim, w.now));
  }

  lemma ReleaseKeeps(db: Db, k: Key, claim: Token)
    requires DbInv(db)
    ensures DbInv(ReleaseClaim(db, k, claim))
  {
    ReleaseClaimQuiet(db, k, claim);
    FrameKeeps(db, ReleaseClaim(db, k, claim));
  }

  lemma ClaimReleasedTables(db: Db, w: Work, k: Key, claim: Token)
    requires CanClaimTrial(db, k, w.owner) && db.trials[k].claim.None?
    ensures ReleaseClaim(ClaimTrial(db, k, w.owner, claim, w.now), k, claim)
            == db.(trials := db.trials[k := db.trials[k].(claimedAt := None)])
  {
    var d := ReleaseClaim(ClaimTrial(db, k, w.owner, claim, w.now), k, claim);
    assert d.trials == db.trials[k := db.trials[k].(claimedAt := None)];
  }

  lemma ClaimReleased(db: Db, w: Work, k: Key, claim: Token)
    requires Ready(db, w) && CanClaimTrial(db, k, w.owner) && k.eval == w.e
    ensures var d := ReleaseClaim(ClaimTrial(db, k, w.owner, claim, w.now), k, claim);
            Ready(d, w) && d == db.(trials := db.trials[k := db.trials[k].(claimedAt := None)])
  {
    ClaimKeeps(db, w, k, claim);
    ReleaseKeeps(ClaimTrial(db, k, w.owner, claim, w.now), k, claim);
    NoClaimYet(db, k);
    ClaimReleasedTables(db, w, k, claim);
  }

  lemma NoClaimYet(db: Db, k: Key)
    requires StatesOk(db) && k in db.trials && db.trials[k].state.Pending?
    ensures db.trials[k].claim.None?
  {
    assert ShapeOk(k, db.trials[k]);
  }

  lemma ClaimPersistedTables(db: Db, w: Work, k: Key, claim: Token, r: RunId, run: Run)
    requires CanClaimTrial(db, k, w.owner)
    ensures var c := ClaimTrial(db, k, w.owner, claim, w.now);
      var d := Persist(c, k, w.owner, claim, r, run, w.now);
      && CanComplete(c, k, w.owner, claim) && d.jobs == db.jobs && d.runs == db.runs[r := run]
      && d.trials == db.trials[k := DoneRow(db.trials[k], k, claim, r, w.now)]
  {
    var c := ClaimTrial(db, k, w.owner, claim, w.now);
    assert c.trials[k := DoneRow(db.trials[k], k, claim, r, w.now)] == db.trials[k := DoneRow(db.trials[k], k, claim, r, w.now)];
  }

  lemma StillReady(db: Db, d: Db, w: Work, k: Key, row: Trial)
    requires Ready(db, w) && DbInv(d) && d.jobs == db.jobs && d.trials == db.trials[k := row] && !row.state.Claimed?
    ensures Ready(d, w)
  {
  }

  lemma PersistedInvariant(db: Db, w: Work, k: Key, claim: Token, r: RunId, outcome: Outcome)
    requires DbInv(db) && r !in db.runs && k.eval in db.jobs && Pins(db.jobs[k.eval].snapshot, k.task)
    requires DbInv(ClaimTrial(db, k, w.owner, claim, w.now))
    ensures DbInv(Persist(ClaimTrial(db, k, w.owner, claim, w.now), k, w.owner, claim, r,
                          RunFor(db, k, w.backend, BaseSeed(db, k.eval) + k.idx, outcome), w.now))
  {
    hide DbInv;
    var c := ClaimTrial(db, k, w.owner, claim, w.now);
    assert c.jobs == db.jobs && c.runs == db.runs;
    var seed := BaseSeed(db, k.eval) + k.idx;
    assert RunFor(c, k, w.backend, seed, outcome) == RunFor(db, k, w.backend, seed, outcome);
    PersistKeeps(c, k, w.owner, claim, r, w.backend, seed, outcome, w.now);
  }

  lemma ClaimCompleted(db: Db, w: Work, k: Key, claim: Token, r: RunId, outcome: Outcome)
    requires Ready(db, w) && CanClaimTrial(db, k, w.owner) && k.eval == w.e && r !in db.runs
    ensures Pins(db.jobs[w.e].snapshot, k.task)
    ensures var run := RunFor(db, k, w.backend, BaseSeed(db, w.e) + k.idx, outcome);
      var c := ClaimTrial(db, k, w.owner, claim, w.now);
      var d := Persist(c, k, w.owner, claim, r, run, w.now);
      && CanComplete(c, k, w.owner, claim)
      && Ready(d, w) && d.jobs == db.jobs && d.runs == db.runs[r := run]
      && d.trials == db.trials[k := DoneRow(db.trials[k], k, claim, r, w.now)]
  {
    hide DbInv, RunFor;
    PinnedHere(db, k);
    ClaimKeeps(db, w, k, claim);
    var run := RunFor(db, k, w.backend, BaseSeed(db, w.e) + k.idx, outcome);
    PersistedInvariant(db, w, k, claim, r, outcome);
    ClaimPersistedTables(db, w, k, claim, r, run);
    StillReady(db, Persist(ClaimTrial(db, k, w.owner, claim, w.now), k, w.owner, claim, r, run, w.now), w, k,
               DoneRow(db.trials[k], k, claim, r, w.now));
  }

  lemma PinnedHere(db: Db, k: Key)
    requires DbInv(db) && k in db.trials
    ensures k.eval in db.jobs && Pins(db.jobs[k.eval].snapshot, k.task)
  {
    assert PlaceOk(db, k);
    PinUnique(db.jobs[k.eval].snapshot, Pin(k.task, db.trials[k].version, db.trials[k].digest));
  }

  /** The run carries what the attempt at k was graded as and the seed of its call, under the snapshot's model and pinned version. */
  ghost predicate AsGraded(snap: Snapshot, run: Run, k: Key, backend: Option<Backend>, attempt: Attempt, call: Call) {
    && attempt.Graded? && run.outcome == attempt.outcome && run.scored && run.diffed
    && run.eval == Some(k.eval) && run.task == k.task && run.idx == k.idx && run.agent == snap.config.model && run.backend == backend
    && (exists p :: 0 <= p < |snap.tasks| && snap.tasks[p].task == k.task && snap.tasks[p].version == run.version)
    && call.key == k && run.seed == call.seed == snap.config.baseSeed + k.idx
  }

  lemma RunForIsGraded(db: Db, k: Key, backend: Option<Backend>, attempt: Attempt)
    requires k.eval in db.jobs && Pins(db.jobs[k.eval].snapshot, k.task) && attempt.Graded?
    ensures var seed := BaseSeed(db, k.eval) + k.idx;
      AsGraded(db.jobs[k.eval].snapshot, RunFor(db, k, backend, seed, attempt.outcome), k, backend, attempt, Call(k, seed))
  {
    var snap := db.jobs[k.eval].snapshot;
    var p :| 0 <= p < |snap.tasks| && snap.tasks[p] == PinOf(snap, k.task);
  }

  /** Attempts a claimed position: one agent per task is kept, and re-seeded before every attempt. */
  method Execute(cp: ControlPlane, k: Key, claim: Token, w: Work, agents: map<TaskId, SeededAgent>)
    returns (exit: RowExit, calls: seq<Call>, agents': map<TaskId, SeededAgent>)
    requires cp.Valid() && k.eval in cp.jobs && Pins(cp.jobs[k.eval].snapshot, k.task)
    requires CanComplete(cp.Contents(), k, w.owner, claim) && !w.attempt(k).TaskChanged?
    modifies cp`trials, cp`runs, cp`nextRun, agents.Values
    ensures cp.Valid() && (forall t :: t in agents'.Values ==> t in agents.Values || fresh(t))
    ensures w.attempt(k).Graded? ==>
      && exit == Continue && calls == [Call(k, BaseSeed(old(cp.Contents()), k.eval) + k.idx)]
      && cp.Contents() == Persist(old(cp.Contents()), k, w.owner, claim, old(cp.nextRun),
           RunFor(old(cp.Contents()), k, w.backend, BaseSeed(old(cp.Contents()), k.eval) + k.idx, w.attempt(k).outcome), w.now)
    ensures w.attempt(k).Graded? ==>
      && k in cp.trials && cp.trials[k].state.Completed? && cp.trials[k].evidence.Fresh? && cp.trials[k].run == Some(old(cp.nextRun))
      && old(cp.nextRun) in cp.runs && |calls| == 1
      && AsGraded(old(cp.jobs)[k.eval].snapshot, cp.runs[old(cp.nextRun)], k, w.backend, w.attempt(k), calls[0])
    ensures !w.attempt(k).Graded? ==>
      && exit == Stop(Failed) && cp.Contents() == ReleaseClaim(old(cp.Contents()), k, claim)
      && calls == if w.attempt(k).FactoryRaises? then [] else [Call(k, BaseSeed(old(cp.Contents()), k.eval) + k.idx)]
  {
    var snap := cp.jobs[k.eval].snapshot;
    agents', calls := agents, [];
    if w.attempt(k).FactoryRaises? {
      cp.ReleaseClaim(k, claim);
      return Stop(Failed), calls, agents';
    }
    var agent: SeededAgent;
    if k.task in agents {
      agent := agents[k.task];
    } else {
      agent := new SeededAgent(snap.config.baseSeed);
      agents' := agents[k.task := agent];
    }
    agent.SetRunSeed(snap.config.baseSeed + k.idx);
    var seed := agent.Act();
    calls := [Call(k, seed)];
    if w.attempt(k).RunRaises? {
      cp.ReleaseClaim(k, claim);
      return Stop(Failed), calls, agents';
    }
    var run := Run(Some(k.eval), snap.config.model, k.task, PinOf(snap, k.task).version, k.idx, w.backend, seed, true, true,
                   w.attempt(k).outcome);
    var persisted := cp.SaveRunAndComplete(k, w.owner, claim, run, w.now);
    RunForIsGraded(old(cp.Contents()), k, w.backend, w.attempt(k));
    exit := Continue;
  }

  /** One iteration of the loop over trial_rows, after the lease renewal. */
  method RunRow(cp: ControlPlane, k: Key, read: TrialState, w: Work, agents: map<TaskId, SeededAgent>)
    returns (exit: RowExit, calls: seq<Call>, agents': map<TaskId, SeededAgent>)
    requires cp.Valid() && Ready(cp.Contents(), w) && k in KeysOf(cp.Contents(), w.e)
    modifies cp`trials, cp`runs, cp`nextRun, cp`nextToken, agents.Values
    ensures cp.Valid() && Ready(cp.Contents(), w) && (forall t :: t in agents'.Values ==> t in agents.Values || fresh(t))
    ensures RowDone(old(cp.Contents()), cp.Contents(), k, read, w, old(cp.nextRun), exit)
    ensures cp.jobs == old(cp.jobs) && old(cp.nextRun) !in old(cp.runs)
    ensures calls == if !old(cp.jobs[w.e].cancel) && Attempted(old(cp.Contents()), k, read, w) && !w.attempt(k).FactoryRaises?
                     then [Call(k, BaseSeed(old(cp.Contents()), w.e) + k.idx)] else []
  {
    hide DbInv;
    agents', calls := agents, [];
    if read.Completed? || read.Blocked? { return Continue, calls, agents'; }
    if cp.jobs[w.e].cancel { return Stop(Canceled), calls, agents'; }
    ghost var db, r := cp.Contents(), cp.nextRun;
    if w.attempt(k).TaskChanged? {
      BlockKeeps(db, w, k.task);
      cp.MarkTrialUnverifiable(w.e, k.task, w.owner);
      return Continue, calls, agents';
    }
    var claim := cp.ClaimTrial(k, w.owner, w.now);
    if claim.None? { return Continue, calls, agents'; }
    ClaimReleased(db, w, k, claim.value);
    ClaimCompleted(db, w, k, claim.value, r, if w.attempt(k).Graded? then w.attempt(k).outcome else Outcome(false, false, false, false, 0));
    exit, calls, agents' := Execute(cp, k, claim.value, w, agents);
  }

  // ---- The whole execution ---------------------------------------------------------------

  /** Can this position end completed: it already is, or it is pending and its attempt gets graded. */
  predicate Completable(db: Db, k: Key, w: Work)
    requires k in db.trials
  {
    db.trials[k].state.Completed? || (db.trials[k].state.Pending? && w.attempt(k).Graded?)
  }

  predicate AllCompletable(db: Db, w: Work) {
    forall k :: k in db.trials && k.eval == w.e ==> Completable(db, k, w)
  }

  /** Every call is for a position that was pending, with that position's seed, and positions come in strictly increasing order. */
  ghost predicate CallsInOrder(db: Db, base: int, calls: seq<Call>) {
    && (forall i :: 0 <= i < |calls| ==>
         calls[i].key in db.trials && db.trials[calls[i].key].state.Pending? && calls[i].seed == base + calls[i].key.idx)
    && (forall i, j :: 0 <= i < j < |calls| ==> Before(calls[i].key, calls[j].key))
  }

  ghost predicate CalledFor(calls: seq<Call>, k: Key) {
    exists i :: 0 <= i < |calls| && calls[i].key == k
  }

  /** A position completed by this execution holds the run of its own call. */
  ghost predicate NewEvidence(db: Db, d: Db, w: Work, k: Key)
    requires w.e in db.jobs
  {
    && k in d.trials && IsFresh(d, k) && d.trials[k].run.Some? && d.trials[k].run.value in d.runs
    && d.trials[k].run.value !in db.runs && w.attempt(k).Graded? && Pins(db.jobs[w.e].snapshot, k.task) && k.eval == w.e
    && d.runs[d.trials[k].run.value] == RunFor(db, k, w.backend, BaseSeed(db, w.e) + k.idx, w.attempt(k).outcome)
  }

  /** When every row before i could be completed it was, and the rest are as they were. */
  ghost predicate CompletedSoFar(db: Db, d: Db, w: Work, keys: seq<Key>, i: nat)
    requires i <= |keys| && forall k :: k in keys ==> k in db.trials && k in d.trials
  {
    (forall j :: 0 <= j < i ==> Completable(db, keys[j], w)) ==>
      && (forall j :: 0 <= j < i ==> d.trials[keys[j]].state.Completed?)
      && (forall j :: i <= j < |keys| ==> d.trials[keys[j]] == db.trials[keys[j]])
  }

  /** The lease may be newer, runs were only added, and no position outside the evaluation or completed before changed. */
  ghost predicate Grown(db: Db, d: Db, w: Work)
    requires w.e in db.jobs
  {
    && OnlyLease(db, d, w.e) && d.trials.Keys == db.trials.Keys
    && (forall r :: r in db.runs ==> r in d.runs && d.runs[r] == db.runs[r])
    && (forall k :: k in db.trials && (k.eval != w.e || db.trials[k].state.Completed?) ==> d.trials[k] == db.trials[k])
    && (forall k :: k in db.trials && d.trials[k].state.Pending? ==> db.trials[k].state.Pending?)
  }

  ghost predicate Evidenced(db: Db, d: Db, w: Work, calls: seq<Call>)
    requires w.e in db.jobs && d.trials.Keys == db.trials.Keys
  {
    forall k :: k in db.trials && !db.trials[k].state.Completed? && d.trials[k].state.Completed? ==>
      NewEvidence(db, d, w, k) && CalledFor(calls, k)
  }

  predicate CalledWithin(calls: seq<Call>, keys: seq<Key>) {
    forall j :: 0 <= j < |calls| ==> calls[j].key in keys
  }

  /** How far the loop has come: rows[..i] dealt with, the tables now d, having started from db. */
  ghost predicate Progress(db: Db, d: Db, w: Work, keys: seq<Key>, i: nat, calls: seq<Call>)
    requires w.e in db.jobs && i <= |keys| && forall k :: k in keys ==> k in db.trials
  {
    && Grown(db, d, w) && Evidenced(db, d, w, calls)
    && CallsInOrder(db, BaseSeed(db, w.e), calls) && CalledWithin(calls, keys[..i])
    && CompletedSoFar(db, d, w, keys, i)
    && (db.jobs[w.e].cancel ==> calls == [] && d.trials == db.trials && d.runs == db.runs)
  }

  lemma ProgressStart(db: Db, w: Work, keys: seq<Key>)
    requires w.e in db.jobs && forall k :: k in keys ==> k in db.trials
    ensures Progress(db, db, w, keys, 0, [])
  {
  }

  lemma ProgressRenewed(db: Db, d: Db, d': Db, w: Work, keys: seq<Key>, i: nat, calls: seq<Call>)
    requires w.e in db.jobs && i <= |keys| && forall k :: k in keys ==> k in db.trials
    requires Progress(db, d, w, keys, i, calls) && OnlyLease(d, d', w.e) && d'.trials == d.trials && d'.runs == d.runs
    ensures Progress(db, d', w, keys, i, calls)
  {
    forall k | k in db.trials && !db.trials[k].state.Completed? && d'.trials[k].state.Completed? ensures NewEvidence(db, d', w, k) {
      assert NewEvidence(db, d, w, k);
    }
  }

  lemma CallsExtend(db: Db, base: int, calls: seq<Call>, keys: seq<Key>, i: nat)
    requires i < |keys| && Sorted(keys) && CallsInOrder(db, base, calls)
    requires CalledWithin(calls, keys[..i])
    requires keys[i] in db.trials && db.trials[keys[i]].state.Pending?
    ensures var more := calls + [Call(keys[i], base + keys[i].idx)];
      && CallsInOrder(db, base, more) && CalledFor(more, keys[i])
      && CalledWithin(more, keys[..i + 1])
      && (forall k :: CalledFor(calls, k) ==> CalledFor(more, k))
  {
    var more := calls + [Call(keys[i], base + keys[i].idx)];
    assert more[|calls|].key == keys[i];
    assert keys[..i + 1] == keys[..i] + [keys[i]];
    forall a | 0 <= a < |calls| ensures Before(calls[a].key, keys[i]) {
      var j :| 0 <= j < i && keys[j] == calls[a].key;
    }
    forall k | CalledFor(calls, k) ensures CalledFor(more, k) {
      var c :| 0 <= c < |calls| && calls[c].key == k;
      assert more[c].key == k;
    }
  }

  ghost predicate MoreCalls(db: Db, base: int, calls: seq<Call>, more: seq<Call>, keys: seq<Key>) {
    && CallsInOrder(db, base, more) && CalledWithin(more, keys)
    && forall k :: CalledFor(calls, k) ==> CalledFor(more, k)
  }

  /** A row that changes no completed position. */
  lemma ProgressQuiet(db: Db, d: Db, d': Db, w: Work, keys: seq<Key>, i: nat, calls: seq<Call>, more: seq<Call>)
    requires w.e in db.jobs && i < |keys| && Sorted(keys) && forall k :: k in keys ==> k in db.trials
    requires Progress(db, d, w, keys, i, calls) && d'.jobs == d.jobs && d'.runs == d.runs && d'.trials.Keys == d.trials.Keys
    requires forall k :: k in d.trials && (k.eval != w.e || d.trials[k].state.Completed?) ==> d'.trials[k] == d.trials[k]
    requires forall k :: k in d.trials && d'.trials[k].state.Completed? ==> d'.trials[k] == d.trials[k]
    requires forall k :: k in d.trials && d'.trials[k].state.Pending? ==> d.trials[k].state.Pending?
    requires (forall j :: 0 <= j <= i ==> Completable(db, keys[j], w)) ==>
               d'.trials == d.trials && d.trials[keys[i]].state.Completed?
    requires db.jobs[w.e].cancel ==> d'.trials == d.trials && more == calls
    requires MoreCalls(db, BaseSeed(db, w.e), calls, more, keys[..i + 1])
    ensures Progress(db, d', w, keys, i + 1, more)
  {
    hide Grown, Evidenced, CompletedSoFar, CallsInOrder, CalledWithin, Sorted;
    PendingBefore(db, d, w, keys[i]);
    QuietEvidence(db, d, d', w, calls, more);
    QuietCompletion(db, d, d', w, keys, i);
    QuietGrowth(db, d, d', w);
  }

  lemma QuietEvidence(db: Db, d: Db, d': Db, w: Work, calls: seq<Call>, more: seq<Call>)
    requires w.e in db.jobs && d'.runs == d.runs && d'.trials.Keys == d.trials.Keys == db.trials.Keys && Evidenced(db, d, w, calls)
    requires forall k :: k in d.trials && d'.trials[k].state.Completed? ==> d'.trials[k] == d.trials[k]
    requires forall k :: CalledFor(calls, k) ==> CalledFor(more, k)
    ensures Evidenced(db, d', w, more)
  {
    hide CalledFor;
    forall k | k in db.trials && !db.trials[k].state.Completed? && d'.trials[k].state.Completed?
      ensures NewEvidence(db, d', w, k) && CalledFor(more, k)
    {
      assert NewEvidence(db, d, w, k) && CalledFor(calls, k);
    }
  }

  lemma QuietCompletion(db: Db, d: Db, d': Db, w: Work, keys: seq<Key>, i: nat)
    requires i < |keys| && d'.trials.Keys == d.trials.Keys == db.trials.Keys && forall k :: k in keys ==> k in db.trials
    requires CompletedSoFar(db, d, w, keys, i)
    requires (forall j :: 0 <= j <= i ==> Completable(db, keys[j], w)) ==>
               d'.trials == d.trials && d.trials[keys[i]].state.Completed?
    ensures CompletedSoFar(db, d', w, keys, i + 1)
  {
  }

  lemma QuietGrowth(db: Db, d: Db, d': Db, w: Work)
    requires w.e in db.jobs && Grown(db, d, w) && d'.jobs == d.jobs && d'.runs == d.runs && d'.trials.Keys == d.trials.Keys
    requires forall k :: k in d.trials && (k.eval != w.e || d.trials[k].state.Completed?) ==> d'.trials[k] == d.trials[k]
    requires forall k :: k in d.trials && d'.trials[k].state.Pending? ==> d.trials[k].state.Pending?
    ensures Grown(db, d', w)
  {
  }

  lemma EvidenceStays(db: Db, d: Db, d': Db, w: Work, k: Key, r: RunId, run: Run, row: Trial, j: Key)
    requires w.e in db.jobs && NewEvidence(db, d, w, j) && j != k && r !in d.runs && k in d.trials
    requires d'.trials == d.trials[k := row] && d'.runs == d.runs[r := run]
    ensures NewEvidence(db, d', w, j)
  {
  }

  /** A fresh completed row that holds run r. */
  predicate DoneBy(row: Trial, r: RunId) {
    row.state.Completed? && row.evidence.Fresh? && row.run == Some(r)
  }

  lemma EvidenceAdded(db: Db, d: Db, d': Db, w: Work, k: Key, r: RunId, row: Trial, run: Run)
    requires w.e in db.jobs && k in d.trials && k.eval == w.e && w.attempt(k).Graded? && Pins(db.jobs[w.e].snapshot, k.task) && r !in db.runs
    requires d'.trials == d.trials[k := row] && d'.runs == d.runs[r := run] && DoneBy(row, r)
    requires run == RunFor(db, k, w.backend, BaseSeed(db, w.e) + k.idx, w.attempt(k).outcome)
    ensures NewEvidence(db, d', w, k)
  {
  }

  lemma NewEvidenceHas(db: Db, d: Db, d': Db, w: Work, keys: seq<Key>, i: nat, calls: seq<Call>, r: RunId, row: Trial, run: Run)
    requires w.e in db.jobs && i < |keys| && Sorted(keys) && (forall k :: k in keys ==> k in db.trials && k.eval == w.e)
    requires Progress(db, d, w, keys, i, calls) && !db.jobs[w.e].cancel && r !in d.runs
    requires d.trials[keys[i]].state.Pending? && w.attempt(keys[i]).Graded? && Pins(db.jobs[w.e].snapshot, keys[i].task)
    requires d'.jobs == d.jobs && d'.trials == d.trials[keys[i] := row] && d'.runs == d.runs[r := run] && DoneBy(row, r)
    requires run == RunFor(db, keys[i], w.backend, BaseSeed(db, w.e) + keys[i].idx, w.attempt(keys[i]).outcome)
    ensures d'.trials.Keys == db.trials.Keys == d.trials.Keys
    ensures Evidenced(db, d', w, calls + [Call(keys[i], BaseSeed(db, w.e) + keys[i].idx)])
  {
    var k, more := keys[i], calls + [Call(keys[i], BaseSeed(db, w.e) + keys[i].idx)];
    CallsExtend(db, BaseSeed(db, w.e), calls, keys, i);
    EvidenceAdded(db, d, d', w, k, r, row, run);
    hide CallsInOrder, RunFor, CompletedSoFar;
    forall j | j in db.trials && !db.trials[j].state.Completed? && d'.trials[j].state.Completed?
      ensures NewEvidence(db, d', w, j) && CalledFor(more, j)
    {
      if j != k {
        assert NewEvidence(db, d, w, j) && CalledFor(calls, j);
        EvidenceStays(db, d, d', w, k, r, run, row, j);
      }
    }
  }

  lemma ProgressCalled(db: Db, d: Db, d': Db, w: Work, keys: seq<Key>, i: nat, calls: seq<Call>, r: RunId, row: Trial, run: Run)
    requires w.e in db.jobs && i < |keys| && Sorted(keys) && (forall k :: k in keys ==> k in db.trials && k.eval == w.e)
    requires Progress(db, d, w, keys, i, calls) && !db.jobs[w.e].cancel && r !in d.runs
    requires d.trials[keys[i]].state.Pending? && w.attempt(keys[i]).Graded? && Pins(db.jobs[w.e].snapshot, keys[i].task)
    requires d'.jobs == d.jobs && d'.trials == d.trials[keys[i] := row] && d'.runs == d.runs[r := run] && DoneBy(row, r)
    requires run == RunFor(db, keys[i], w.backend, BaseSeed(db, w.e) + keys[i].idx, w.attempt(keys[i]).outcome)
    ensures Progress(db, d', w, keys, i + 1, calls + [Call(keys[i], BaseSeed(db, w.e) + keys[i].idx)])
  {
    hide Grown, Evidenced, CallsInOrder, CalledWithin, RunFor, CompletedSoFar, Sorted;
    PendingBefore(db, d, w, keys[i]);
    CallsExtend(db, BaseSeed(db, w.e), calls, keys, i);
    NewEvidenceHas(db, d, d', w, keys, i, calls, r, row, run);
    CompletedOneMore(db, d, d', w, keys, i);
    GrownByRun(db, d, d', w, keys[i], r, row, run);
  }

  lemma PendingBefore(db: Db, d: Db, w: Work, k: Key)
    requires w.e in db.jobs && Grown(db, d, w) && k in db.trials
    ensures d.trials.Keys == db.trials.Keys && k in d.trials
    ensures d.trials[k].state.Pending? ==> db.trials[k].state.Pending?
  {
  }

  lemma GrownByRun(db: Db, d: Db, d': Db, w: Work, k: Key, r: RunId, row: Trial, run: Run)
    requires w.e in db.jobs && Grown(db, d, w) && k in d.trials && d.trials[k].state.Pending? && k.eval == w.e && r !in d.runs
    requires d'.jobs == d.jobs && d'.trials == d.trials[k := row] && d'.runs == d.runs[r := run] && !row.state.Pending?
    ensures Grown(db, d', w)
  {
  }

  lemma CompletedOneMore(db: Db, d: Db, d': Db, w: Work, keys: seq<Key>, i: nat)
    requires i < |keys| && Sorted(keys) && forall k :: k in keys ==> k in db.trials && k in d.trials && k in d'.trials
    requires CompletedSoFar(db, d, w, keys, i) && d'.trials[keys[i]].state.Completed?
    requires forall k :: k in d.trials && k != keys[i] ==> k in d'.trials && d'.trials[k] == d.trials[k]
    ensures CompletedSoFar(db, d', w, keys, i + 1)
  {
    assert forall j :: 0 <= j < |keys| && j != i ==> keys[j] != keys[i];
  }

  lemma NoMoreCalls(db: Db, base: int, calls: seq<Call>, keys: seq<Key>, i: nat)
    requires i < |keys| && CallsInOrder(db, base, calls) && CalledWithin(calls, keys[..i])
    ensures MoreCalls(db, base, calls, calls, keys[..i + 1])
  {
    assert keys[..i + 1] == keys[..i] + [keys[i]];
  }

  lemma CallMade(db: Db, base: int, calls: seq<Call>, made: seq<Call>, keys: seq<Key>, i: nat)
    requires i < |keys| && Sorted(keys) && CallsInOrder(db, base, calls)
    requires CalledWithin(calls, keys[..i])
    requires keys[i] in db.trials && db.trials[keys[i]].state.Pending?
    requires made == [] || made == [Call(keys[i], base + keys[i].idx)]
    ensures MoreCalls(db, base, calls, calls + made, keys[..i + 1])
  {
    NoMoreCalls(db, base, calls, keys, i);
    CallsExtend(db, base, calls, keys, i);
    assert calls + [] == calls;
  }

  /** The loop is at rows[i] of a run that began with tables db and now has tables d. */
  ghost predicate AtRow(db: Db, d: Db, w: Work, keys: seq<Key>, i: nat, calls: seq<Call>) {
    && Ready(db, w) && Ready(d, w) && RowsInOrder(db, w.e, keys) && i < |keys| && keys[i] in KeysOf(db, w.e)
    && keys[i] in KeysOf(d, w.e)
    && Progress(db, d, w, keys, i, calls)
  }

  lemma QuietRow(db: Db, d: Db, d': Db, w: Work, keys: seq<Key>, i: nat, calls: seq<Call>, r: RunId, exit: RowExit)
    requires AtRow(db, d, w, keys, i, calls) && d'.jobs == d.jobs && exit == Continue
    requires RowDone(d, d', keys[i], db.trials[keys[i]].state, w, r, exit)
    requires !Attempted(d, keys[i], db.trials[keys[i]].state, w)
    ensures Progress(db, d', w, keys, i + 1, calls)
  {
    hide DbInv, CallsInOrder, NewEvidence, CalledFor;
    NoMoreCalls(db, BaseSeed(db, w.e), calls, keys, i);
    assert !db.trials[keys[i]].state.Claimed?;
    ProgressQuiet(db, d, d', w, keys, i, calls, calls);
  }

  lemma GradedRow(db: Db, d: Db, d': Db, w: Work, keys: seq<Key>, i: nat, calls: seq<Call>, r: RunId, exit: RowExit)
    requires AtRow(db, d, w, keys, i, calls) && d'.jobs == d.jobs && r !in d.runs && !d.jobs[w.e].cancel
    requires RowDone(d, d', keys[i], db.trials[keys[i]].state, w, r, exit)
    requires Attempted(d, keys[i], db.trials[keys[i]].state, w) && w.attempt(keys[i]).Graded?
    ensures exit == Continue && Progress(db, d', w, keys, i + 1, calls + [Call(keys[i], BaseSeed(db, w.e) + keys[i].idx)])
  {
    hide DbInv, CallsInOrder, NewEvidence, CalledFor;
    var claim :| d'.trials == d.trials[keys[i] := DoneRow(d.trials[keys[i]], keys[i], claim, r, w.now)];
    ProgressCalled(db, d, d', w, keys, i, calls, r, DoneRow(d.trials[keys[i]], keys[i], claim, r, w.now), d'.runs[r]);
  }

  lemma FailedRow(db: Db, d: Db, d': Db, w: Work, keys: seq<Key>, i: nat, calls: seq<Call>, made: seq<Call>, r: RunId, exit: RowExit)
    requires AtRow(db, d, w, keys, i, calls) && d'.jobs == d.jobs && !d.jobs[w.e].cancel
    requires RowDone(d, d', keys[i], db.trials[keys[i]].state, w, r, exit)
    requires Attempted(d, keys[i], db.trials[keys[i]].state, w) && !w.attempt(keys[i]).Graded?
    requires made == [] || made == [Call(keys[i], BaseSeed(db, w.e) + keys[i].idx)]
    ensures exit == Stop(Failed) && Progress(db, d', w, keys, i + 1, calls + made)
    ensures !Completable(db, keys[i], w) && !d'.trials[keys[i]].state.Completed?
  {
    hide DbInv, NewEvidence, CallsInOrder, CalledFor, MoreCalls;
    CallMade(db, BaseSeed(db, w.e), calls, made, keys, i);
    ProgressQuiet(db, d, d', w, keys, i, calls, calls + made);
  }

  /** One iteration takes the loop one row further; it stops only on a cancel request or a position it cannot complete. */
  lemma RowProgress(db: Db, d: Db, d': Db, w: Work, keys: seq<Key>, i: nat, calls: seq<Call>, made: seq<Call>, r: RunId, exit: RowExit)
    requires AtRow(db, d, w, keys, i, calls) && d'.jobs == d.jobs && r !in d.runs
    requires RowDone(d, d', keys[i], db.trials[keys[i]].state, w, r, exit)
    requires made == if !d.jobs[w.e].cancel && Attempted(d, keys[i], db.trials[keys[i]].state, w) && !w.attempt(keys[i]).FactoryRaises?
                     then [Call(keys[i], BaseSeed(d, w.e) + keys[i].idx)] else []
    ensures exit == Stop(Canceled) ==> db.jobs[w.e].cancel && made == [] && Progress(db, d', w, keys, i, calls)
    ensures exit == Stop(Failed) ==> !db.jobs[w.e].cancel && !AllCompletable(db, w) && !AllCompleted(d', w.e)
    ensures exit != Stop(Canceled) ==> Progress(db, d', w, keys, i + 1, calls + made)
    ensures exit == Continue || exit == Stop(Canceled) || exit == Stop(Failed)
  {
    hide DbInv, CallsInOrder, NewEvidence, CalledFor;
    var k := keys[i];
    assert calls + [] == calls;
    if !Attempted(d, k, db.trials[k].state, w) {
      if exit == Continue { QuietRow(db, d, d', w, keys, i, calls, r, exit); } else { assert d' == d; }
    } else if d.jobs[w.e].cancel {
      assert d' == d;
    } else if w.attempt(k).Graded? {
      GradedRow(db, d, d', w, keys, i, calls, r, exit);
    } else {
      FailedRow(db, d, d', w, keys, i, calls, made, r, exit);
      assert k in db.trials && k.eval == w.e && k in d'.trials;
    }
  }

  /** Tables of an executor that holds its token, or of one that lost it before it began. */
  ghost predicate Started(db: Db, w: Work) {
    DbInv(db) && w.e in db.jobs && (Owned(db, w.e, w.owner) ==> Ready(db, w))
  }

  /** The loop over trial_rows: runs every row, or stops where the lease is lost, a cancel request is seen or an attempt raises. */
  method RunRows(cp: ControlPlane, keys: seq<Key>, w: Work) returns (exit: RowExit, calls: seq<Call>)
    requires cp.Valid() && Started(cp.Contents(), w) && RowsInOrder(cp.Contents(), w.e, keys)
    modifies cp
    ensures cp.Valid()
    ensures !old(Owned(cp.Contents(), w.e, w.owner)) ==> cp.Contents() == old(cp.Contents()) && calls == []
    ensures old(Owned(cp.Contents(), w.e, w.owner)) ==>
      LoopResult(old(cp.Contents()), cp.Contents(), w, keys, calls, exit)
  {
    hide DbInv, Progress, RowDone;
    var read := cp.trials;
    ghost var db := cp.Contents();
    var agents: map<TaskId, SeededAgent> := map[];
    calls := [];
    ProgressStart(db, w, keys);
    for i := 0 to |keys|
      invariant cp.Valid()
      invariant Owned(db, w.e, w.owner) ==> Ready(cp.Contents(), w) && Progress(db, cp.Contents(), w, keys, i, calls)
      invariant !Owned(db, w.e, w.owner) ==> cp.Contents() == db && calls == [] && i == 0
      invariant forall t :: t in agents.Values ==> fresh(t)
    {
      ghost var d0 := cp.Contents();
      var renewed := cp.TouchOwner(w.e, w.owner, w.now);
      if !renewed { return LeaseLost, []; }
      RenewKeeps(d0, w, w.now);
      ghost var d, r := cp.Contents(), cp.nextRun;
      ProgressRenewed(db, d0, d, w, keys, i, calls);
      SameRows(db, d, w, keys, i, calls);
      var made;
      exit, made, agents := RunRow(cp, keys[i], read[keys[i]].state, w, agents);
      RowProgress(db, d, cp.Contents(), w, keys, i, calls, made, r, exit);
      assert made == [] ==> calls + made == calls;
      calls := calls + made;
      if exit != Continue { return; }
    }
    return Continue, calls;
  }

  lemma SameRows(db: Db, d: Db, w: Work, keys: seq<Key>, i: nat, calls: seq<Call>)
    requires Ready(db, w) && Ready(d, w) && RowsInOrder(db, w.e, keys) && i < |keys| && Progress(db, d, w, keys, i, calls)
    ensures AtRow(db, d, w, keys, i, calls)
  {
    assert keys[i] in keys;
  }

  ghost predicate LoopResult(db: Db, d: Db, w: Work, keys: seq<Key>, calls: seq<Call>, exit: RowExit)
    requires w.e in db.jobs && forall k :: k in keys ==> k in db.trials
  {
    && Ready(d, w) && (exists i: nat :: i <= |keys| && Progress(db, d, w, keys, i, calls))
    && (exit == Continue ==> Progress(db, d, w, keys, |keys|, calls))
    && (exit == Continue || exit == Stop(Canceled) || exit == Stop(Failed))
    && (exit == Stop(Canceled) ==> db.jobs[w.e].cancel)
    && (exit == Stop(Failed) ==> !db.jobs[w.e].cancel && !AllCompletable(db, w) && !AllCompleted(d, w.e))
  }

  // ---- Whole executions ------------------------------------------------------------------

  /** Every uncompleted position of these tasks blocked as unverifiable. */
  function BlockTasks(db: Db, e: EvalId, tasks: seq<TaskId>): map<Key, Trial> {
    map k | k in db.trials ::
      if k.eval == e && k.task in tasks && !db.trials[k].state.Completed?
      then db.trials[k].(state := Blocked, evidence := Unverifiable) else db.trials[k]
  }

  lemma BlockOneMore(db: Db, d: Db, w: Work, tasks: seq<TaskId>, p: nat)
    requires p < |tasks| && Owned(d, w.e, w.owner) && d.trials == BlockTasks(db, w.e, tasks[..p])
    ensures BlockTask(d, w.e, tasks[p], w.owner).trials == BlockTasks(db, w.e, tasks[..p + 1])
  {
    assert tasks[..p + 1] == tasks[..p] + [tasks[p]];
    assert BlockTask(d, w.e, tasks[p], w.owner).trials == BlockTasks(db, w.e, tasks[..p + 1]);
  }

  lemma AllTasksBlocked(db: Db, w: Work, tasks: seq<TaskId>, keys: seq<Key>)
    requires RowsInOrder(db, w.e, keys) && forall i :: 0 <= i < |keys| ==> keys[i] in db.trials
    requires forall i :: 0 <= i < |keys| && !db.trials[keys[i]].state.Completed? ==> keys[i].task in tasks
    ensures BlockTasks(db, w.e, tasks) == AllBlocked(db, w.e)
  {
    forall k | k in KeysOf(db, w.e) && !db.trials[k].state.Completed? ensures k.task in tasks {
      var i :| 0 <= i < |keys| && keys[i] == k;
    }
    assert BlockTasks(db, w.e, tasks) == AllBlocked(db, w.e);
  }

  function AllBlocked(db: Db, e: EvalId): map<Key, Trial> {
    map k | k in db.trials ::
      if k.eval == e && !db.trials[k].state.Completed?
      then db.trials[k].(state := Blocked, evidence := Unverifiable) else db.trials[k]
  }

  /** _fail_unverifiable's loop: the tasks that still have an uncompleted position, each blocked once. */
  method BlockEverything(cp: ControlPlane, w: Work)
    requires cp.Valid() && Started(cp.Contents(), w)
    modifies cp`trials
    ensures !old(Owned(cp.Contents(), w.e, w.owner)) ==> cp.Contents() == old(cp.Contents())
    ensures old(Owned(cp.Contents(), w.e, w.owner)) ==>
      Ready(cp.Contents(), w) && cp.trials == AllBlocked(old(cp.Contents()), w.e)
  {
    hide DbInv;
    ghost var db := cp.Contents();
    var keys := cp.TrialRows(w.e);
    assert forall i :: 0 <= i < |keys| ==> keys[i] in KeysOf(db, w.e);
    var tasks: seq<TaskId> := [];
    for i := 0 to |keys|
      invariant forall j :: 0 <= j < i && !db.trials[keys[j]].state.Completed? ==> keys[j].task in tasks
    {
      if !cp.trials[keys[i]].state.Completed? && keys[i].task !in tasks { tasks := tasks + [keys[i].task]; }
    }
    assert BlockTasks(db, w.e, tasks[..0]) == db.trials;
    for p := 0 to |tasks|
      invariant !Owned(db, w.e, w.owner) ==> cp.Contents() == db
      invariant Owned(db, w.e, w.owner) ==> Ready(cp.Contents(), w) && cp.trials == BlockTasks(db, w.e, tasks[..p])
    {
      if Owned(db, w.e, w.owner) {
        BlockKeeps(cp.Contents(), w, tasks[p]);
        BlockOneMore(db, cp.Contents(), w, tasks, p);
      }
      cp.MarkTrialUnverifiable(w.e, tasks[p], w.owner);
    }
    assert tasks[..|tasks|] == tasks;
    AllTasksBlocked(db, w, tasks, keys);
  }

  function FinalStatus(db: Db, w: Work, paramsOk: bool): Status
    requires w.e in db.jobs
  {
    if db.jobs[w.e].mode.Legacy? || !paramsOk then Failed
    else if db.jobs[w.e].cancel then Canceled
    else if AllCompletable(db, w) then Succeeded
    else Failed
  }

  /** What one undisturbed execution leaves behind. */
  ghost predicate Executed(db: Db, d: Db, w: Work, paramsOk: bool, calls: seq<Call>)
    requires w.e in db.jobs
  {
    && DbInv(d) && w.e in d.jobs
    && d.jobs == db.jobs[w.e := db.jobs[w.e].(status := FinalStatus(db, w, paramsOk), token := None, lease := None)]
    && (db.jobs[w.e].mode.Legacy? ==> d.trials == db.trials && d.runs == db.runs && calls == [])
    && (!db.jobs[w.e].mode.Legacy? && !paramsOk ==> d.trials == AllBlocked(db, w.e) && d.runs == db.runs && calls == [])
    && (!db.jobs[w.e].mode.Legacy? && paramsOk && db.jobs[w.e].cancel ==> d.trials == db.trials && d.runs == db.runs && calls == [])
    && (!db.jobs[w.e].mode.Legacy? && paramsOk ==> OnlyOwnEvidence(db, d, w, calls))
    && (d.jobs[w.e].status.Succeeded? ==> AllCompleted(d, w.e))
  }

  /** Nothing completed is touched, nothing outside the evaluation changes, every position completed meanwhile holds the
      run of its own call, and calls go to pending positions only, in order, with seed base + idx. */
  ghost predicate OnlyOwnEvidence(db: Db, d: Db, w: Work, calls: seq<Call>)
    requires w.e in db.jobs
  {
    && d.trials.Keys == db.trials.Keys
    && (forall r :: r in db.runs ==> r in d.runs && d.runs[r] == db.runs[r])
    && (forall k :: k in db.trials && (k.eval != w.e || db.trials[k].state.Completed?) ==> d.trials[k] == db.trials[k])
    && (forall k :: k in db.trials && !db.trials[k].state.Completed? && d.trials[k].state.Completed? ==>
         NewEvidence(db, d, w, k) && CalledFor(calls, k))
    && CallsInOrder(db, BaseSeed(db, w.e), calls) && (forall i :: 0 <= i < |calls| ==> calls[i].key.eval == w.e)
  }

  /** Every position this execution completed holds a new run of its own: as its attempt was graded, with the seed of a call
      that was made for it. */
  ghost predicate AllAsGraded(db: Db, d: Db, e: EvalId, backend: Option<Backend>, attempt: Key -> Attempt, calls: seq<Call>)
    requires e in db.jobs
  {
    forall k :: k in db.trials && !db.trials[k].state.Completed? && k in d.trials && d.trials[k].state.Completed? ==>
      HoldsItsRun(db, d, e, k, backend, attempt(k), calls)
  }

  ghost predicate HoldsItsRun(db: Db, d: Db, e: EvalId, k: Key, backend: Option<Backend>, attempt: Attempt, calls: seq<Call>)
    requires e in db.jobs && k in d.trials
  {
    var t := d.trials[k];
    && k.eval == e && t.evidence.Fresh? && t.run.Some? && t.run.value in d.runs && t.run.value !in db.runs
    && exists i :: 0 <= i < |calls| && AsGraded(db.jobs[e].snapshot, d.runs[t.run.value], k, backend, attempt, calls[i])
  }

  lemma EvidenceIsGraded(db: Db, d: Db, w: Work, calls: seq<Call>, k: Key)
    requires w.e in db.jobs && NewEvidence(db, d, w, k) && CalledFor(calls, k)
    requires forall i :: 0 <= i < |calls| ==> calls[i].seed == BaseSeed(db, w.e) + calls[i].key.idx
    ensures HoldsItsRun(db, d, w.e, k, w.backend, w.attempt(k), calls)
  {
    RunForIsGraded(db, k, w.backend, w.attempt(k));
    hide AsGraded, RunFor;
    var i :| 0 <= i < |calls| && calls[i].key == k;
    assert calls[i] == Call(k, BaseSeed(db, w.e) + k.idx);
  }

  lemma ExecutedAsGraded(db: Db, d: Db, w: Work, paramsOk: bool, calls: seq<Call>)
    requires w.e in db.jobs && Executed(db, d, w, paramsOk, calls)
    ensures AllAsGraded(db, d, w.e, w.backend, w.attempt, calls)
  {
    hide DbInv, NewEvidence, HoldsItsRun, CalledFor;
    forall k | k in db.trials && !db.trials[k].state.Completed? && k in d.trials && d.trials[k].state.Completed?
      ensures HoldsItsRun(db, d, w.e, k, w.backend, w.attempt(k), calls)
    {
      EvidenceIsGraded(db, d, w, calls, k);
    }
  }

  lemma FinishKeeps(db: Db, w: Work, status: Status)
    requires DbInv(db) && Owned(db, w.e, w.owner) && NoneClaimed(db, w.e) && !status.Running?
    requires status.Succeeded? ==> AllCompleted(db, w.e)
    ensures DbInv(MarkTerminal(db, w.e, status, w.owner))
  {
    MarkTerminalQuiet(db, w.e, status, w.owner);
    FrameKeeps(db, MarkTerminal(db, w.e, status, w.owner));
  }

  /** The whole loop ran: the positions are all completed exactly when each was completable. */
  lemma LoopDecides(db: Db, d: Db, w: Work, keys: seq<Key>, calls: seq<Call>)
    requires Ready(db, w) && RowsInOrder(db, w.e, keys) && Progress(db, d, w, keys, |keys|, calls)
    ensures AllCompleted(d, w.e) <==> AllCompletable(db, w)
  {
    if AllCompletable(db, w) {
      assert forall j :: 0 <= j < |keys| ==> keys[j] in KeysOf(db, w.e);
      assert forall j :: 0 <= j < |keys| ==> Completable(db, keys[j], w);
      forall k | k in d.trials && k.eval == w.e ensures d.trials[k].state.Completed? {
        assert k in KeysOf(db, w.e);
        var j :| 0 <= j < |keys| && keys[j] == k;
      }
    }
    if AllCompleted(d, w.e) {
      forall k | k in db.trials && k.eval == w.e ensures Completable(db, k, w) {
        assert k in d.trials;
        if !db.trials[k].state.Completed? {
          assert NewEvidence(db, d, w, k) && CalledFor(calls, k);
        }
      }
    }
  }

  lemma LoopEvidence(db: Db, d: Db, w: Work, keys: seq<Key>, i: nat, calls: seq<Call>)
    requires w.e in db.jobs && i <= |keys| && RowsInOrder(db, w.e, keys) && (forall k :: k in keys ==> k in db.trials)
    requires Progress(db, d, w, keys, i, calls)
    ensures OnlyOwnEvidence(db, d, w, calls)
  {
    forall j | 0 <= j < |calls| ensures calls[j].key.eval == w.e {
      assert calls[j].key in keys[..i] && calls[j].key in keys;
    }
  }

  lemma FinishedEvidence(db: Db, d: Db, d': Db, w: Work, calls: seq<Call>)
    requires w.e in db.jobs && OnlyOwnEvidence(db, d, w, calls) && d'.trials == d.trials && d'.runs == d.runs
    ensures OnlyOwnEvidence(db, d', w, calls)
  {
    forall k | k in db.trials && !db.trials[k].state.Completed? && d'.trials[k].state.Completed?
      ensures NewEvidence(db, d', w, k) && CalledFor(calls, k)
    {
      assert NewEvidence(db, d, w, k);
    }
  }

  /** How an execution that held its token ends: a legacy evaluation and one with untrustworthy parameters fail, the latter with every
      uncompleted position blocked; a cancel request seen ends it before any attempt; otherwise success means all are completed. */
  ghost predicate EndsAs(db: Db, d: Db, e: EvalId, paramsOk: bool)
    requires e in db.jobs
  {
    && e in d.jobs && d.trials.Keys == db.trials.Keys
    && var job, ended := db.jobs[e], d.jobs[e].status;
    && d.jobs[e] == job.(status := ended, token := None, lease := None)
    && (forall f :: f in db.jobs && f != e ==> f in d.jobs && d.jobs[f] == db.jobs[f])
    && (job.mode.Legacy? ==> ended.Failed? && d.trials == db.trials)
    && (!job.mode.Legacy? && !paramsOk ==> ended.Failed? && forall k :: k in db.trials && k.eval == e && !db.trials[k].state.Completed? ==>
          d.trials[k] == db.trials[k].(state := Blocked, evidence := Unverifiable))
    && (!job.mode.Legacy? && paramsOk && job.cancel ==> ended.Canceled? && d.trials == db.trials)
    && (!job.mode.Legacy? && paramsOk && !job.cancel ==>
          && (ended.Succeeded? || ended.Failed?)
          && (ended.Succeeded? <==> forall k :: k in d.trials && k.eval == e ==> d.trials[k].state.Completed?))
    && (forall k :: k in db.trials && (k.eval != e || db.trials[k].state.Completed?) ==> d.trials[k] == db.trials[k])
    && (forall r :: r in db.runs ==> r in d.runs && d.runs[r] == db.runs[r])
  }

  lemma CompletedWasCompletable(db: Db, d: Db, w: Work, calls: seq<Call>)
    requires w.e in db.jobs && OnlyOwnEvidence(db, d, w, calls) && AllCompleted(d, w.e)
    ensures AllCompletable(db, w)
  {
    hide RunFor;
    forall k | k in db.trials && k.eval == w.e ensures Completable(db, k, w) {
      assert k in d.trials;
      if !db.trials[k].state.Completed? { assert NewEvidence(db, d, w, k) && CalledFor(calls, k); }
    }
  }

  lemma ExecutedEndsAs(db: Db, d: Db, w: Work, paramsOk: bool, calls: seq<Call>)
    requires w.e in db.jobs && Executed(db, d, w, paramsOk, calls)
    ensures d.trials.Keys == db.trials.Keys && EndsAs(db, d, w.e, paramsOk)
  {
    hide DbInv, CallsInOrder, NewEvidence, CalledFor, AllCompletable;
    if !db.jobs[w.e].mode.Legacy? && paramsOk && AllCompleted(d, w.e) { CompletedWasCompletable(db, d, w, calls); }
  }

  lemma ExecutionMeans(db: Db, d: Db, w: Work, paramsOk: bool, calls: seq<Call>)
    requires w.e in db.jobs && Executed(db, d, w, paramsOk, calls)
    ensures d.trials.Keys == db.trials.Keys && EndsAs(db, d, w.e, paramsOk)
    ensures AllAsGraded(db, d, w.e, w.backend, w.attempt, calls)
  {
    hide Executed, AllAsGraded, EndsAs;
    ExecutedEndsAs(db, d, w, paramsOk, calls);
    ExecutedAsGraded(db, d, w, paramsOk, calls);
  }

  /** _run_job_locked: the whole execution of a claimed evaluation. */
  method RunJobLocked(cp: ControlPlane, w: Work, paramsOk: bool) returns (calls: seq<Call>)
    requires cp.Valid() && DbInv(cp.Contents())
    requires Owned(cp.Contents(), w.e, w.owner) ==> NoneClaimed(cp.Contents(), w.e)
    modifies cp
    ensures cp.Valid()
    ensures !old(Owned(cp.Contents(), w.e, w.owner)) ==> cp.Contents() == old(cp.Contents()) && calls == []
    ensures old(Owned(cp.Contents(), w.e, w.owner)) ==>
      Executed(old(cp.Contents()), cp.Contents(), w, paramsOk, calls) && EndsAs(old(cp.Contents()), cp.Contents(), w.e, paramsOk)
    ensures w.e in old(cp.jobs) ==> AllAsGraded(old(cp.Contents()), cp.Contents(), w.e, w.backend, w.attempt, calls)
  {
    hide DbInv, OnlyOwnEvidence, Progress, HoldsItsRun, EndsAs;
    ghost var db := cp.Contents();
    if w.e !in cp.jobs || !cp.jobs[w.e].status.Running? { return []; }
    if cp.jobs[w.e].mode.Legacy? {
      if Owned(db, w.e, w.owner) { FinishKeeps(db, w, Failed); }
      cp.MarkTerminal(w.e, Failed, w.owner);
      if Owned(db, w.e, w.owner) { ExecutionMeans(db, cp.Contents(), w, paramsOk, []); }
      return [];
    }
    if !paramsOk {
      calls := RefuseParameters(cp, w);
      if Owned(db, w.e, w.owner) { ExecutionMeans(db, cp.Contents(), w, paramsOk, calls); }
      return;
    }
    var keys := cp.TrialRows(w.e);
    var exit;
    exit, calls := RunRows(cp, keys, w);
    if exit == LeaseLost { return; }
    ghost var d := cp.Contents();
    var status;
    if exit == Continue {
      if cp.jobs[w.e].cancel {
        status := Canceled;
      } else {
        var all := cp.AllTrialsCompleted(w.e);
        status := if all then Succeeded else Failed;
      }
    } else {
      status := exit.status;
    }
    if Owned(db, w.e, w.owner) { LoopEnds(db, d, w, keys, calls, exit, status); }
    cp.MarkTerminal(w.e, status, w.owner);
    if Owned(db, w.e, w.owner) { ExecutionMeans(db, cp.Contents(), w, paramsOk, calls); }
  }

  method RefuseParameters(cp: ControlPlane, w: Work) returns (calls: seq<Call>)
    requires cp.Valid() && DbInv(cp.Contents()) && w.e in cp.jobs && !cp.jobs[w.e].mode.Legacy?
    requires Owned(cp.Contents(), w.e, w.owner) ==> NoneClaimed(cp.Contents(), w.e)
    modifies cp
    ensures cp.Valid()
    ensures !old(Owned(cp.Contents(), w.e, w.owner)) ==> cp.Contents() == old(cp.Contents()) && calls == []
    ensures old(Owned(cp.Contents(), w.e, w.owner)) ==> Executed(old(cp.Contents()), cp.Contents(), w, false, calls)
  {
    hide DbInv;
    ghost var db := cp.Contents();
    BlockEverything(cp, w);
    if Owned(db, w.e, w.owner) { FinishKeeps(cp.Contents(), w, Failed); }
    cp.MarkTerminal(w.e, Failed, w.owner);
    return [];
  }

  lemma LoopEnds(db: Db, d: Db, w: Work, keys: seq<Key>, calls: seq<Call>, exit: RowExit, status: Status)
    requires Ready(db, w) && RowsInOrder(db, w.e, keys) && (forall k :: k in keys ==> k in db.trials)
    requires LoopResult(db, d, w, keys, calls, exit)
    requires exit.Stop? ==> status == exit.status
    requires exit.Continue? ==> status == if d.jobs[w.e].cancel then Canceled else if AllCompleted(d, w.e) then Succeeded else Failed
    ensures Executed(db, MarkTerminal(d, w.e, status, w.owner), w, true, calls)
  {
    hide DbInv, NewEvidence, CallsInOrder, CalledFor;
    var i: nat :| i <= |keys| && Progress(db, d, w, keys, i, calls);
    var d' := MarkTerminal(d, w.e, status, w.owner);
    if exit == Continue { LoopDecides(db, d, w, keys, calls); }
    assert status == FinalStatus(db, w, true);
    LoopEvidence(db, d, w, keys, i, calls);
    FinishedEvidence(db, d, d', w, calls);
    FinishKeeps(d, w, status);
  }

  // ---- Dispatch and resume ---------------------------------------------------------------

  /** What run_job finds besides the tables: is the row readable, is the owner lock free, are the parameters trustworthy. */
  datatype Host = Host(readable: bool, lockFree: bool, paramsOk: bool)

  /** run_job, called with the token its dispatcher acquired. */
  method RunJob(cp: ControlPlane, w: Work, host: Host) returns (calls: seq<Call>)
    requires cp.Valid() && DbInv(cp.Contents())
    requires Owned(cp.Contents(), w.e, w.owner) ==> NoneClaimed(cp.Contents(), w.e)
    modifies cp
    ensures cp.Valid()
    ensures !old(Owned(cp.Contents(), w.e, w.owner)) || (host.readable && !host.lockFree) ==>
      cp.Contents() == old(cp.Contents()) && calls == []
    ensures old(Owned(cp.Contents(), w.e, w.owner)) && !host.readable ==>
      cp.Contents() == MarkTerminal(old(cp.Contents()), w.e, Failed, w.owner) && calls == []
    ensures old(Owned(cp.Contents(), w.e, w.owner)) && host.readable && host.lockFree ==>
      Executed(old(cp.Contents()), cp.Contents(), w, host.paramsOk, calls)
    ensures w.e in old(cp.jobs) ==> AllAsGraded(old(cp.Contents()), cp.Contents(), w.e, w.backend, w.attempt, calls)
  {
    hide DbInv, Executed, HoldsItsRun;
    if w.e !in cp.jobs { return []; }
    if !host.readable {
      cp.MarkTerminal(w.e, Failed, w.owner);
      return [];
    }
    if !cp.jobs[w.e].status.Running? || !host.lockFree { return []; }
    if cp.jobs[w.e].token != Some(w.owner) { return []; }
    calls := RunJobLocked(cp, w, host.paramsOk);
  }

  /** The tables an executor starts from when a resumed evaluation is dispatched. */
  function ResumedAndClaimed(db: Db, e: EvalId, token: Token, now: Time): Db {
    ClaimJob(Resume(db, e), e, token, now)
  }

  lemma ResumedTables(db: Db, e: EvalId, token: Token, now: Time)
    requires DbInv(db) && CanResume(db, e)
    ensures var d := ResumedAndClaimed(db, e, token, now);
      && DbInv(d) && Owned(d, e, token) && NoneClaimed(d, e) && !d.jobs[e].mode.Legacy? && !d.jobs[e].cancel
      && d.jobs[e].snapshot == db.jobs[e].snapshot && d.jobs.Keys == db.jobs.Keys
      && (forall f :: f in db.jobs && f != e ==> d.jobs[f] == db.jobs[f])
      && d.runs == db.runs && d.trials.Keys == db.trials.Keys
      && (forall k :: k in db.trials && (k.eval != e || db.trials[k].state.Completed?) ==> d.trials[k] == db.trials[k])
      && (forall k :: k in db.trials && k.eval == e && !db.trials[k].state.Completed? ==> d.trials[k].state.Pending?)
  {
    ResumeQuiet(db, e);
    FrameKeeps(db, Resume(db, e));
    ClaimJobQuiet(Resume(db, e), e, token, now);
    FrameKeeps(Resume(db, e), ResumedAndClaimed(db, e, token, now));
    ResumedRows(db, e);
  }

  lemma ResumedRows(db: Db, e: EvalId)
    requires DbInv(db) && CanResume(db, e)
    ensures forall k :: k in db.trials && k.eval == e && !db.trials[k].state.Completed? ==> Resume(db, e).trials[k].state.Pending?
  {
    forall k | k in db.trials && k.eval == e && !db.trials[k].state.Completed? ensures Resume(db, e).trials[k].state.Pending? {
      assert ShapeOk(k, db.trials[k]) && !IsClaimed(db, k);
    }
  }

  /** Would every position that is not completed yet be graded when attempted? */
  predicate RestIsGraded(db: Db, e: EvalId, attempt: Key -> Attempt) {
    forall k :: k in db.trials && k.eval == e && !db.trials[k].state.Completed? ==> attempt(k).Graded?
  }

  /** Exactly the uncompleted positions were attempted, once each, in order, with the seeds of an uninterrupted execution. */
  ghost predicate ExactlyTheRest(db: Db, e: EvalId, calls: seq<Call>)
    requires e in db.jobs
  {
    && (forall i :: 0 <= i < |calls| ==>
         && calls[i].key in db.trials && calls[i].key.eval == e && !db.trials[calls[i].key].state.Completed?
         && calls[i].seed == BaseSeed(db, e) + calls[i].key.idx)
    && (forall i, j :: 0 <= i < j < |calls| ==> Before(calls[i].key, calls[j].key))
    && (forall k :: k in db.trials && k.eval == e && !db.trials[k].state.Completed? ==> CalledFor(calls, k))
  }

  /** The resume request followed by its dispatch. */
  method ResumeAndDispatch(cp: ControlPlane, e: EvalId, host: Host, backend: Option<Backend>, attempt: Key -> Attempt, now: Time)
    returns (resumed: bool, calls: seq<Call>)
    requires cp.Valid() && DbInv(cp.Contents())
    modifies cp
    ensures cp.Valid() && resumed == CanResume(old(cp.Contents()), e)
    ensures !resumed ==> cp.Contents() == old(cp.Contents()) && calls == []
    ensures resumed && host == Host(true, true, true) && RestIsGraded(old(cp.Contents()), e, attempt) ==>
      && e in cp.jobs && cp.jobs[e].status.Succeeded? && AllCompleted(cp.Contents(), e)
      && ExactlyTheRest(old(cp.Contents()), e, calls)
      && (forall k :: k in old(cp.trials) && old(cp.trials)[k].state.Completed? ==> k in cp.trials && cp.trials[k] == old(cp.trials)[k])
    ensures resumed && host == Host(true, true, true) && !RestIsGraded(old(cp.Contents()), e, attempt) ==>
      e in cp.jobs && cp.jobs[e].status.Failed?
    ensures e in old(cp.jobs) ==> AllAsGraded(old(cp.Contents()), cp.Contents(), e, backend, attempt, calls)
  {
    hide DbInv, Executed, HoldsItsRun;
    ghost var db := cp.Contents();
    resumed := cp.ResumeJob(e);
    if !resumed { return resumed, []; }
    ghost var drawn := cp.nextToken;
    var token := cp.ClaimJobToken(e, now);
    ResumedTables(db, e, drawn, now);
    ghost var d := cp.Contents();
    var w := Work(e, token.value, backend, attempt, now);
    calls := RunJob(cp, w, host);
    ResumedAsGraded(db, d, cp.Contents(), w, calls);
    if host == Host(true, true, true) { ResumedExecution(db, d, cp.Contents(), w, calls); }
  }

  lemma ResumedAsGraded(db: Db, d: Db, f: Db, w: Work, calls: seq<Call>)
    requires w.e in db.jobs && w.e in d.jobs && d.jobs[w.e].snapshot == db.jobs[w.e].snapshot && d.runs == db.runs
    requires d.trials.Keys == db.trials.Keys && forall k :: k in d.trials && d.trials[k].state.Completed? ==> db.trials[k].state.Completed?
    requires AllAsGraded(d, f, w.e, w.backend, w.attempt, calls)
    ensures AllAsGraded(db, f, w.e, w.backend, w.attempt, calls)
  {
    hide AsGraded;
  }

  lemma ResumedExecution(db: Db, d: Db, f: Db, w: Work, calls: seq<Call>)
    requires w.e in db.jobs && w.e in d.jobs && d == ResumedAndClaimed(db, w.e, w.owner, w.now) && DbInv(db) && CanResume(db, w.e)
    requires Executed(d, f, w, true, calls)
    ensures RestIsGraded(db, w.e, w.attempt) ==>
      && w.e in f.jobs && f.jobs[w.e].status.Succeeded? && AllCompleted(f, w.e) && ExactlyTheRest(db, w.e, calls)
      && (forall k :: k in db.trials && db.trials[k].state.Completed? ==> k in f.trials && f.trials[k] == db.trials[k])
    ensures !RestIsGraded(db, w.e, w.attempt) ==> w.e in f.jobs && f.jobs[w.e].status.Failed?
  {
    hide DbInv;
    ResumedTables(db, w.e, w.owner, w.now);
    assert AllCompletable(d, w) <==> RestIsGraded(db, w.e, w.attempt);
  }
}
