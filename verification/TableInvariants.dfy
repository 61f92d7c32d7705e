/** What the tables always satisfy, and that each guarded update keeps it. */
module TableInvariants {
  import opened Wrappers
  import opened Tables

  ghost predicate JobsOk(db: Db) {
    forall e :: e in db.jobs ==>
      && (db.jobs[e].status.Running? <==> db.jobs[e].token.Some?)
      && (db.jobs[e].token.Some? <==> db.jobs[e].lease.Some?)
      && (!db.jobs[e].mode.Legacy? ==> ValidSnapshot(db.jobs[e].snapshot))
  }

  /** Every position belongs to a non-legacy evaluation that pins its task at exactly this version and digest. */
  ghost predicate PlaceOk(db: Db, k: Key)
    requires k in db.trials
  {
    && k.eval in db.jobs && !db.jobs[k.eval].mode.Legacy?
    && Pin(k.task, db.trials[k].version, db.trials[k].digest) in db.jobs[k.eval].snapshot.tasks
    && k.idx < db.jobs[k.eval].snapshot.repeats
  }

  /** Exactly the requested positions exist. */
  ghost predicate PlacesOk(db: Db) {
    && (forall k :: k in db.trials ==> PlaceOk(db, k))
    && (forall e, pin, i: nat ::
         e in db.jobs && !db.jobs[e].mode.Legacy? && pin in db.jobs[e].snapshot.tasks && i < db.jobs[e].snapshot.repeats
         ==> Key(e, pin.task, i) in db.trials)
  }

  /** What each trial state fixes about the row. */
  ghost predicate ShapeOk(k: Key, t: Trial) {
    match t.state
    case Pending => t.evidence.Missing? && t.run.None? && t.claim.None? && t.origin.None? && t.source.None?
    case Claimed => t.evidence.Missing? && t.run.None? && t.claim.Some? && t.origin.None? && t.source.None?
    case Blocked => t.evidence.Unverifiable? && t.run.None? && t.claim.None? && t.origin.None? && t.source.None?
    case Completed =>
      && t.run.Some? && t.claim.None? && t.origin.Some?
      && ((t.evidence.Fresh? && t.source.None? && t.origin == Some(k.eval))
          || (t.evidence.Reused? && t.source.Some? && t.sourceRun == t.run))
  }

  predicate IsClaimed(db: Db, k: Key) {
    k in db.trials && db.trials[k].state.Claimed?
  }

  /** Row shapes; at most one claimed position per evaluation, only while it runs; success only with every position completed. */
  ghost predicate StatesOk(db: Db) {
    && (forall k :: k in db.trials ==> ShapeOk(k, db.trials[k]))
    && (forall k :: IsClaimed(db, k) ==> k.eval in db.jobs && db.jobs[k.eval].status.Running?)
    && (forall k, j :: IsClaimed(db, k) && IsClaimed(db, j) && k.eval == j.eval ==> k == j)
    && (forall k :: k in db.trials && k.eval in db.jobs && db.jobs[k.eval].status.Succeeded? ==>
         db.trials[k].state.Completed?)
  }

  predicate IsFresh(db: Db, k: Key) {
    k in db.trials && db.trials[k].state.Completed? && db.trials[k].evidence.Fresh?
  }

  /** A fresh completed position holds a raw run of its own evaluation, position and version. */
  ghost predicate FreshOk(db: Db, k: Key)
    requires k in db.trials
  {
    && db.trials[k].run.Some? && db.trials[k].run.value in db.runs
    && var run := db.runs[db.trials[k].run.value];
    && run.eval == Some(k.eval) && run.task == k.task && run.idx == k.idx && run.version == db.trials[k].version
  }

  /** The position a raw run was made for, by the run's own columns. */
  function HomeOf(run: Run): Key
    requires run.eval.Some?
  {
    Key(run.eval.value, run.task, run.idx)
  }

  predicate OwnedByEvaluation(db: Db, r: RunId) {
    r in db.runs && db.runs[r].eval.Some? && db.runs[r].eval.value in db.jobs
    && !db.jobs[db.runs[r].eval.value].mode.Legacy?
  }

  /** Completed evidence, reused any number of times, leads back to the fresh position that made it. */
  ghost predicate OriginOk(db: Db, k: Key)
    requires k in db.trials
  {
    && db.trials[k].run.Some? && db.trials[k].origin.Some?
    && var home := Key(db.trials[k].origin.value, k.task, k.idx);
    && IsFresh(db, home) && db.trials[home].run == db.trials[k].run
    && db.trials[home].version == db.trials[k].version && db.trials[home].digest == db.trials[k].digest
  }

  ghost predicate EvidenceOk(db: Db) {
    && (forall k :: IsFresh(db, k) ==> FreshOk(db, k))
    && (forall r :: OwnedByEvaluation(db, r) ==>
         IsFresh(db, HomeOf(db.runs[r])) && db.trials[HomeOf(db.runs[r])].run == Some(r))
    && (forall k {:trigger OriginOk(db, k)} :: k in db.trials && db.trials[k].state.Completed? ==> OriginOk(db, k))
  }

  ghost predicate DbInv(db: Db) {
    JobsOk(db) && PlacesOk(db) && StatesOk(db) && EvidenceOk(db)
  }

  // ---- Frames ----------------------------------------------------------------------------

  ghost predicate SamePlaces(db: Db, d: Db) {
    && d.jobs.Keys == db.jobs.Keys && d.trials.Keys == db.trials.Keys
    && (forall e :: e in db.jobs ==> d.jobs[e].mode == db.jobs[e].mode && d.jobs[e].snapshot == db.jobs[e].snapshot)
    && (forall k :: k in db.trials ==>
         d.trials[k].version == db.trials[k].version && d.trials[k].digest == db.trials[k].digest)
  }

  ghost predicate SameEvidence(db: Db, d: Db) {
    && d.runs == db.runs && d.trials.Keys == db.trials.Keys
    && (forall k :: k in db.trials && (db.trials[k].state.Completed? || d.trials[k].state.Completed?) ==>
         d.trials[k] == db.trials[k])
  }

  lemma FrameKeeps(db: Db, d: Db)
    requires DbInv(db) && Quiet(db, d)
    ensures DbInv(d)
  {
    forall k | k in d.trials ensures PlaceOk(d, k) { assert PlaceOk(db, k); }
    FreshFrame(db, d);
    forall k | k in d.trials && d.trials[k].state.Completed? ensures OriginOk(d, k) { assert OriginOk(db, k); }
    forall r | OwnedByEvaluation(d, r)
      ensures IsFresh(d, HomeOf(d.runs[r])) && d.trials[HomeOf(d.runs[r])].run == Some(r)
    {
      var e := db.runs[r].eval.value;
      assert e in db.jobs && d.jobs[e].mode == db.jobs[e].mode;
      assert OwnedByEvaluation(db, r);
    }
  }

  lemma FreshFrame(db: Db, d: Db)
    requires SameEvidence(db, d)
    ensures forall k :: IsFresh(d, k) <==> IsFresh(db, k)
    ensures forall k :: IsFresh(db, k) && FreshOk(db, k) ==> FreshOk(d, k)
  {
    forall k ensures IsFresh(d, k) <==> IsFresh(db, k) {
      assert k in d.trials <==> k in d.trials.Keys;
    }
  }

  // ---- Updates that leave the completed evidence alone -----------------------------------

  /** What such an update must do to keep the table invariant. */
  ghost predicate Quiet(db: Db, d: Db) {
    SamePlaces(db, d) && SameEvidence(db, d) && JobsOk(d) && StatesOk(d)
  }

  lemma ClaimJobQuiet(db: Db, e: EvalId, token: Token, now: Time)
    requires JobsOk(db) && StatesOk(db)
    ensures Quiet(db, ClaimJob(db, e, token, now))
  {
    var d := ClaimJob(db, e, token, now);
    assert forall j :: IsClaimed(d, j) ==> IsClaimed(db, j);
  }

  lemma TouchOwnerQuiet(db: Db, e: EvalId, owner: Token, now: Time)
    requires JobsOk(db) && StatesOk(db)
    ensures Quiet(db, TouchOwner(db, e, owner, now))
  {
    var d := TouchOwner(db, e, owner, now);
    assert forall j :: IsClaimed(d, j) ==> IsClaimed(db, j);
  }

  lemma MarkTerminalQuiet(db: Db, e: EvalId, status: Status, owner: Token)
    requires JobsOk(db) && StatesOk(db)
    requires !status.Running?
    requires Owned(db, e, owner) ==> NoneClaimed(db, e) && (status.Succeeded? ==> AllCompleted(db, e))
    ensures Quiet(db, MarkTerminal(db, e, status, owner))
  {
    var d := MarkTerminal(db, e, status, owner);
    assert forall j :: IsClaimed(d, j) ==> IsClaimed(db, j);
  }

  lemma RequestCancelQuiet(db: Db, e: EvalId)
    requires JobsOk(db) && StatesOk(db)
    ensures Quiet(db, RequestCancel(db, e))
  {
    var d := RequestCancel(db, e);
    assert forall j :: IsClaimed(d, j) ==> IsClaimed(db, j);
  }

  lemma RequeueQuiet(db: Db, e: EvalId, token: Option<Token>, lease: Option<Time>)
    requires JobsOk(db) && StatesOk(db)
    ensures Quiet(db, Requeue(db, e, token, lease))
  {
    var d := Requeue(db, e, token, lease);
    assert forall j :: IsClaimed(d, j) ==> IsClaimed(db, j);
  }

  lemma FailUnverifiableQuiet(db: Db, e: EvalId, token: Option<Token>, lease: Option<Time>)
    requires JobsOk(db) && StatesOk(db)
    ensures Quiet(db, FailUnverifiable(db, e, token, lease))
  {
    var d := FailUnverifiable(db, e, token, lease);
    assert forall j :: IsClaimed(d, j) ==> IsClaimed(db, j);
  }

  lemma ResumeQuiet(db: Db, e: EvalId)
    requires JobsOk(db) && StatesOk(db)
    ensures Quiet(db, Resume(db, e))
  {
    var d := Resume(db, e);
    assert forall j :: IsClaimed(d, j) ==> IsClaimed(db, j);
  }

  lemma ClaimTrialQuiet(db: Db, k: Key, owner: Token, claim: Token, now: Time)
    requires JobsOk(db) && StatesOk(db)
    requires Owned(db, k.eval, owner) ==> NoneClaimed(db, k.eval)
    ensures Quiet(db, ClaimTrial(db, k, owner, claim, now))
  {
    var d := ClaimTrial(db, k, owner, claim, now);
    assert forall j :: IsClaimed(d, j) ==> j == k || IsClaimed(db, j);
  }

  lemma ReleaseClaimQuiet(db: Db, k: Key, claim: Token)
    requires JobsOk(db) && StatesOk(db)
    ensures Quiet(db, ReleaseClaim(db, k, claim))
  {
    var d := ReleaseClaim(db, k, claim);
    assert forall j :: IsClaimed(d, j) ==> IsClaimed(db, j);
  }

  lemma BlockTaskQuiet(db: Db, e: EvalId, task: TaskId, owner: Token)
    requires JobsOk(db) && StatesOk(db)
    requires Owned(db, e, owner) ==> NoneClaimed(db, e)
    ensures Quiet(db, BlockTask(db, e, task, owner))
  {
    var d := BlockTask(db, e, task, owner);
    assert forall j :: IsClaimed(d, j) ==> IsClaimed(db, j);
  }

  // ---- Completion ------------------------------------------------------------------------

  lemma PersistKeeps(db: Db, k: Key, owner: Token, claim: Token, r: RunId, backend: Option<Backend>, seed: int,
                     outcome: Outcome, now: Time)
    requires DbInv(db) && r !in db.runs
    requires k.eval in db.jobs && Pins(db.jobs[k.eval].snapshot, k.task)
    ensures DbInv(Persist(db, k, owner, claim, r, RunFor(db, k, backend, seed, outcome), now))
  {
    if CanComplete(db, k, owner, claim) {
      PersistPlaces(db, k, owner, claim, r, RunFor(db, k, backend, seed, outcome), now);
      assert PlaceOk(db, k);
      PinUnique(db.jobs[k.eval].snapshot, Pin(k.task, db.trials[k].version, db.trials[k].digest));
      PersistEvidence(db, k, owner, claim, r, RunFor(db, k, backend, seed, outcome), now);
    }
  }

  lemma PinUnique(snap: Snapshot, pin: Pin)
    requires UniqueTasks(snap) && pin in snap.tasks
    ensures Pins(snap, pin.task) && PinOf(snap, pin.task) == pin
  {
    var p :| 0 <= p < |snap.tasks| && snap.tasks[p] == pin;
    assert Pins(snap, pin.task);
    var q :| 0 <= q < |snap.tasks| && snap.tasks[q] == PinOf(snap, pin.task);
  }

  lemma PersistPlaces(db: Db, k: Key, owner: Token, claim: Token, r: RunId, run: Run, now: Time)
    requires DbInv(db) && CanComplete(db, k, owner, claim)
    ensures var d := Persist(db, k, owner, claim, r, run, now); JobsOk(d) && PlacesOk(d) && StatesOk(d)
  {
    hide PlacesOk, EvidenceOk, StatesOk;
    PersistStates(db, k, owner, claim, r, run, now);
    PlacesFrame(db, Persist(db, k, owner, claim, r, run, now));
  }

  lemma PlacesFrame(db: Db, d: Db)
    requires PlacesOk(db) && SamePlaces(db, d)
    ensures PlacesOk(d)
  {
    forall j | j in d.trials ensures PlaceOk(d, j) { assert PlaceOk(db, j); }
  }

  lemma PersistStates(db: Db, k: Key, owner: Token, claim: Token, r: RunId, run: Run, now: Time)
    requires StatesOk(db) && CanComplete(db, k, owner, claim)
    ensures StatesOk(Persist(db, k, owner, claim, r, run, now))
  {
    var d := Persist(db, k, owner, claim, r, run, now);
    assert forall j :: IsClaimed(d, j) ==> IsClaimed(db, j) && d.trials[j] == db.trials[j];
  }

  lemma PersistEvidence(db: Db, k: Key, owner: Token, claim: Token, r: RunId, run: Run, now: Time)
    requires DbInv(db) && CanComplete(db, k, owner, claim) && r !in db.runs
    requires run.eval == Some(k.eval) && run.task == k.task && run.idx == k.idx && run.version == db.trials[k].version
    ensures EvidenceOk(Persist(db, k, owner, claim, r, run, now))
  {
    var d := Persist(db, k, owner, claim, r, run, now);
    forall j | IsFresh(d, j) ensures FreshOk(d, j) {
      if j != k { assert IsFresh(db, j) && FreshOk(db, j); }
    }
    forall q | OwnedByEvaluation(d, q)
      ensures IsFresh(d, HomeOf(d.runs[q])) && d.trials[HomeOf(d.runs[q])].run == Some(q)
    {
      if q != r { assert OwnedByEvaluation(db, q); }
    }
    forall j | j in d.trials && d.trials[j].state.Completed? ensures OriginOk(d, j) {
      if j != k {
        assert OriginOk(db, j);
        assert IsFresh(db, Key(db.trials[j].origin.value, j.task, j.idx));
      }
    }
  }

  // ---- Creation --------------------------------------------------------------------------

  /** Rows of a new evaluation sit at exactly its requested positions; no other row changes. */
  ghost predicate Extends(db: Db, d: Db, e: EvalId, snap: Snapshot) {
    && e !in db.jobs && e in d.jobs && d.jobs == db.jobs[e := d.jobs[e]] && d.runs == db.runs
    && !d.jobs[e].mode.Legacy? && d.jobs[e].snapshot == snap && ValidSnapshot(snap)
    && d.jobs[e].status.Queued? && d.jobs[e].token.None? && d.jobs[e].lease.None?
    && (forall k: Key :: k.eval != e ==> (k in d.trials <==> k in db.trials))
    && (forall k :: k in db.trials && k.eval != e ==> d.trials[k] == db.trials[k])
    && (forall k: Key :: k.eval == e ==> (k in d.trials <==> Requested(snap, k.task, k.idx)))
    && (forall k :: k in d.trials && k.eval == e ==>
         Pin(k.task, d.trials[k].version, d.trials[k].digest) == PinOf(snap, k.task))
  }

  lemma ExtendKeepsPlaces(db: Db, d: Db, e: EvalId, snap: Snapshot)
    requires JobsOk(db) && PlacesOk(db) && Extends(db, d, e, snap)
    ensures JobsOk(d) && PlacesOk(d)
  {
    forall k | k in d.trials ensures PlaceOk(d, k) {
      if k.eval != e { assert PlaceOk(db, k); }
    }
    forall f, pin, i: nat | f in d.jobs && !d.jobs[f].mode.Legacy? && pin in d.jobs[f].snapshot.tasks
                            && i < d.jobs[f].snapshot.repeats
      ensures Key(f, pin.task, i) in d.trials
    {
      if f == e { PinUnique(snap, pin); } else { assert Key(f, pin.task, i) in db.trials; }
    }
  }

  lemma ExtendKeepsStates(db: Db, d: Db, e: EvalId, snap: Snapshot)
    requires StatesOk(db) && Extends(db, d, e, snap)
    requires forall k :: k in d.trials && k.eval == e ==> ShapeOk(k, d.trials[k]) && !d.trials[k].state.Claimed?
    ensures StatesOk(d)
  {
    assert forall k :: IsClaimed(d, k) ==> IsClaimed(db, k);
  }

  lemma ExtendKeepsEvidence(db: Db, d: Db, e: EvalId, snap: Snapshot)
    requires EvidenceOk(db) && Extends(db, d, e, snap)
    requires forall k :: k in db.trials ==> k.eval != e
    requires forall r :: r in db.runs ==> db.runs[r].eval != Some(e)
    requires forall k :: k in d.trials && k.eval == e ==> !IsFresh(d, k)
    requires forall k :: k in d.trials && k.eval == e && d.trials[k].state.Completed? ==> OriginOk(d, k)
    ensures EvidenceOk(d)
  {
    assert forall k :: IsFresh(d, k) <==> IsFresh(db, k);
    forall k | IsFresh(d, k) ensures FreshOk(d, k) { assert FreshOk(db, k); }
    forall r | OwnedByEvaluation(d, r)
      ensures IsFresh(d, HomeOf(d.runs[r])) && d.trials[HomeOf(d.runs[r])].run == Some(r)
    {
      assert OwnedByEvaluation(db, r);
    }
    forall k | k in d.trials && d.trials[k].state.Completed? ensures OriginOk(d, k) {
      if k.eval != e {
        assert OriginOk(db, k);
        assert IsFresh(db, Key(db.trials[k].origin.value, k.task, k.idx));
      }
    }
  }

  lemma NoRowsYet(db: Db, e: EvalId)
    requires PlacesOk(db) && e !in db.jobs
    ensures forall k :: k in db.trials ==> k.eval != e
  {
    forall k | k in db.trials ensures k.eval != e { assert PlaceOk(db, k); }
  }

  lemma CreateFreshExtends(db: Db, e: EvalId, snap: Snapshot, name: Name)
    requires e !in db.jobs && ValidSnapshot(snap) && forall k :: k in db.trials ==> k.eval != e
    ensures Extends(db, CreateFresh(db, e, snap, name), e, snap)
  {
  }

  lemma CreateFreshKeeps(db: Db, e: EvalId, snap: Snapshot, name: Name)
    requires DbInv(db) && e !in db.jobs && ValidSnapshot(snap)
    requires forall r :: r in db.runs ==> db.runs[r].eval != Some(e)
    ensures DbInv(CreateFresh(db, e, snap, name))
  {
    var d := CreateFresh(db, e, snap, name);
    NoRowsYet(db, e);
    CreateFreshExtends(db, e, snap, name);
    assert forall k :: k in d.trials && k.eval == e ==> d.trials[k] == NewTrial(snap, k);
    ExtendKeepsPlaces(db, d, e, snap);
    ExtendKeepsStates(db, d, e, snap);
    ExtendKeepsEvidence(db, d, e, snap);
  }

  lemma CreateReuseExtends(db: Db, e: EvalId, source: EvalId, snap: Snapshot, name: Name, now: Time)
    requires e !in db.jobs && ValidSnapshot(snap) && CanReuse(db, source, snap) && forall k :: k in db.trials ==> k.eval != e
    ensures Extends(db, CreateReuse(db, e, source, snap, name, now), e, snap)
  {
  }

  lemma CreateReuseKeeps(db: Db, e: EvalId, source: EvalId, snap: Snapshot, name: Name, now: Time)
    requires DbInv(db) && e !in db.jobs && ValidSnapshot(snap) && CanReuse(db, source, snap)
    requires forall r :: r in db.runs ==> db.runs[r].eval != Some(e)
    ensures DbInv(CreateReuse(db, e, source, snap, name, now))
  {
    var d := CreateReuse(db, e, source, snap, name, now);
    NoRowsYet(db, e);
    CreateReuseExtends(db, e, source, snap, name, now);
    forall k | k in d.trials && k.eval == e
      ensures d.trials[k] == ReusedTrial(db, source, snap, k, now) && ShapeOk(k, d.trials[k]) && OriginOk(d, k)
    {
      ReusedOrigin(db, source, snap, k, now);
    }
    ExtendKeepsPlaces(db, d, e, snap);
    ExtendKeepsStates(db, d, e, snap);
    ExtendKeepsEvidence(db, d, e, snap);
  }

  /** A reused row's origin is the origin of the row it copies, found one link at a time. */
  lemma ReusedOrigin(db: Db, source: EvalId, snap: Snapshot, k: Key, now: Time)
    requires DbInv(db) && CanReuse(db, source, snap) && Requested(snap, k.task, k.idx)
    ensures var from := Key(source, k.task, k.idx);
            var t := ReusedTrial(db, source, snap, k, now);
            && from in db.trials && OriginOk(db, from)
            && t.run == db.trials[from].run && t.origin == db.trials[from].origin
            && t.version == db.trials[from].version && t.digest == db.trials[from].digest
  {
    var from := Key(source, k.task, k.idx);
    assert from in RequestedKeys(source, snap);
    assert ReusableRow(db, snap, from) && OriginOk(db, from);
    var home := Key(db.trials[from].origin.value, k.task, k.idx);
    assert IsFresh(db, home) && FreshOk(db, home);
  }
}
