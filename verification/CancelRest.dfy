/** A queued evaluation that is canceled never starts: until it is resumed nothing of it changes, whatever else happens. */
module CancelRest {
  import opened Wrappers
  import opened Tables
  import opened Protocol
  import opened TableInvariants
  import opened Safety
  import opened ControlPlaneTheorems

  predicate AtRest(db: Db, e: EvalId) {
    e in db.jobs && !db.jobs[e].status.Queued? && !db.jobs[e].status.Running?
  }

  /** The row of e, its positions and its raw runs are the same in both. */
  ghost predicate SameEvaluation(db: Db, d: Db, e: EvalId) {
    && (e in db.jobs <==> e in d.jobs) && (e in db.jobs ==> d.jobs[e] == db.jobs[e])
    && SamePositions(db, d, e)
  }

  ghost predicate SamePositions(db: Db, d: Db, e: EvalId) {
    && (forall k: Key :: k.eval == e ==> (k in d.trials <==> k in db.trials))
    && (forall k :: k in db.trials && k.eval == e ==> k in d.trials && d.trials[k] == db.trials[k])
    && (forall r :: r in db.runs && db.runs[r].eval == Some(e) ==> r in d.runs && d.runs[r] == db.runs[r])
    && (forall r :: r in d.runs && d.runs[r].eval == Some(e) ==> r in db.runs && d.runs[r] == db.runs[r])
  }

  // ---- One step --------------------------------------------------------------------------

  lemma RestThroughCreation(s: State, a: Action, locking: bool, e: EvalId)
    requires Enabled(s, a) && IsCreation(a) && AtRest(s.db, e)
    ensures SameEvaluation(s.db, Step(s, a, locking).db, e)
  {
    assert a.e != e;
  }

  lemma RestThroughOwner(s: State, a: Action, locking: bool, e: EvalId)
    requires Enabled(s, a) && (a.Dispatch? || a.Touch? || a.Finish? || a.FailAbandoned?) && AtRest(s.db, e)
    ensures SameEvaluation(s.db, Step(s, a, locking).db, e)
  {
  }

  lemma RestThroughRequeue(db: Db, e: EvalId, f: EvalId, token: Option<Token>, lease: Option<Time>)
    requires AtRest(db, e)
    ensures SameEvaluation(db, Requeue(db, f, token, lease), e) && SameEvaluation(db, FailUnverifiable(db, f, token, lease), e)
  {
  }

  lemma RestThroughRecovery(s: State, a: Action, locking: bool, e: EvalId)
    requires Enabled(s, a) && a.RecoverAct? && AtRest(s.db, e)
    ensures SameEvaluation(s.db, Step(s, a, locking).db, e)
  {
    hide Requeue, FailUnverifiable, SameEvaluation, AtRest;
    var y := s.actors[a.x];
    RestThroughRequeue(s.db, e, y.eval, y.seenToken, y.seenLease);
    Unchanged(s.db, e);
    var d := DoRecover(s, a.x, a.staleBefore, a.recoverUnlocked, a.paramsOk).db;
    assert d == s.db || d == Requeue(s.db, y.eval, y.seenToken, y.seenLease)
      || d == FailUnverifiable(s.db, y.eval, y.seenToken, y.seenLease);
  }

  lemma RestThroughOperator(s: State, a: Action, locking: bool, e: EvalId)
    requires Enabled(s, a) && (a.Cancel? || a.ResumeJob?) && a != ResumeJob(e) && AtRest(s.db, e)
    ensures SameEvaluation(s.db, Step(s, a, locking).db, e)
  {
  }

  lemma Unchanged(db: Db, e: EvalId)
    ensures SameEvaluation(db, db, e)
  {
  }

  lemma RestThroughBlock(db: Db, e: EvalId, f: EvalId, task: TaskId, owner: Token)
    requires AtRest(db, e)
    ensures SameEvaluation(db, BlockTask(db, f, task, owner), e)
  {
  }

  lemma RestThroughClaim(db: Db, e: EvalId, k: Key, owner: Token, claim: Token, now: Time)
    requires AtRest(db, e)
    ensures SameEvaluation(db, ClaimTrial(db, k, owner, claim, now), e)
  {
  }

  lemma RestThroughPersist(db: Db, e: EvalId, k: Key, owner: Token, claim: Token, r: RunId, run: Run, now: Time)
    requires AtRest(db, e) && r !in db.runs && run.eval == Some(k.eval)
    ensures SameEvaluation(db, Persist(db, k, owner, claim, r, run, now), e)
  {
  }

  /** A row that is still claimed belongs to a running evaluation. */
  lemma RestThroughRelease(db: Db, e: EvalId, k: Key, claim: Token)
    requires StatesOk(db) && AtRest(db, e)
    ensures SameEvaluation(db, ReleaseClaim(db, k, claim), e)
  {
    assert IsClaimed(db, k) ==> k.eval != e;
  }

  lemma RestThroughTrials(s: State, a: Action, locking: bool, e: EvalId)
    requires StatesOk(s.db) && Enabled(s, a) && IsTrialStatement(a) && AtRest(s.db, e)
    ensures SameEvaluation(s.db, Step(s, a, locking).db, e)
  {
    hide StatesOk, SameEvaluation, AtRest, BlockTask, ClaimTrial, Persist, ReleaseClaim, CanClaimTrial, CanComplete;
    Unchanged(s.db, e);
    var x := s.actors[a.x];
    match a {
      case BlockOne(_, task) => RestThroughBlock(s.db, e, x.eval, task, x.token);
      case LoadFails(_) => RestThroughBlock(s.db, e, x.eval, KeyAt(s, a.x).task, x.token);
      case Claim(_, now) => RestThroughClaim(s.db, e, KeyAt(s, a.x), x.token, s.nextToken, now);
      case Complete(_, r, backend, seed, outcome, now) =>
        RestThroughPersist(s.db, e, KeyAt(s, a.x), x.token, x.pc.claim, r, RunFor(s.db, KeyAt(s, a.x), backend, seed, outcome), now);
      case Drop(_) => RestThroughRelease(s.db, e, KeyAt(s, a.x), x.pc.claim);
    }
  }

  lemma RestStep(s: State, a: Action, locking: bool, e: EvalId)
    requires StateInv(s) && Enabled(s, a) && AtRest(s.db, e) && a != ResumeJob(e)
    ensures SameEvaluation(s.db, Step(s, a, locking).db, e)
  {
    hide ActorsOk, PlacesOk, JobsOk, EvidenceOk, StatesOk, SameEvaluation, AtRest;
    if IsCreation(a) {
      RestThroughCreation(s, a, locking, e);
    } else if a.RecoverAct? {
      RestThroughRecovery(s, a, locking, e);
    } else if a.Cancel? || a.ResumeJob? {
      RestThroughOperator(s, a, locking, e);
    } else if IsJobStatement(a) {
      RestThroughOwner(s, a, locking, e);
    } else if IsTrialStatement(a) {
      RestThroughTrials(s, a, locking, e);
    } else {
      assert Step(s, a, locking).db == s.db;
      Unchanged(s.db, e);
    }
  }

  // ---- Whole runs ------------------------------------------------------------------------

  /** An evaluation that is neither queued nor running changes by nothing but its own resumption. */
  lemma {:induction false} RestsUntilResumed(trace: Trace, locking: bool, e: EvalId, i: nat, j: nat)
    requires IsRun(trace, locking) && i <= j < |trace.states| && AtRest(trace.states[i].db, e)
    requires forall n :: i <= n < j ==> trace.actions[n] != ResumeJob(e)
    ensures SameEvaluation(trace.states[i].db, trace.states[j].db, e)
  {
    hide Step, Enabled, StateInv;
    if i < j {
      RestsUntilResumed(trace, locking, e, i, j - 1);
      RunKeeps(trace, locking, j - 1);
      RestStep(trace.states[j - 1], trace.actions[j - 1], locking, e);
    }
  }

  /** A canceled evaluation that was still queued stays canceled and unowned, is never dispatched, and keeps its positions and
      runs exactly as they were, until it is resumed. */
  lemma CanceledNeverStarts(trace: Trace, locking: bool, e: EvalId, i: nat, j: nat)
    requires IsRun(trace, locking) && i < j < |trace.states| && trace.actions[i] == Cancel(e)
    requires e in trace.states[i].db.jobs && trace.states[i].db.jobs[e].status.Queued?
    requires forall n :: i < n < j ==> trace.actions[n] != ResumeJob(e)
    ensures var db, d := trace.states[i].db, trace.states[j].db;
      && e in d.jobs && d.jobs[e].status.Canceled? && d.jobs[e].cancel && d.jobs[e].token.None?
      && (forall x, now :: !Enabled(trace.states[j], Dispatch(x, e, now)))
      && (forall x :: IsExecutor(trace.states[j], x) && trace.states[j].actors[x].eval == e ==> !Valid(trace.states[j], x))
      && (forall k: Key :: k.eval == e ==> (k in d.trials <==> k in db.trials))
      && (forall k :: k in db.trials && k.eval == e ==> k in d.trials && d.trials[k] == db.trials[k])
      && (forall r :: r in db.runs && db.runs[r].eval == Some(e) ==> r in d.runs && d.runs[r] == db.runs[r])
      && (forall r :: r in d.runs && d.runs[r].eval == Some(e) ==> r in db.runs)
  {
    RowsInEveryState(trace, locking, i);
    assert trace.states[i + 1].db == RequestCancel(trace.states[i].db, e);
    hide IsRun, Step;
    RestsUntilResumed(trace, locking, e, i + 1, j);
  }
}
