/** After a cancel request, at most one more position of the evaluation is ever claimed until it is resumed. */
module CancelBound {
  import opened Wrappers
  import opened Tables
  import opened Protocol
  import opened TableInvariants
  import opened Safety
  import opened ControlPlaneTheorems

  /** This executor owns the evaluation and has read the cancel flag as unset for its current row. */
  predicate PastTheCheck(s: State, x: ActorId, e: EvalId) {
    Valid(s, x) && s.actors[x].eval == e && s.actors[x].pc.Cleared?
  }

  ghost predicate AnyPastTheCheck(s: State, e: EvalId) {
    exists x :: PastTheCheck(s, x, e)
  }

  predicate CancelSet(db: Db, e: EvalId) {
    e in db.jobs && db.jobs[e].cancel
  }

  /** The action claims a position of e. */
  predicate ClaimsPositionOf(s: State, a: Action, e: EvalId) {
    && a.Claim? && ClearedIn(s, a.x) && KeyAt(s, a.x).eval == e
    && CanClaimTrial(s.db, KeyAt(s, a.x), s.actors[a.x].token)
  }

  ghost function ClaimsBetween(trace: Trace, e: EvalId, i: nat, j: nat): nat
    requires i <= j <= |trace.actions| < |trace.states|
  {
    if i == j then 0
    else ClaimsBetween(trace, e, i, j - 1) + if ClaimsPositionOf(trace.states[j - 1], trace.actions[j - 1], e) then 1 else 0
  }

  lemma {:induction false} AtMostOneClaimAfterCancel(trace: Trace, locking: bool, e: EvalId, i: nat, j: nat)
    requires IsRun(trace, locking) && i <= j < |trace.states|
    requires CancelSet(trace.states[i].db, e)
    requires forall k :: i <= k < j ==> trace.actions[k] != ResumeJob(e)
    ensures CancelSet(trace.states[j].db, e)
    ensures ClaimsBetween(trace, e, i, j) <= 1
    ensures !AnyPastTheCheck(trace.states[i], e) ==> ClaimsBetween(trace, e, i, j) == 0
  {
    ClaimsUseUpTheCheck(trace, locking, e, i, j);
  }

  ghost function Allowance(s: State, e: EvalId): nat {
    if AnyPastTheCheck(s, e) then 1 else 0
  }

  lemma {:induction false} ClaimsUseUpTheCheck(trace: Trace, locking: bool, e: EvalId, i: nat, j: nat)
    requires IsRun(trace, locking) && i <= j < |trace.states|
    requires CancelSet(trace.states[i].db, e)
    requires forall k :: i <= k < j ==> trace.actions[k] != ResumeJob(e)
    ensures CancelSet(trace.states[j].db, e)
    ensures ClaimsBetween(trace, e, i, j) + Allowance(trace.states[j], e) <= Allowance(trace.states[i], e)
  {
    hide Step, Enabled, StateInv, AnyPastTheCheck, CancelSet, ClaimsPositionOf;
    if i < j {
      ClaimsUseUpTheCheck(trace, locking, e, i, j - 1);
      RunKeeps(trace, locking, j - 1);
      CheckStep(trace.states[j - 1], trace.actions[j - 1], locking, e);
    }
  }

  lemma CheckStep(s: State, a: Action, locking: bool, e: EvalId)
    requires StateInv(s) && Enabled(s, a) && CancelSet(s.db, e) && a != ResumeJob(e)
    ensures var t := Step(s, a, locking);
      && CancelSet(t.db, e) && (AnyPastTheCheck(t, e) ==> AnyPastTheCheck(s, e))
      && (ClaimsPositionOf(s, a, e) ==> AnyPastTheCheck(s, e) && !AnyPastTheCheck(t, e))
  {
    var t := Step(s, a, locking);
    CancelStays(s, a, locking, e);
    forall x | PastTheCheck(t, x, e) ensures PastTheCheck(s, x, e) && !(a.Claim? && a.x == x) {
      NobodyPassesTheCheck(s, a, locking, e, x);
    }
    if ClaimsPositionOf(s, a, e) {
      assert ExecOk(s, a.x);
      assert PastTheCheck(s, a.x, e);
      assert forall x :: Valid(s, x) && s.actors[x].eval == e ==> x == a.x;
    }
  }

  lemma CancelStays(s: State, a: Action, locking: bool, e: EvalId)
    requires Enabled(s, a) && CancelSet(s.db, e) && a != ResumeJob(e)
    ensures CancelSet(Step(s, a, locking).db, e)
  {
    hide Step, Enabled, CancelSet;
    if IsCreation(a) {
      CancelStaysInCreation(s, a, locking, e);
    } else if IsJobStatement(a) {
      CancelStaysInJobs(s, a, locking, e);
    } else {
      CancelStaysElsewhere(s, a, locking, e);
    }
  }

  lemma CancelStaysInJobs(s: State, a: Action, locking: bool, e: EvalId)
    requires Enabled(s, a) && CancelSet(s.db, e) && a != ResumeJob(e) && IsJobStatement(a)
    ensures CancelSet(Step(s, a, locking).db, e)
  {
  }

  lemma CancelStaysInCreation(s: State, a: Action, locking: bool, e: EvalId)
    requires Enabled(s, a) && CancelSet(s.db, e) && IsCreation(a)
    ensures CancelSet(Step(s, a, locking).db, e)
  {
    assert e != a.e;
  }

  lemma CancelStaysElsewhere(s: State, a: Action, locking: bool, e: EvalId)
    requires Enabled(s, a) && CancelSet(s.db, e) && !IsCreation(a) && !IsJobStatement(a)
    ensures CancelSet(Step(s, a, locking).db, e)
  {
  }

  lemma NobodyPassesTheCheck(s: State, a: Action, locking: bool, e: EvalId, x: ActorId)
    requires StateInv(s) && Enabled(s, a) && CancelSet(s.db, e) && a != ResumeJob(e)
    requires PastTheCheck(Step(s, a, locking), x, e)
    ensures PastTheCheck(s, x, e) && !(a.Claim? && a.x == x)
  {
    hide Step, Enabled, StateInv, CancelSet, PastTheCheck;
    if IsExit(a) {
      ExitPassesNoCheck(s, a, locking, e, x);
    } else if IsMove(a) {
      MovePassesNoCheck(s, a, locking, e, x);
    } else if IsTrialStatement(a) {
      TrialPassesNoCheck(s, a, locking, e, x);
    } else if a.Touch? || a.Finish? || a.FailAbandoned? || a.Begin? || a.AttemptFails? {
      StatementPassesNoCheck(s, a, locking, e, x);
    } else {
      OthersPassNoCheck(s, a, locking, e, x);
    }
  }

  /** Creation, dispatch, recovery and operators move no executor, and make none an owner but a new one. */
  lemma OthersPassNoCheck(s: State, a: Action, locking: bool, e: EvalId, x: ActorId)
    requires StateInv(s) && Enabled(s, a) && CancelSet(s.db, e) && a != ResumeJob(e)
    requires IsCreation(a) || a.Dispatch? || a.RecoverRead? || a.RecoverLock? || a.RecoverAct? || a.ResumeJob? || a.Cancel?
    requires PastTheCheck(Step(s, a, locking), x, e)
    ensures PastTheCheck(s, x, e)
  {
    hide Step, Enabled, StateInv, CancelSet, PastTheCheck;
    if a.Dispatch? {
      DispatchPassesNoCheck(s, a, locking, e, x);
    } else if a.RecoverRead? || a.RecoverLock? || a.RecoverAct? {
      RecoveryPassesNoCheck(s, a, locking, e, x);
    } else {
      OperatorPassesNoCheck(s, a, locking, e, x);
    }
  }

  lemma DispatchPassesNoCheck(s: State, a: Action, locking: bool, e: EvalId, x: ActorId)
    requires StateInv(s) && Enabled(s, a) && a.Dispatch? && PastTheCheck(Step(s, a, locking), x, e)
    ensures PastTheCheck(s, x, e)
  {
    hide DbInv, RowsMine, TokensOk;
    assert IsExecutor(s, x) ==> ExecOk(s, x);
  }

  lemma RecoveryPassesNoCheck(s: State, a: Action, locking: bool, e: EvalId, x: ActorId)
    requires Enabled(s, a) && (a.RecoverRead? || a.RecoverLock? || a.RecoverAct?) && PastTheCheck(Step(s, a, locking), x, e)
    ensures PastTheCheck(s, x, e)
  {
  }

  lemma OperatorPassesNoCheck(s: State, a: Action, locking: bool, e: EvalId, x: ActorId)
    requires Enabled(s, a) && CancelSet(s.db, e) && (IsCreation(a) || a.ResumeJob? || a.Cancel?)
    requires PastTheCheck(Step(s, a, locking), x, e)
    ensures PastTheCheck(s, x, e)
  {
  }

  lemma ExitPassesNoCheck(s: State, a: Action, locking: bool, e: EvalId, x: ActorId)
    requires Enabled(s, a) && IsExit(a) && PastTheCheck(Step(s, a, locking), x, e)
    ensures PastTheCheck(s, x, e)
  {
  }

  lemma MovePassesNoCheck(s: State, a: Action, locking: bool, e: EvalId, x: ActorId)
    requires Enabled(s, a) && CancelSet(s.db, e) && IsMove(a)
    requires PastTheCheck(Step(s, a, locking), x, e)
    ensures PastTheCheck(s, x, e)
  {
    hide ClaimJob, TouchOwner, MarkTerminal, RequestCancel, Requeue, FailUnverifiable, Resume, ClaimTrial, Persist,
      ReleaseClaim, BlockTask, CreateFresh, CreateReuse, CanReuse, CanClaimTrial, CanComplete, AllCompleted, RowsOf;
  }

  lemma TrialPassesNoCheck(s: State, a: Action, locking: bool, e: EvalId, x: ActorId)
    requires Enabled(s, a) && IsTrialStatement(a) && PastTheCheck(Step(s, a, locking), x, e)
    ensures PastTheCheck(s, x, e) && !(a.Claim? && a.x == x)
  {
  }

  lemma StatementPassesNoCheck(s: State, a: Action, locking: bool, e: EvalId, x: ActorId)
    requires Enabled(s, a) && (a.Touch? || a.Finish? || a.FailAbandoned? || a.Begin? || a.AttemptFails?)
    requires PastTheCheck(Step(s, a, locking), x, e)
    ensures PastTheCheck(s, x, e)
  {
  }
}
