/** A run in which, without exclusion, a recovery pass takes a running evaluation from an executor in mid-attempt. */
module FencingExample {
  import opened Wrappers
  import opened Tables
  import opened Protocol
  import opened Safety
  import opened ControlPlaneTheorems

  const JOB: EvalId := 0
  const WORKER: ActorId := 1
  const RECOVERY: ActorId := 2
  const HOME: Key := Key(JOB, 5, 0)
  const SNAP: Snapshot := Snapshot(Config(9, Ollama, 0, 0, 60, 0), [Pin(5, 1, 1)], 1)
  const OUTCOME: Outcome := Outcome(true, false, false, true, 1)
  const FINISH: Action := Complete(WORKER, 0, None, 0, OUTCOME, 0)

  /** The run so far, one enabled step longer. */
  function Then(trace: Trace, a: Action): Trace
    requires |trace.states| == |trace.actions| + 1 && Enabled(Last(trace), a)
  {
    Trace(trace.states + [Step(Last(trace), a, false)], trace.actions + [a])
  }

  function Last(trace: Trace): State
    requires trace.states != []
  {
    trace.states[|trace.states| - 1]
  }

  lemma StillARun(trace: Trace, a: Action)
    requires IsRun(trace, false) && Enabled(Last(trace), a)
    ensures var more := Then(trace, a);
      && IsRun(more, false) && Last(more) == Step(Last(trace), a, false)
      && trace.states <= more.states && trace.actions <= more.actions && more.actions[|trace.actions|] == a
  {
    hide Enabled, Step, Init;
    var more := Then(trace, a);
    forall i | 0 <= i < |more.actions|
      ensures Enabled(more.states[i], more.actions[i]) && more.states[i + 1] == Step(more.states[i], more.actions[i], false)
    {
      if i < |trace.actions| { assert more.states[i] == trace.states[i] && more.states[i + 1] == trace.states[i + 1]; }
    }
  }

  /** The worker at pc, holding token 0 of the running evaluation with one position in this state. */
  ghost predicate Working(s: State, pc: Pc, rows: seq<Row>, row: TrialState) {
    && s.actors == map[WORKER := Executor(JOB, 0, pc, rows)]
    && Owned(s.db, JOB, 0) && s.db.jobs[JOB].snapshot == SNAP && s.db.jobs[JOB].mode.FreshMode? && !s.db.jobs[JOB].cancel
    && s.db.jobs[JOB].lease == Some(0)
    && s.db.trials.Keys == {HOME} && s.db.trials[HOME].state == row && s.db.runs == map[]
  }

  lemma Dispatched() returns (trace: Trace)
    ensures IsRun(trace, false) && Working(Last(trace), GotToken, [], Pending)
  {
    var start := State(Db(map[], map[], map[]), map[], map[], 0);
    trace := Trace([start], []);
    var create := CreateFreshJob(JOB, SNAP, ForeignName(0));
    StillARun(trace, create);
    trace := Then(trace, create);
    assert SNAP.tasks[0].task == 5;
    assert forall k :: k in RequestedKeys(JOB, SNAP) <==> k == HOME;
    var dispatch := Dispatch(WORKER, JOB, 0);
    StillARun(trace, dispatch);
    trace := Then(trace, dispatch);
  }

  lemma Sees(s: State)
    requires Working(s, GotToken, [], Pending)
    ensures Enabled(s, SeeRunning(WORKER)) && Working(Step(s, SeeRunning(WORKER), false), SawRunning, [], Pending)
  {
  }

  lemma Takes(s: State)
    requires Working(s, SawRunning, [], Pending)
    ensures Enabled(s, TakeLock(WORKER)) && Working(Step(s, TakeLock(WORKER), false), Locked, [], Pending)
  {
  }

  lemma Rechecks(s: State)
    requires Working(s, Locked, [], Pending)
    ensures Enabled(s, Recheck(WORKER)) && Working(Step(s, Recheck(WORKER), false), Checked, [], Pending)
  {
  }

  lemma Begins(s: State)
    requires Working(s, Checked, [], Pending)
    ensures Enabled(s, Begin(WORKER, true, [Row(HOME, Pending)])) && Working(Step(s, Begin(WORKER, true, [Row(HOME, Pending)]), false), AtRow(0), [Row(HOME, Pending)], Pending)
  {
    assert [Row(HOME, Pending)][0].key == HOME;
  }

  lemma Touches(s: State)
    requires Working(s, AtRow(0), [Row(HOME, Pending)], Pending)
    ensures Enabled(s, Touch(WORKER, 0)) && Working(Step(s, Touch(WORKER, 0), false), Touched(0), [Row(HOME, Pending)], Pending)
  {
  }

  lemma Looks(s: State)
    requires Working(s, Touched(0), [Row(HOME, Pending)], Pending)
    ensures Enabled(s, Look(WORKER)) && Working(Step(s, Look(WORKER), false), Cleared(0), [Row(HOME, Pending)], Pending)
  {
  }

  lemma Claims(s: State)
    requires Working(s, Cleared(0), [Row(HOME, Pending)], Pending)
    ensures Enabled(s, Action.Claim(WORKER, 0)) && Working(Step(s, Action.Claim(WORKER, 0), false), HasClaim(0, s.nextToken), [Row(HOME, Pending)], Claimed)
  {
  }

  /** The worker has claimed the position: its agent runs. */
  lemma InMidAttempt() returns (trace: Trace, claim: Token)
    ensures IsRun(trace, false) && Working(Last(trace), HasClaim(0, claim), [Row(HOME, Pending)], Claimed)
  {
    hide Working, Enabled, Step;
    trace := Dispatched();
    Sees(Last(trace));
    StillARun(trace, SeeRunning(WORKER));
    trace := Then(trace, SeeRunning(WORKER));
    Takes(Last(trace));
    StillARun(trace, TakeLock(WORKER));
    trace := Then(trace, TakeLock(WORKER));
    Rechecks(Last(trace));
    StillARun(trace, Recheck(WORKER));
    trace := Then(trace, Recheck(WORKER));
    Begins(Last(trace));
    StillARun(trace, Begin(WORKER, true, [Row(HOME, Pending)]));
    trace := Then(trace, Begin(WORKER, true, [Row(HOME, Pending)]));
    Touches(Last(trace));
    StillARun(trace, Touch(WORKER, 0));
    trace := Then(trace, Touch(WORKER, 0));
    Looks(Last(trace));
    StillARun(trace, Look(WORKER));
    trace := Then(trace, Look(WORKER));
    claim := Last(trace).nextToken;
    Claims(Last(trace));
    StillARun(trace, Action.Claim(WORKER, 0));
    trace := Then(trace, Action.Claim(WORKER, 0));
  }

  /** Four more steps of a run. */
  lemma FourMore(trace: Trace, s: seq<State>, a: seq<Action>) returns (more: Trace)
    requires IsRun(trace, false) && |a| == 4 && |s| == 5 && s[0] == Last(trace)
    requires Goes(s[0], a[0], s[1]) && Goes(s[1], a[1], s[2]) && Goes(s[2], a[2], s[3]) && Goes(s[3], a[3], s[4])
    ensures IsRun(more, false) && more.actions == trace.actions + a && more.states == trace.states + s[1..]
  {
    hide Enabled, Step, Init;
    more := Trace(trace.states + s[1..], trace.actions + a);
    var n := |trace.actions|;
    forall i | 0 <= i < |more.actions|
      ensures Enabled(more.states[i], more.actions[i]) && more.states[i + 1] == Step(more.states[i], more.actions[i], false)
    {
      if i < n {
        assert more.states[i] == trace.states[i] && more.states[i + 1] == trace.states[i + 1];
      } else {
        assert forall k :: 0 <= k < 4 ==> Goes(s[k], a[k], s[k + 1]);
        assert more.states[i] == s[i - n] && more.states[i + 1] == s[i - n + 1] && more.actions[i] == a[i - n];
      }
    }
  }

  lemma RecoveryIsEnabled(s: State, claim: Token)
    requires Working(s, HasClaim(0, claim), [Row(HOME, Pending)], Claimed)
    ensures CanPersist(s, WORKER, 0) && Valid(s, WORKER) && RECOVERY !in s.actors
    ensures Enabled(s, READ) && Step(s, READ, false) == DoRecoverRead(s, RECOVERY, JOB)
  {
    assert SNAP.tasks[0].task == HOME.task;
  }

  const READ: Action := RecoverRead(RECOVERY, JOB)
  const TAKE: Action := RecoverLock(RECOVERY)
  const REQUEUE: Action := RecoverAct(RECOVERY, 0, true, true)

  /** The whole run: the worker owns the evaluation and holds its claim, the recovery pass requeues the evaluation, and the
      worker's completion is rolled back. */
  lemma FencedOutRun() returns (trace: Trace, n: nat)
    ensures IsRun(trace, false) && n + 4 == |trace.actions| && trace.actions[n..] == [READ, TAKE, REQUEUE, FINISH]
    ensures CanPersist(trace.states[n], WORKER, 0) && Valid(trace.states[n], WORKER)
    ensures JOB in trace.states[n + 3].db.jobs && trace.states[n + 3].db.jobs[JOB].status.Queued?
    ensures CanPersist(trace.states[n + 3], WORKER, 0) && trace.states[n + 4].db == trace.states[n + 3].db
  {
    var claim;
    trace, claim := InMidAttempt();
    n := |trace.actions|;
    var s0 := Last(trace);
    RunKeeps(trace, false, n);
    RecoveryIsEnabled(s0, claim);
    var states := FencedOut(s0);
    hide StateInv, Valid, CanPersist, Working, Enabled, Step;
    trace := FourMore(trace, states, [READ, TAKE, REQUEUE, FINISH]);
  }

  lemma FencedOut(s: State) returns (states: seq<State>)
    requires StateInv(s) && CanPersist(s, WORKER, 0) && Valid(s, WORKER) && s.actors[WORKER].eval == JOB && RECOVERY !in s.actors
    requires Enabled(s, READ) && Step(s, READ, false) == DoRecoverRead(s, RECOVERY, JOB)
    ensures |states| == 5 && states[0] == s
    ensures Goes(states[0], READ, states[1]) && Goes(states[1], TAKE, states[2])
    ensures Goes(states[2], REQUEUE, states[3]) && Goes(states[3], FINISH, states[4])
    ensures JOB in states[3].db.jobs && states[3].db.jobs[JOB].status.Queued?
    ensures CanPersist(states[3], WORKER, 0) && states[4].db == states[3].db
  {
    FencedOutInMidAttempt(s, WORKER, RECOVERY, 0, None, 0, OUTCOME, 0);
    var s1 := DoRecoverRead(s, RECOVERY, JOB);
    assert IsRecoverer(s1, RECOVERY, false);
    var s2 := DoRecoverLock(s1, RECOVERY, false);
    var s3 := DoRecover(s2, RECOVERY, 0, true, true);
    StepsAre(s1, s2, s3);
    states := [s, s1, s2, s3, DoComplete(s3, WORKER, 0, None, 0, OUTCOME, 0)];
    hide StateInv, DoRecoverRead, DoRecoverLock, DoRecover, DoComplete, Valid, CanPersist, Enabled, Step;
  }

  predicate Goes(s: State, a: Action, t: State) {
    Enabled(s, a) && t == Step(s, a, false)
  }

  lemma StepsAre(s1: State, s2: State, s3: State)
    requires IsRecoverer(s1, RECOVERY, false) && IsRecoverer(s2, RECOVERY, true) && CanPersist(s3, WORKER, 0)
    ensures Goes(s1, TAKE, DoRecoverLock(s1, RECOVERY, false)) && Goes(s2, REQUEUE, DoRecover(s2, RECOVERY, 0, true, true))
    ensures Goes(s3, FINISH, DoComplete(s3, WORKER, 0, None, 0, OUTCOME, 0))
  {
    hide DoRecoverLock, DoRecover, DoComplete, CanPersist;
  }
}
