/** The invariant of every run of the control plane, with or without a working owner lock. */
module Safety {
  import opened Wrappers
  import opened Tables
  import opened Protocol
  import opened TableInvariants

  /** Owner and claim tokens are fresh UUIDs: drawn below nextToken, no owner token twice. */
  ghost predicate TokensOk(s: State) {
    && (forall e :: e in s.db.jobs && s.db.jobs[e].token.Some? ==> s.db.jobs[e].token.value < s.nextToken)
    && (forall k :: IsClaimed(s.db, k) && s.db.trials[k].claim.Some? ==> s.db.trials[k].claim.value < s.nextToken)
    && (forall x, y :: IsExecutor(s, x) && IsExecutor(s, y) && x != y ==> s.actors[x].token != s.actors[y].token)
  }

  /** A claimed position carrying this claim token is this executor's own, and its owner token is current. */
  ghost predicate ClaimIsMine(s: State, x: ActorId, i: nat, c: Token)
    requires IsExecutor(s, x) && i < |s.actors[x].rows|
  {
    forall k :: IsClaimed(s.db, k) && s.db.trials[k].claim == Some(c) ==> Valid(s, x) && k == s.actors[x].rows[i].key
  }

  ghost predicate NoClaims(db: Db, e: EvalId) {
    forall k :: IsClaimed(db, k) ==> k.eval != e
  }

  ghost predicate RowsMine(s: State, x: ActorId)
    requires IsExecutor(s, x)
  {
    forall i :: 0 <= i < |s.actors[x].rows| ==>
      s.actors[x].rows[i].key in s.db.trials && s.actors[x].rows[i].key.eval == s.actors[x].eval
  }

  ghost predicate ExecOk(s: State, x: ActorId)
    requires IsExecutor(s, x)
  {
    var a := s.actors[x];
    && a.eval in s.db.jobs && a.token < s.nextToken && RowsMine(s, x)
    && (Holding(a.pc) ==>
         && a.pc.i < |a.rows| && a.pc.claim < s.nextToken
         && ClaimIsMine(s, x, a.pc.i, a.pc.claim)
         && (Valid(s, x) ==> CanComplete(s.db, a.rows[a.pc.i].key, a.token, a.pc.claim)))
    && (!Holding(a.pc) && Valid(s, x) ==> NoClaims(s.db, a.eval))
    && (a.pc.Finishing? ==> !a.pc.status.Running?)
    && (a.pc == Finishing(Succeeded) ==> AllCompleted(s.db, a.eval))
  }

  ghost predicate ActorsOk(s: State) {
    TokensOk(s) && forall x {:trigger ExecOk(s, x)} :: IsExecutor(s, x) ==> ExecOk(s, x)
  }

  ghost predicate StateInv(s: State) {
    DbInv(s.db) && ActorsOk(s)
  }

  // ---- Frames between actors -------------------------------------------------------------

  /** A table change that concerns one evaluation only, never undoes a completion and removes no row. */
  ghost predicate LocalTo(db: Db, d: Db, e: EvalId) {
    && (forall f :: f in db.jobs ==> f in d.jobs)
    && (forall f :: f in db.jobs && f != e ==> d.jobs[f] == db.jobs[f])
    && (forall k :: k in db.trials ==> k in d.trials)
    && (forall k :: k in d.trials && (k.eval != e || e in db.jobs) ==> k in db.trials)
    && (forall k :: k in db.trials && k.eval != e ==> d.trials[k] == db.trials[k])
    && (forall k :: k in db.trials && db.trials[k].state.Completed? ==> d.trials[k].state.Completed?)
  }

  /** Every claim is an old one or carries a token drawn after s. */
  ghost predicate ClaimsOld(s: State, t: State) {
    forall k :: IsClaimed(t.db, k) && t.db.trials[k].claim.Some? ==>
      (IsClaimed(s.db, k) && t.db.trials[k].claim == s.db.trials[k].claim) || t.db.trials[k].claim.value >= s.nextToken
  }

  /** An executor that did not move keeps its invariant through a change local to e. */
  lemma Bystander(s: State, t: State, y: ActorId, e: EvalId)
    requires IsExecutor(s, y) && ExecOk(s, y) && IsExecutor(t, y) && t.actors[y] == s.actors[y]
    requires s.nextToken <= t.nextToken && LocalTo(s.db, t.db, e) && ClaimsOld(s, t)
    requires s.actors[y].eval == e ==> !Valid(t, y) && (!Valid(s, y) || NoClaims(t.db, e))
    ensures ExecOk(t, y)
  {
    var a := s.actors[y];
    if Holding(a.pc) {
      forall k | IsClaimed(t.db, k) && t.db.trials[k].claim == Some(a.pc.claim)
        ensures Valid(t, y) && k == a.rows[a.pc.i].key
      {
        assert IsClaimed(s.db, k) && s.db.trials[k].claim == Some(a.pc.claim);
      }
    }
  }

  ghost predicate OthersSame(s: State, t: State, x: ActorId) {
    && s.nextToken <= t.nextToken
    && (forall y :: IsExecutor(t, y) && y != x ==> IsExecutor(s, y) && t.actors[y] == s.actors[y])
    && (IsExecutor(t, x) ==> IsExecutor(s, x) && t.actors[x].token == s.actors[x].token && t.actors[x].eval == s.actors[x].eval)
  }

  ghost predicate TokensKept(s: State, t: State) {
    && (forall e :: e in t.db.jobs && t.db.jobs[e].token.Some? ==>
         e in s.db.jobs && t.db.jobs[e].token == s.db.jobs[e].token)
    && (forall k :: IsClaimed(t.db, k) && t.db.trials[k].claim.Some? ==>
         (IsClaimed(s.db, k) && t.db.trials[k].claim == s.db.trials[k].claim) || t.db.trials[k].claim.value < t.nextToken)
  }

  /** x, holding the current owner token of its evaluation, changes that evaluation only. */
  lemma OwnerActs(s: State, t: State, x: ActorId)
    requires ActorsOk(s) && Valid(s, x) && OthersSame(s, t, x)
    requires LocalTo(s.db, t.db, s.actors[x].eval) && ClaimsOld(s, t) && TokensKept(s, t)
    requires IsExecutor(t, x) ==> ExecOk(t, x)
    ensures ActorsOk(t)
  {
    forall y | IsExecutor(t, y) && y != x ensures ExecOk(t, y) {
      assert ExecOk(s, y);
      Bystander(s, t, y, s.actors[x].eval);
    }
  }

  /** x moves without touching the tables. */
  lemma MoveKeeps(s: State, t: State, x: ActorId)
    requires ActorsOk(s) && OthersSame(s, t, x) && t.db == s.db
    requires IsExecutor(t, x) ==> ExecOk(t, x)
    ensures ActorsOk(t)
  {
    forall y | IsExecutor(t, y) && y != x ensures ExecOk(t, y) {
      assert ExecOk(s, y);
      Bystander(s, t, y, s.actors[y].eval + 1);
    }
  }

  /** A step of an actor that is not an executor, local to e, after which no executor of e is the owner. */
  lemma OutsiderActs(s: State, t: State, x: ActorId, e: EvalId)
    requires ActorsOk(s) && OthersSame(s, t, x) && !IsExecutor(t, x)
    requires LocalTo(s.db, t.db, e) && ClaimsOld(s, t) && TokensKept(s, t)
    requires NoClaims(t.db, e) && !(e in t.db.jobs && t.db.jobs[e].status.Running?)
    ensures ActorsOk(t)
  {
    forall y | IsExecutor(t, y) ensures ExecOk(t, y) {
      assert ExecOk(s, y);
      Bystander(s, t, y, e);
    }
  }

  // ---- Moves that leave the tables alone -------------------------------------------------

  /** Leaving a program counter that holds no claim for another that holds none. */
  lemma GotoKeeps(s: State, x: ActorId, pc: Pc, locks: map<EvalId, ActorId>)
    requires ActorsOk(s) && IsExecutor(s, x) && !Holding(s.actors[x].pc) && !Holding(pc)
    requires pc.Finishing? ==> !pc.status.Running?
    requires pc == Finishing(Succeeded) ==> AllCompleted(s.db, s.actors[x].eval)
    ensures ActorsOk(Goto(s, x, pc).(locks := locks))
  {
    var t := Goto(s, x, pc).(locks := locks);
    assert ExecOk(s, x);
    assert ExecOk(t, x);
    MoveKeeps(s, t, x);
  }

  lemma LeaveKeeps(s: State, x: ActorId)
    requires ActorsOk(s)
    ensures ActorsOk(Leave(s, x))
  {
    MoveKeeps(s, Leave(s, x), x);
  }

  lemma BeginKeeps(s: State, x: ActorId, paramsOk: bool, rows: seq<Row>)
    requires ActorsOk(s) && AtPc(s, x, Checked) && RowsOf(s.db, s.actors[x].eval, rows)
    ensures ActorsOk(DoBegin(s, x, paramsOk, rows))
  {
    var t := DoBegin(s, x, paramsOk, rows);
    assert ExecOk(s, x);
    assert ExecOk(t, x);
    MoveKeeps(s, t, x);
  }

  lemma DroppingKeeps(s: State, x: ActorId)
    requires ActorsOk(s) && HoldingIn(s, x)
    ensures ActorsOk(Goto(s, x, Dropping(s.actors[x].pc.i, s.actors[x].pc.claim)))
  {
    var t := Goto(s, x, Dropping(s.actors[x].pc.i, s.actors[x].pc.claim));
    assert ExecOk(s, x);
    assert ExecOk(t, x);
    MoveKeeps(s, t, x);
  }

  // ---- Statements of executors -----------------------------------------------------------

  lemma TouchKeeps(s: State, x: ActorId, now: Time)
    requires ActorsOk(s) && AtRowIn(s, x)
    ensures ActorsOk(DoTouch(s, x, now))
  {
    var t := DoTouch(s, x, now);
    assert ExecOk(s, x);
    if Valid(s, x) {
      assert forall k :: IsClaimed(t.db, k) <==> IsClaimed(s.db, k);
      assert ExecOk(t, x);
      OwnerActs(s, t, x);
    } else {
      GotoKeeps(s, x, Releasing, s.locks);
    }
  }

  lemma BlockKeeps(s: State, t: State, x: ActorId, task: TaskId)
    requires ActorsOk(s) && IsExecutor(s, x) && !Holding(s.actors[x].pc)
    requires t.db == BlockTask(s.db, s.actors[x].eval, task, s.actors[x].token)
    requires t.nextToken == s.nextToken && IsExecutor(t, x) && t.actors == s.actors[x := s.actors[x].(pc := t.actors[x].pc)]
    requires t.actors[x].pc.Blocking? || t.actors[x].pc.AtRow?
    ensures ActorsOk(t)
  {
    assert ExecOk(s, x);
    if Valid(s, x) {
      assert forall k :: IsClaimed(t.db, k) ==> IsClaimed(s.db, k);
      assert ExecOk(t, x);
      OwnerActs(s, t, x);
    } else {
      assert ExecOk(t, x);
      MoveKeeps(s, t, x);
    }
  }

  lemma ClaimKeeps(s: State, x: ActorId, now: Time)
    requires ActorsOk(s) && ClearedIn(s, x)
    ensures ActorsOk(DoClaim(s, x, now))
  {
    hide LocalTo, ClaimsOld, TokensKept;
    var t := DoClaim(s, x, now);
    assert ExecOk(s, x);
    var k := KeyAt(s, x);
    if CanClaimTrial(s.db, k, s.actors[x].token) {
      RowClaimed(s, t, k, t.db.trials[k]);
      assert ExecOk(t, x);
      OwnerActs(s, t, x);
    } else {
      GotoKeeps(s, x, AtRow(s.actors[x].pc.i + 1), s.locks);
    }
  }

  /** A pending row is claimed under a token drawn now. */
  lemma RowClaimed(s: State, t: State, k: Key, row: Trial)
    requires k in s.db.trials && s.db.trials[k].state.Pending? && t.db.jobs == s.db.jobs && t.nextToken == s.nextToken + 1
    requires t.db.trials == s.db.trials[k := row] && row.state.Claimed? && row.claim == Some(s.nextToken)
    ensures forall j :: IsClaimed(t.db, j) ==> j == k || (IsClaimed(s.db, j) && t.db.trials[j] == s.db.trials[j])
    ensures LocalTo(s.db, t.db, k.eval) && ClaimsOld(s, t) && TokensKept(s, t)
  {
  }

  /** The only claimed row of an evaluation gives up its claim. */
  lemma RowFreed(s: State, t: State, k: Key, row: Trial)
    requires StatesOk(s.db) && IsClaimed(s.db, k) && t.db.jobs == s.db.jobs && s.nextToken <= t.nextToken
    requires t.db.trials == s.db.trials[k := row] && !row.state.Claimed?
    ensures forall j :: IsClaimed(t.db, j) ==> IsClaimed(s.db, j) && t.db.trials[j] == s.db.trials[j] && j.eval != k.eval
    ensures LocalTo(s.db, t.db, k.eval) && ClaimsOld(s, t) && TokensKept(s, t)
  {
  }

  lemma CompleteKeeps(s: State, x: ActorId, r: RunId, backend: Option<Backend>, seed: int, outcome: Outcome, now: Time)
    requires ActorsOk(s) && StatesOk(s.db) && CanPersist(s, x, r)
    ensures ActorsOk(DoComplete(s, x, r, backend, seed, outcome, now))
  {
    hide LocalTo, ClaimsOld, TokensKept, TokensOk, StatesOk;
    var t := DoComplete(s, x, r, backend, seed, outcome, now);
    assert ExecOk(s, x);
    var k := KeyAt(s, x);
    if CanComplete(s.db, k, s.actors[x].token, s.actors[x].pc.claim) {
      RowFreed(s, t, k, t.db.trials[k]);
      assert ExecOk(t, x);
      OwnerActs(s, t, x);
    } else {
      DroppingKeeps(s, x);
    }
  }

  lemma DropKeeps(s: State, x: ActorId)
    requires ActorsOk(s) && StatesOk(s.db) && HoldingIn(s, x)
    ensures ActorsOk(DoDrop(s, x))
  {
    hide LocalTo, ClaimsOld, TokensKept, TokensOk, StatesOk;
    var t := DoDrop(s, x);
    assert ExecOk(s, x);
    var k := KeyAt(s, x);
    if IsClaimed(s.db, k) && s.db.trials[k].claim == Some(s.actors[x].pc.claim) {
      RowFreed(s, t, k, t.db.trials[k]);
      assert ExecOk(t, x);
      OwnerActs(s, t, x);
    } else {
      assert ExecOk(t, x);
      MoveKeeps(s, t, x);
    }
  }

  lemma TerminalKeeps(s: State, x: ActorId, status: Status, t: State)
    requires ActorsOk(s) && IsExecutor(s, x) && !Holding(s.actors[x].pc) && !status.Running?
    requires t.db == MarkTerminal(s.db, s.actors[x].eval, status, s.actors[x].token) && t.nextToken == s.nextToken
    requires t.actors == s.actors - {x} || t.actors == s.actors[x := s.actors[x].(pc := Releasing)]
    ensures ActorsOk(t)
  {
    assert ExecOk(s, x);
    if Valid(s, x) {
      assert forall k :: IsClaimed(t.db, k) <==> IsClaimed(s.db, k);
      assert IsExecutor(t, x) ==> ExecOk(t, x);
      OwnerActs(s, t, x);
    } else {
      assert IsExecutor(t, x) ==> ExecOk(t, x);
      MoveKeeps(s, t, x);
    }
  }

  // ---- Creation, dispatch, recovery and operators ----------------------------------------

  lemma CreationKeeps(s: State, t: State, e: EvalId, snap: Snapshot)
    requires ActorsOk(s) && PlacesOk(s.db) && Extends(s.db, t.db, e, snap)
    requires t.actors == s.actors && t.nextToken == s.nextToken
    requires forall k :: k in t.db.trials && k.eval == e ==> !t.db.trials[k].state.Claimed?
    ensures ActorsOk(t)
  {
    NoRowsYet(s.db, e);
    assert forall k :: IsClaimed(t.db, k) <==> IsClaimed(s.db, k);
    forall y | IsExecutor(t, y) ensures ExecOk(t, y) {
      assert ExecOk(s, y);
      Bystander(s, t, y, e);
    }
  }

  lemma DispatchKeeps(s: State, x: ActorId, e: EvalId, now: Time)
    requires ActorsOk(s) && StatesOk(s.db) && x !in s.actors && CanClaimJob(s.db, e)
    ensures ActorsOk(DoDispatch(s, x, e, now))
  {
    var t := DoDispatch(s, x, e, now);
    assert forall k :: IsClaimed(t.db, k) <==> IsClaimed(s.db, k);
    forall y | IsExecutor(t, y) ensures ExecOk(t, y) && (y != x ==> t.actors[y].token < s.nextToken) {
      if y != x {
        assert IsExecutor(s, y) && ExecOk(s, y);
        Bystander(s, t, y, e);
      }
    }
  }

  lemma RequeueReleases(db: Db, e: EvalId, token: Option<Token>, lease: Option<Time>)
    requires StillAsRead(db, e, token, lease)
    ensures Released(db, Requeue(db, e, token, lease), e)
  {
  }

  lemma FailureReleases(db: Db, e: EvalId, token: Option<Token>, lease: Option<Time>)
    requires StillAsRead(db, e, token, lease)
    ensures Released(db, FailUnverifiable(db, e, token, lease), e)
  {
  }

  /** Only e changed: its claims are dropped, its owner is gone. */
  ghost predicate Released(db: Db, d: Db, e: EvalId) {
    && LocalTo(db, d, e) && e in d.jobs && !d.jobs[e].status.Running? && d.jobs[e].token.None?
    && forall k :: IsClaimed(d, k) ==> IsClaimed(db, k) && d.trials[k] == db.trials[k] && k.eval != e
  }

  lemma ReleasedKeepsTokens(s: State, t: State, e: EvalId)
    requires Released(s.db, t.db, e) && e in s.db.jobs && t.db.jobs.Keys == s.db.jobs.Keys && t.nextToken == s.nextToken
    ensures ClaimsOld(s, t) && TokensKept(s, t) && NoClaims(t.db, e)
  {
  }

  lemma RecoveryKeeps(s: State, x: ActorId, staleBefore: Time, recoverUnlocked: bool, paramsOk: bool)
    requires ActorsOk(s) && StatesOk(s.db) && IsRecoverer(s, x, true)
    ensures ActorsOk(DoRecover(s, x, staleBefore, recoverUnlocked, paramsOk))
  {
    hide ActorsOk, ExecOk, StatesOk, LocalTo, ClaimsOld, TokensKept, NoClaims;
    var y, t := s.actors[x], DoRecover(s, x, staleBefore, recoverUnlocked, paramsOk);
    if t.db == s.db {
      MoveKeeps(s, t, x);
    } else {
      if paramsOk {
        RequeueReleases(s.db, y.eval, y.seenToken, y.seenLease);
      } else {
        FailureReleases(s.db, y.eval, y.seenToken, y.seenLease);
      }
      ReleasedKeepsTokens(s, t, y.eval);
      OutsiderActs(s, t, x, y.eval);
    }
  }

  lemma CancelKeeps(s: State, e: EvalId)
    requires ActorsOk(s) && JobsOk(s.db)
    ensures ActorsOk(s.(db := RequestCancel(s.db, e)))
  {
    var t := s.(db := RequestCancel(s.db, e));
    assert forall k :: IsClaimed(t.db, k) <==> IsClaimed(s.db, k);
    forall y | IsExecutor(t, y) ensures ExecOk(t, y) {
      assert IsExecutor(s, y) && ExecOk(s, y);
      assert Valid(t, y) <==> Valid(s, y);
    }
  }

  lemma ResumeKeeps(s: State, e: EvalId)
    requires ActorsOk(s) && StatesOk(s.db)
    ensures ActorsOk(s.(db := Resume(s.db, e)))
  {
    var t := s.(db := Resume(s.db, e));
    assert forall k :: IsClaimed(t.db, k) ==> IsClaimed(s.db, k) && t.db.trials[k] == s.db.trials[k];
    forall y | IsExecutor(t, y) ensures ExecOk(t, y) {
      assert IsExecutor(s, y) && ExecOk(s, y);
      if CanResume(s.db, e) { Bystander(s, t, y, e); }
    }
  }

  // ---- Every step, every run -------------------------------------------------------------

  lemma InitHolds(s: State)
    requires Init(s)
    ensures StateInv(s)
  {
  }

  predicate IsCreation(a: Action) {
    a.CreateFreshJob? || a.CreateReuseJob?
  }

  predicate IsJobStatement(a: Action) {
    a.Dispatch? || a.Touch? || a.Finish? || a.FailAbandoned? || a.RecoverAct? || a.Cancel? || a.ResumeJob?
  }

  predicate IsTrialStatement(a: Action) {
    a.BlockOne? || a.LoadFails? || a.Claim? || a.Complete? || a.Drop?
  }

  lemma TablesCreation(s: State, a: Action, locking: bool)
    requires StateInv(s) && Enabled(s, a) && IsCreation(a)
    ensures DbInv(Step(s, a, locking).db)
  {
    match a {
      case CreateFreshJob(e, snap, name) => CreateFreshKeeps(s.db, e, snap, name);
      case CreateReuseJob(e, source, snap, name, now) => CreateReuseKeeps(s.db, e, source, snap, name, now);
    }
  }

  lemma TablesJob(s: State, a: Action, locking: bool)
    requires StateInv(s) && Enabled(s, a) && IsJobStatement(a)
    ensures DbInv(Step(s, a, locking).db)
  {
    match a {
      case Dispatch(x, e, now) =>
        ClaimJobQuiet(s.db, e, s.nextToken, now);
        FrameKeeps(s.db, ClaimJob(s.db, e, s.nextToken, now));
      case Touch(x, now) =>
        TouchOwnerQuiet(s.db, s.actors[x].eval, s.actors[x].token, now);
        FrameKeeps(s.db, TouchOwner(s.db, s.actors[x].eval, s.actors[x].token, now));
      case Finish(x) => assert ExecOk(s, x); TerminalStep(s, x, s.actors[x].pc.status);
      case FailAbandoned(x) => TerminalStep(s, x, Failed);
      case RecoverAct(x, _, _, _) => RecoverStep(s, x);
      case Cancel(e) =>
        RequestCancelQuiet(s.db, e);
        FrameKeeps(s.db, RequestCancel(s.db, e));
      case ResumeJob(e) =>
        ResumeQuiet(s.db, e);
        FrameKeeps(s.db, Resume(s.db, e));
    }
  }

  lemma TablesTrial(s: State, a: Action, locking: bool)
    requires StateInv(s) && Enabled(s, a) && IsTrialStatement(a)
    ensures DbInv(Step(s, a, locking).db)
  {
    match a {
      case BlockOne(x, task) => BlockStep(s, x, task);
      case LoadFails(x) => BlockStep(s, x, KeyAt(s, x).task);
      case Claim(x, now) => ClaimStep(s, x, now);
      case Complete(x, r, backend, seed, outcome, now) =>
        PersistKeeps(s.db, KeyAt(s, x), s.actors[x].token, s.actors[x].pc.claim, r, backend, seed, outcome, now);
      case Drop(x) =>
        ReleaseClaimQuiet(s.db, KeyAt(s, x), s.actors[x].pc.claim);
        FrameKeeps(s.db, ReleaseClaim(s.db, KeyAt(s, x), s.actors[x].pc.claim));
    }
  }

  lemma BlockStep(s: State, x: ActorId, task: TaskId)
    requires StateInv(s) && IsExecutor(s, x) && !Holding(s.actors[x].pc)
    ensures DbInv(BlockTask(s.db, s.actors[x].eval, task, s.actors[x].token))
  {
    assert ExecOk(s, x);
    NoClaimsNoneClaimed(s.db, s.actors[x].eval);
    BlockTaskQuiet(s.db, s.actors[x].eval, task, s.actors[x].token);
    FrameKeeps(s.db, BlockTask(s.db, s.actors[x].eval, task, s.actors[x].token));
  }

  lemma ClaimStep(s: State, x: ActorId, now: Time)
    requires StateInv(s) && ClearedIn(s, x)
    ensures DbInv(ClaimTrial(s.db, KeyAt(s, x), s.actors[x].token, s.nextToken, now))
  {
    assert ExecOk(s, x);
    NoClaimsNoneClaimed(s.db, s.actors[x].eval);
    ClaimTrialQuiet(s.db, KeyAt(s, x), s.actors[x].token, s.nextToken, now);
    FrameKeeps(s.db, ClaimTrial(s.db, KeyAt(s, x), s.actors[x].token, s.nextToken, now));
  }

  lemma TerminalStep(s: State, x: ActorId, status: Status)
    requires StateInv(s) && IsExecutor(s, x) && !Holding(s.actors[x].pc) && !status.Running?
    requires status.Succeeded? ==> AllCompleted(s.db, s.actors[x].eval)
    ensures DbInv(MarkTerminal(s.db, s.actors[x].eval, status, s.actors[x].token))
  {
    assert ExecOk(s, x);
    NoClaimsNoneClaimed(s.db, s.actors[x].eval);
    MarkTerminalQuiet(s.db, s.actors[x].eval, status, s.actors[x].token);
    FrameKeeps(s.db, MarkTerminal(s.db, s.actors[x].eval, status, s.actors[x].token));
  }

  lemma RecoverStep(s: State, x: ActorId)
    requires StateInv(s) && IsRecoverer(s, x, true)
    ensures var y := s.actors[x];
            DbInv(Requeue(s.db, y.eval, y.seenToken, y.seenLease)) && DbInv(FailUnverifiable(s.db, y.eval, y.seenToken, y.seenLease))
  {
    var y := s.actors[x];
    RequeueQuiet(s.db, y.eval, y.seenToken, y.seenLease);
    FrameKeeps(s.db, Requeue(s.db, y.eval, y.seenToken, y.seenLease));
    FailUnverifiableQuiet(s.db, y.eval, y.seenToken, y.seenLease);
    FrameKeeps(s.db, FailUnverifiable(s.db, y.eval, y.seenToken, y.seenLease));
  }

  lemma NoClaimsNoneClaimed(db: Db, e: EvalId)
    ensures NoClaims(db, e) ==> NoneClaimed(db, e)
  {
    if NoClaims(db, e) {
      forall k | k in db.trials && k.eval == e ensures !db.trials[k].state.Claimed? {
        assert IsClaimed(db, k) ==> k.eval != e;
      }
    }
  }

  lemma ActorsCreation(s: State, a: Action, locking: bool)
    requires StateInv(s) && Enabled(s, a) && IsCreation(a)
    ensures ActorsOk(Step(s, a, locking))
  {
    var t := Step(s, a, locking);
    NoRowsYet(s.db, a.e);
    match a {
      case CreateFreshJob(e, snap, name) =>
        CreateFreshExtends(s.db, e, snap, name);
        assert forall k :: k in t.db.trials && k.eval == e ==> t.db.trials[k] == NewTrial(snap, k);
      case CreateReuseJob(e, source, snap, name, now) =>
        CreateReuseExtends(s.db, e, source, snap, name, now);
        assert forall k :: k in t.db.trials && k.eval == e ==> t.db.trials[k] == ReusedTrial(s.db, source, snap, k, now);
    }
    CreationKeeps(s, t, a.e, a.snap);
  }

  lemma ActorsJob(s: State, a: Action, locking: bool)
    requires StateInv(s) && Enabled(s, a) && IsJobStatement(a)
    ensures ActorsOk(Step(s, a, locking))
  {
    match a {
      case Dispatch(x, e, now) => DispatchKeeps(s, x, e, now);
      case Touch(x, now) => TouchKeeps(s, x, now);
      case Finish(x) => assert ExecOk(s, x); TerminalKeeps(s, x, s.actors[x].pc.status, DoFinish(s, x));
      case FailAbandoned(x) => TerminalKeeps(s, x, Failed, DoFailAbandoned(s, x));
      case RecoverAct(x, stale, unlocked, ok) => RecoveryKeeps(s, x, stale, unlocked, ok);
      case Cancel(e) => CancelKeeps(s, e);
      case ResumeJob(e) => ResumeKeeps(s, e);
    }
  }

  lemma ActorsTrial(s: State, a: Action, locking: bool)
    requires StateInv(s) && Enabled(s, a) && IsTrialStatement(a)
    ensures ActorsOk(Step(s, a, locking))
  {
    match a {
      case BlockOne(x, task) => BlockKeeps(s, DoBlockOne(s, x, task), x, task);
      case LoadFails(x) => BlockKeeps(s, DoLoadFails(s, x), x, KeyAt(s, x).task);
      case Claim(x, now) => ClaimKeeps(s, x, now);
      case Complete(x, r, backend, seed, outcome, now) => CompleteKeeps(s, x, r, backend, seed, outcome, now);
      case Drop(x) => DropKeeps(s, x);
    }
  }

  lemma ActorsMove(s: State, a: Action, locking: bool)
    requires ActorsOk(s) && Enabled(s, a) && (a.Begin? || a.AttemptFails? || a.RecoverRead? || a.RecoverLock?)
    ensures ActorsOk(Step(s, a, locking))
  {
    match a {
      case Begin(x, paramsOk, rows) => BeginKeeps(s, x, paramsOk, rows);
      case AttemptFails(x) => DroppingKeeps(s, x);
      case RecoverRead(x, e) => MoveKeeps(s, DoRecoverRead(s, x, e), x);
      case RecoverLock(x) => MoveKeeps(s, DoRecoverLock(s, x, locking), x);
    }
  }

  /** Steps that may end the attempt. */
  predicate IsExit(a: Action) {
    a.SeeRunning? || a.TakeLock? || a.Unlock? || a.Escape? || a.Crash?
  }

  /** Steps to another point of the executor's program. */
  predicate IsMove(a: Action) {
    a.Recheck? || a.BlockedAll? || a.Look? || a.Raise? || a.EndLook? || a.Decide?
  }

  predicate IsGoto(a: Action) {
    IsExit(a) || IsMove(a)
  }

  lemma ExitStep(s: State, a: Action, locking: bool)
    requires ActorsOk(s) && Enabled(s, a) && IsExit(a)
    ensures ActorsOk(Step(s, a, locking))
  {
    hide ActorsOk, AllCompleted, LockFree, ClaimJob, TouchOwner, MarkTerminal, RequestCancel, Requeue, FailUnverifiable, Resume, ClaimTrial, Persist,
      ReleaseClaim, BlockTask, CreateFresh, CreateReuse, CanReuse, CanClaimTrial, CanComplete, RowsOf;
    var x, t := a.x, Step(s, a, locking);
    if t.actors == s.actors - {x} {
      LeaveKeeps(s, x);
    } else {
      GotoKeeps(s, x, t.actors[x].pc, t.locks);
    }
  }

  lemma MoveStep(s: State, a: Action, locking: bool)
    requires ActorsOk(s) && Enabled(s, a) && IsMove(a)
    ensures ActorsOk(Step(s, a, locking))
  {
    hide ActorsOk, AllCompleted, ClaimJob, TouchOwner, MarkTerminal, RequestCancel, Requeue, FailUnverifiable, Resume, ClaimTrial, Persist,
      ReleaseClaim, BlockTask, CreateFresh, CreateReuse, CanReuse, CanClaimTrial, CanComplete, RowsOf;
    GotoKeeps(s, a.x, Step(s, a, locking).actors[a.x].pc, s.locks);
  }

  lemma GotosStep(s: State, a: Action, locking: bool)
    requires ActorsOk(s) && Enabled(s, a) && IsGoto(a)
    ensures ActorsOk(Step(s, a, locking))
  {
    hide ActorsOk, Enabled, Step;
    if IsExit(a) { ExitStep(s, a, locking); } else { MoveStep(s, a, locking); }
  }

  lemma StepKeeps(s: State, a: Action, locking: bool)
    requires StateInv(s) && Enabled(s, a)
    ensures StateInv(Step(s, a, locking))
  {
    if IsCreation(a) {
      TablesCreation(s, a, locking);
      ActorsCreation(s, a, locking);
    } else if IsJobStatement(a) {
      TablesJob(s, a, locking);
      ActorsJob(s, a, locking);
    } else if IsTrialStatement(a) {
      TablesTrial(s, a, locking);
      ActorsTrial(s, a, locking);
    } else {
      assert Step(s, a, locking).db == s.db;
      if IsGoto(a) { GotosStep(s, a, locking); } else { ActorsMove(s, a, locking); }
    }
  }

  lemma {:induction false} RunKeeps(trace: Trace, locking: bool, n: nat)
    requires IsRun(trace, locking) && n < |trace.states|
    ensures StateInv(trace.states[n])
  {
    if n == 0 {
      InitHolds(trace.states[0]);
    } else {
      RunKeeps(trace, locking, n - 1);
      StepKeeps(trace.states[n - 1], trace.actions[n - 1], locking);
    }
  }
}
