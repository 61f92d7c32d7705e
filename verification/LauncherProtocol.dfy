/**
 The campaign tooling as a transition system (campaigns/afa_campaign/launcher.py): one process at a time, holding the
 ledger lock, works on an in-memory ledger and saves it; a crash loses what was not saved; the application changes on its
 own between any two of its reads. Operator commands that only load, change and save are one step.
 */
module LauncherProtocol {
  import opened Wrappers
  import opened Tables
  import opened Campaign
  import opened Cohort
  import opened Acceptance
  import opened LedgerStore
  import Settlement

  /** How a POST ended, as far as the tooling can tell. */
  datatype Answer = Created(id: EvalId, asAsked: bool) | RefusedByApp | NoAnswer

  datatype Pc =
    | Begin(plan: seq<Cell>)                          // ledger loaded, launch recorded
    | Drain(i: nat, plan: seq<Cell>)                  // the first i cells have nothing in flight
    | DrainWait(i: nat, plan: seq<Cell>, k: nat)      // waiting for the evaluation of entry k, cell i
    | Planning(plan: seq<Cell>)                       // these planned cells are left
    | AppIdle(plan: seq<Cell>)                        // no evaluation was queued or running
    | AppTracked(plan: seq<Cell>)                     // and every campaign-named one was known
    | IntentSaved(plan: seq<Cell>, k: nat)            // 'submitting' is on disk; the POST comes next
    | PostSent(plan: seq<Cell>, k: nat, answer: Answer)
    | PlanWait(plan: seq<Cell>, k: nat)
    | Judged(draining: bool, i: nat, plan: seq<Cell>, k: nat)   // entry k marked succeeded in memory only
    | Resuming(k: nat, previous: EntryState)          // a resume's intent is on disk; its POST comes next

  datatype Proc = Proc(mem: LedgerData, pc: Pc, checkCode: bool)

  datatype Sys = Sys(app: App, disk: LedgerData, proc: Option<Proc>)

  /** What the launcher learns when an evaluation ended, besides the application's tables. */
  datatype Ending = Ending(drift: bool, unverifiable: bool, probeFails: bool, identityUnreadable: bool,
                           digest: Option<int>, version: Option<int>)

  datatype Action =
    | AppMoves(app: App)
    | Launch(plan: seq<Cell>, checkCode: bool)
    | CheckUntracked
    | DrainCell
    | DrainDone
    | PlanCell
    | CheckIdle
    | CheckTracked
    | SaveIntent(facts: Facts)
    | Post(answer: Answer, after: App)
    | Record
    | Watch(concurrency: bool, identity: bool)
    | Finalize(ending: Ending)
    | Assess
    | Stop
    | Crash
    | Supersede(cell: Cell)
    | Disown(id: EvalId)
    | ResumeIntent(k: nat, checkCode: bool, warmedUp: bool, at: Time)
    | ResumeAnswer(outcome: ResumeOutcome, after: App)

  // ---- Reading the ledger ----------------------------------------------------------------

  function FirstActive(entries: seq<Entry>, cell: Cell): (k: Option<nat>)
    ensures k.Some? ==> k.value < |entries| && Active(entries[k.value]) && SameCell(entries[k.value].cell, cell)
    ensures k.None? ==> forall i :: 0 <= i < |entries| ==> !(Active(entries[i]) && SameCell(entries[i].cell, cell))
  {
    if entries == [] then None
    else if Active(entries[0]) && SameCell(entries[0].cell, cell) then Some(0)
    else
      var rest := FirstActive(entries[1..], cell);
      if rest.Some? then Some(rest.value + 1) else None
  }

  predicate SubmittingFor(l: LedgerData, name: Name) {
    exists i :: 0 <= i < |l.entries| && l.entries[i].state.Submitting? && NameOf(l.entries[i].cell) == name
  }

  predicate InFlight(entry: Entry) {
    entry.state.Submitting? || entry.state.Submitted?
  }

  // ---- Reading the application -----------------------------------------------------------

  function Untracked(app: App, l: LedgerData): set<EvalId> {
    Named(app) - KnownIds(l)
  }

  /** An untracked evaluation is tolerated only as the sole one a saved intent explains. */
  predicate Bad(app: App, l: LedgerData, e: EvalId) {
    && e in Untracked(app, l)
    && (!SubmittingFor(l, app.db.jobs[e].name)
        || exists f :: f in Untracked(app, l) && f != e && app.db.jobs[f].name == app.db.jobs[e].name)
  }

  predicate AnyBad(app: App, l: LedgerData) {
    exists e :: e in Untracked(app, l) && Bad(app, l, e)
  }

  /** Evaluations that may be the one a lost POST for this cell created. */
  function Candidates(app: App, l: LedgerData, cell: Cell): set<EvalId> {
    NamedFor(app, cell) - KnownIds(l)
  }

  function SnapshotOf(app: App, e: EvalId): HaltSnapshot
    requires e in app.db.jobs
  {
    HaltSnapshot(app.db.jobs[e].status, |set k | k in KeysOf(app.db, e) && app.db.trials[k].state.Completed?|, ResumeCount(app, e))
  }

  /** external_resume: the database shows it active or succeeded, or it changed since the campaign halted on it. */
  predicate ExternallyResumed(app: App, entry: Entry) {
    && entry.id.Some? && entry.id.value in app.db.jobs
    && var job := app.db.jobs[entry.id.value];
    && (job.status.Queued? || job.status.Running? || job.status.Succeeded?
        || (entry.halt.Some? && SnapshotOf(app, entry.id.value) != entry.halt.value))
  }

  predicate Ended(app: App, entry: Entry) {
    && entry.id.Some? && entry.id.value in app.db.jobs
    && !app.db.jobs[entry.id.value].status.Queued? && !app.db.jobs[entry.id.value].status.Running?
  }

  function EventsOf(app: App, entry: Entry): seq<Option<Time>> {
    if entry.id.Some? && entry.id.value in app.resumed then app.resumed[entry.id.value] else []
  }

  // ---- The verdict on a finished evaluation ----------------------------------------------

  /** The state _finalize gives an entry whose evaluation ended; Accepted here still has to be assessed. */
  ghost function Finalized(app: App, m: Manifest, entry: Entry, ref: Reference, checkCode: bool, x: Ending): Entry
    requires Ended(app, entry)
  {
    var e, status := entry.(facts := entry.facts.(codeAtFinalize := checkCode)), app.db.jobs[entry.id.value].status;
    if status.Failed? || status.Canceled? then
      if x.drift || x.unverifiable || e.facts.identityViolation || e.facts.concurrencyViolation
         || !ResumesAccounted(app, e) || !Official(m, e)
      then e.(state := Rejected)
      else e.(state := if status.Failed? then EntryFailed else EntryCanceled, halt := Some(SnapshotOf(app, e.id.value)))
    else if !CellOk(app, m, e.cell, e.id.value) || OverlappingEvaluations(app.db, e.id.value) != {} || e.facts.concurrencyViolation then
      e.(state := Rejected)
    else if !NoVoids(app, e.id.value) then e.(state := NeedsAttention)
    else if !m.config.backend.Ollama? then e.(state := Accepted)
    else if x.probeFails || x.identityUnreadable then e.(state := NeedsAttention)
    else
      var f := e.(facts := e.facts.(digestAtFinalize := x.digest, versionAtFinalize := x.version));
      if x.digest.None? || (e.facts.digestAtSubmit.Some? && x.digest != e.facts.digestAtSubmit)
         || (e.cell.model in ref.digests && x.digest != Some(ref.digests[e.cell.model]))
         || x.version != ref.version || x.version != e.facts.versionAtSubmit || e.facts.identityViolation
      then f.(state := Rejected)
      else f.(state := Accepted)
  }

  // ---- Steps -----------------------------------------------------------------------------

  function Goto(s: Sys, pc: Pc): Sys
    requires s.proc.Some?
  {
    s.(proc := Some(s.proc.value.(pc := pc)))
  }

  /** Changes the in-memory ledger, saves it, and goes on. */
  function SaveAndGo(s: Sys, l: LedgerData, pc: Pc): Sys
    requires s.proc.Some?
  {
    Sys(s.app, l, Some(s.proc.value.(mem := l, pc := pc)))
  }

  /** Saves and raises CampaignStop, or ends normally: the process is over. */
  function SaveAndEnd(s: Sys, l: LedgerData): Sys {
    Sys(s.app, l, None)
  }

  function DoDrainCell(s: Sys, m: Manifest): Sys
    requires s.proc.Some? && s.proc.value.pc.Drain? && s.proc.value.pc.i < |m.cells|
  {
    var l, i, plan := s.proc.value.mem, s.proc.value.pc.i, s.proc.value.pc.plan;
    var k := FirstActive(l.entries, m.cells[i]);
    if k.None? then Goto(s, Drain(i + 1, plan))
    else
      var entry := l.entries[k.value];
      match entry.state
      case Submitting =>
        var found := Candidates(s.app, l, m.cells[i]);
        if |found| > 1 then SaveAndEnd(s, l)
        else if found == {} then SaveAndGo(s, WithoutEntry(l, k.value), Drain(i + 1, plan))
        else
          var adopted := entry.(id := Some(TheOnly(found)), state := Submitted);
          SaveAndGo(s, WithUpdate(l, k.value, adopted), DrainWait(i, plan, k.value))
      case EntryFailed => DoReconcile(s, i, plan, k.value)
      case EntryCanceled => DoReconcile(s, i, plan, k.value)
      case Submitted =>
        SaveAndGo(s, WithUpdate(l, k.value, entry.(resumes := Settlement.Settled(entry.resumes, EventsOf(s.app, entry)))),
                  DrainWait(i, plan, k.value))
      case _ => Goto(s, Drain(i + 1, plan))
  }

  function DoReconcile(s: Sys, i: nat, plan: seq<Cell>, k: nat): Sys
    requires s.proc.Some? && k < |s.proc.value.mem.entries|
  {
    var l := s.proc.value.mem;
    if ExternallyResumed(s.app, l.entries[k]) then SaveAndEnd(s, WithUpdate(l, k, l.entries[k].(state := Rejected)))
    else Goto(s, Drain(i + 1, plan))
  }

  function TheOnly<T(==)>(found: set<T>): (x: T)
    requires |found| <= 1 && found != {}
    ensures found == {x}
  {
    Singleton(found);
    var x :| x in found && found == {x};
    x
  }

  lemma Singleton<T>(found: set<T>)
    requires |found| <= 1 && found != {}
    ensures exists x :: x in found && found == {x}
  {
    var x :| x in found;
    assert |found - {x}| == 0;
    assert found == {x};
  }

  function DoPlanCell(s: Sys): Sys
    requires s.proc.Some? && s.proc.value.pc.Planning? && s.proc.value.pc.plan != []
  {
    var l, plan := s.proc.value.mem, s.proc.value.pc.plan;
    var k := FirstActive(l.entries, plan[0]);
    if k.None? then s
    else
      match l.entries[k.value].state
      case Accepted => Goto(s, Planning(plan[1..]))
      case Submitted => Goto(s, PlanWait(plan, k.value))
      case Submitting => s
      case _ => SaveAndEnd(s, l)
  }

  /** _submit up to its first save: the entry is on disk before the POST. */
  function DoSaveIntent(s: Sys, facts: Facts): Sys
    requires s.proc.Some? && s.proc.value.pc.AppTracked? && s.proc.value.pc.plan != []
  {
    var l, plan := s.proc.value.mem, s.proc.value.pc.plan;
    var k := FirstActive(l.entries, plan[0]);
    if k.Some? then SaveAndGo(s, WithUpdate(l, k.value, l.entries[k.value].(facts := facts)), IntentSaved(plan, k.value))
    else SaveAndGo(s, WithEntry(l, FreshEntry(plan[0]).(facts := facts)), IntentSaved(plan, |l.entries|))
  }

  function DoRecord(s: Sys): Sys
    requires s.proc.Some? && s.proc.value.pc.PostSent? && s.proc.value.pc.k < |s.proc.value.mem.entries|
  {
    var l, plan, k := s.proc.value.mem, s.proc.value.pc.plan, s.proc.value.pc.k;
    match s.proc.value.pc.answer
    case NoAnswer => SaveAndEnd(s, l)
    case RefusedByApp => SaveAndEnd(s, WithoutEntry(l, k))
    case Created(id, asAsked) =>
      if asAsked then SaveAndGo(s, WithUpdate(l, k, l.entries[k].(id := Some(id), state := Submitted)), PlanWait(plan, k))
      else SaveAndEnd(s, WithUpdate(l, k, l.entries[k].(id := Some(id), state := Rejected)))
  }

  predicate Waiting(s: Sys) {
    && s.proc.Some? && (s.proc.value.pc.DrainWait? || s.proc.value.pc.PlanWait?)
    && s.proc.value.pc.k < |s.proc.value.mem.entries|
  }

  /** _watch: a violation observed while the evaluation runs taints its entry for good. */
  function DoWatch(s: Sys, concurrency: bool, identity: bool): Sys
    requires Waiting(s)
  {
    var l, k := s.proc.value.mem, s.proc.value.pc.k;
    var facts := l.entries[k].facts;
    SaveAndGo(s, WithUpdate(l, k, l.entries[k].(facts := facts.(
      concurrencyViolation := facts.concurrencyViolation || concurrency,
      identityViolation := facts.identityViolation || identity))), s.proc.value.pc)
  }

  ghost function DoFinalize(s: Sys, m: Manifest, ref: Reference, x: Ending): Sys
    requires Waiting(s) && Ended(s.app, s.proc.value.mem.entries[s.proc.value.pc.k])
  {
    var l, pc := s.proc.value.mem, s.proc.value.pc;
    var entry := Finalized(s.app, m, l.entries[pc.k], ref, s.proc.value.checkCode, x);
    if entry.state.Accepted? then
      s.(proc := Some(s.proc.value.(mem := WithUpdate(l, pc.k, entry),
                                    pc := Judged(pc.DrainWait?, if pc.DrainWait? then pc.i else 0, pc.plan, pc.k))))
    else SaveAndEnd(s, WithUpdate(l, pc.k, entry))
  }

  ghost function DoAssess(s: Sys, m: Manifest, ref: Reference): Sys
    requires s.proc.Some? && s.proc.value.pc.Judged? && s.proc.value.pc.k < |s.proc.value.mem.entries|
  {
    var l, pc := s.proc.value.mem, s.proc.value.pc;
    var entry := l.entries[pc.k];
    if Acceptable(s.app, m, entry.cell, entry, ref)
    then SaveAndGo(s, l, if pc.draining then Drain(pc.i + 1, pc.plan) else Planning(if pc.plan == [] then [] else pc.plan[1..]))
    else SaveAndEnd(s, WithUpdate(l, pc.k, entry.(state := Rejected)))
  }

  /** How many problems the acceptance predicate names for an entry marked succeeded; none for any other. */
  ghost predicate RefusedByValidator(app: App, m: Manifest, entry: Entry, ref: Reference) {
    entry.state.Accepted? && entry.cell in m.cells && !Acceptable(app, m, entry.cell, entry, ref)
  }

  ghost predicate CanSupersede(s: Sys, m: Manifest, ref: Reference, cell: Cell) {
    && s.proc.None? && FirstActive(s.disk.entries, cell).Some?
    && var entry := s.disk.entries[FirstActive(s.disk.entries, cell).value];
       Supersedable(entry, if RefusedByValidator(s.app, m, entry, ref) then 1 else 0)
  }

  ghost function DoSupersede(s: Sys, m: Manifest, ref: Reference, cell: Cell): Sys
    requires CanSupersede(s, m, ref, cell)
  {
    var k := FirstActive(s.disk.entries, cell).value;
    var entry := s.disk.entries[k];
    s.(disk := WithUpdate(s.disk, k, SupersededEntry(entry, if RefusedByValidator(s.app, m, entry, ref) then 1 else 0)))
  }

  predicate NothingInFlight(l: LedgerData) {
    forall i :: 0 <= i < |l.entries| ==> !InFlight(l.entries[i])
  }

  predicate CanResumeCell(s: Sys, m: Manifest, k: nat) {
    && s.proc.None? && k < |s.disk.entries| && Active(s.disk.entries[k]) && s.disk.entries[k].id.Some?
    && (s.disk.entries[k].state.EntryFailed? || s.disk.entries[k].state.EntryCanceled?)
    && !s.disk.entries[k].facts.identityViolation && !s.disk.entries[k].facts.concurrencyViolation && Official(m, s.disk.entries[k])
  }

  /** resume_cell up to its first save, for an entry nothing forbids to resume. */
  function DoResumeIntent(s: Sys, m: Manifest, k: nat, checkCode: bool, warmedUp: bool, at: Time): Sys
    requires CanResumeCell(s, m, k)
  {
    var entry := s.disk.entries[k];
    if ExternallyResumed(s.app, entry) then s.(disk := WithUpdate(s.disk, k, entry.(state := Rejected)))
    else if !NothingInFlight(s.disk) || ActiveEvaluations(s.app) != {} then s
    else
      var intended := entry.(state := Submitted, resumes := entry.resumes + [Resume(Some(at), checkCode, warmedUp, Requested)]);
      Sys(s.app, WithUpdate(s.disk, k, intended), Some(Proc(WithUpdate(s.disk, k, intended), Resuming(k, entry.state), checkCode)))
  }

  function DoResumeAnswer(s: Sys, outcome: ResumeOutcome): Sys
    requires s.proc.Some? && s.proc.value.pc.Resuming? && s.proc.value.pc.k < |s.proc.value.mem.entries|
    requires s.proc.value.mem.entries[s.proc.value.pc.k].resumes != []
  {
    var l, k := s.proc.value.mem, s.proc.value.pc.k;
    var entry := l.entries[k];
    var last := |entry.resumes| - 1;
    var noted := entry.(resumes := entry.resumes[last := entry.resumes[last].(outcome := outcome)],
                        state := if outcome.NotSent? || outcome.Refused? then s.proc.value.pc.previous else entry.state);
    SaveAndEnd(s, WithUpdate(l, k, noted))
  }

  ghost predicate Enabled(s: Sys, m: Manifest, ref: Reference, a: Action) {
    match a
    case AppMoves(app) => Evolves(s.app, app)
    case Launch(plan, _) => s.proc.None? && forall c :: c in plan ==> c in m.cells
    case CheckUntracked => s.proc.Some? && s.proc.value.pc.Begin?
    case DrainCell => s.proc.Some? && s.proc.value.pc.Drain? && s.proc.value.pc.i < |m.cells|
    case DrainDone => s.proc.Some? && s.proc.value.pc.Drain? && s.proc.value.pc.i >= |m.cells|
    case PlanCell => s.proc.Some? && s.proc.value.pc.Planning? && s.proc.value.pc.plan != []
                     && FirstActive(s.proc.value.mem.entries, s.proc.value.pc.plan[0]).Some?
    case CheckIdle => s.proc.Some? && s.proc.value.pc.Planning? && s.proc.value.pc.plan != []
                      && FirstActive(s.proc.value.mem.entries, s.proc.value.pc.plan[0]).None?
    case CheckTracked => s.proc.Some? && s.proc.value.pc.AppIdle?
    case SaveIntent(_) => s.proc.Some? && s.proc.value.pc.AppTracked? && s.proc.value.pc.plan != []
    case Post(answer, after) =>
      && s.proc.Some? && s.proc.value.pc.IntentSaved? && s.proc.value.pc.plan != [] && Evolves(s.app, after)
      && (answer.Created? ==> answer.id !in s.app.db.jobs && answer.id in after.db.jobs
                              && after.db.jobs[answer.id].name == NameOf(s.proc.value.pc.plan[0]))
    case Record => s.proc.Some? && s.proc.value.pc.PostSent? && s.proc.value.pc.k < |s.proc.value.mem.entries|
    case Watch(_, _) => Waiting(s)
    case Finalize(_) => Waiting(s) && Ended(s.app, s.proc.value.mem.entries[s.proc.value.pc.k])
    case Assess => s.proc.Some? && s.proc.value.pc.Judged? && s.proc.value.pc.k < |s.proc.value.mem.entries|
    case Stop => s.proc.Some? && !s.proc.value.pc.Judged? && !s.proc.value.pc.PostSent? && !s.proc.value.pc.Resuming?
    case Crash => s.proc.Some?
    case Supersede(cell) => CanSupersede(s, m, ref, cell)
    case Disown(id) =>
      && s.proc.None? && id in s.app.db.jobs && id !in KnownIds(s.disk)
      && !s.app.db.jobs[id].status.Queued? && !s.app.db.jobs[id].status.Running?
    case ResumeIntent(k, _, _, _) => CanResumeCell(s, m, k)
    case ResumeAnswer(outcome, after) =>
      && s.proc.Some? && s.proc.value.pc.Resuming? && s.proc.value.pc.k < |s.proc.value.mem.entries|
      && s.proc.value.mem.entries[s.proc.value.pc.k].resumes != [] && Evolves(s.app, after)
      && (outcome.NotSent? || outcome.Refused? || outcome.Unknown? || outcome.Agreed?)
  }

  ghost function Step(s: Sys, m: Manifest, ref: Reference, a: Action): Sys
    requires Enabled(s, m, ref, a)
  {
    match a
    case AppMoves(app) => s.(app := app)
    case Launch(plan, checkCode) => s.(proc := Some(Proc(s.disk, Begin(plan), checkCode)))
    case CheckUntracked =>
      if AnyBad(s.app, s.proc.value.mem) then SaveAndEnd(s, s.proc.value.mem) else Goto(s, Drain(0, s.proc.value.pc.plan))
    case DrainCell => DoDrainCell(s, m)
    case DrainDone => Goto(s, Planning(s.proc.value.pc.plan))
    case PlanCell => DoPlanCell(s)
    case CheckIdle => if ActiveEvaluations(s.app) == {} then Goto(s, AppIdle(s.proc.value.pc.plan)) else SaveAndEnd(s, s.proc.value.mem)
    case CheckTracked =>
      if AnyBad(s.app, s.proc.value.mem) then SaveAndEnd(s, s.proc.value.mem) else Goto(s, AppTracked(s.proc.value.pc.plan))
    case SaveIntent(facts) => DoSaveIntent(s, facts)
    case Post(answer, after) => Goto(s, PostSent(s.proc.value.pc.plan, s.proc.value.pc.k, answer)).(app := after)
    case Record => DoRecord(s)
    case Watch(concurrency, identity) => DoWatch(s, concurrency, identity)
    case Finalize(x) => DoFinalize(s, m, ref, x)
    case Assess => DoAssess(s, m, ref)
    case Stop => SaveAndEnd(s, s.proc.value.mem)
    case Crash => s.(proc := None)
    case Supersede(cell) => DoSupersede(s, m, ref, cell)
    case Disown(id) => s.(disk := WithDisowned(s.disk, id))
    case ResumeIntent(k, checkCode, warmedUp, at) => DoResumeIntent(s, m, k, checkCode, warmedUp, at)
    case ResumeAnswer(outcome, after) => DoResumeAnswer(s, outcome).(app := after)
  }

  predicate Init(s: Sys) {
    s.disk == LedgerData([], []) && s.proc.None?
  }

  datatype Trace = Trace(states: seq<Sys>, actions: seq<Action>)

  ghost predicate IsRun(trace: Trace, m: Manifest, ref: Reference) {
    && |trace.states| == |trace.actions| + 1 && Init(trace.states[0])
    && forall i :: 0 <= i < |trace.actions| ==>
         Enabled(trace.states[i], m, ref, trace.actions[i]) && trace.states[i + 1] == Step(trace.states[i], m, ref, trace.actions[i])
  }
}
