/**
 The Launcher object of campaigns/afa_campaign/launcher.py: its methods change the Ledger object step by step and save it,
 and each performs exactly the step of module LauncherProtocol named in its contract.
 */
module LauncherObject {
  import opened Wrappers
  import opened Tables
  import opened Campaign
  import opened Cohort
  import opened Acceptance
  import opened LedgerStore
  import opened LauncherProtocol
  import opened LauncherSafety
  import ControlPlaneStore
  import Settlement

  class Launcher {
    const m: Manifest
    const ref: Reference
    const checkCode: bool
    const ledger: Ledger
    /** The campaign and the plan this process works for. */
    const header: Header

    constructor (m: Manifest, ref: Reference, checkCode: bool, ledger: Ledger, header: Header)
      ensures this.m == m && this.ref == ref && this.checkCode == checkCode && this.ledger == ledger && this.header == header
    {
      this.m, this.ref, this.checkCode, this.ledger, this.header := m, ref, checkCode, ledger, header;
    }

    /** The launcher at pc, seen as a state of the tooling. */
    ghost function View(app: App, pc: Pc): Sys
      reads ledger
    {
      Sys(app, ledger.saved, Some(Proc(ledger.Data(), pc, checkCode)))
    }

    /** The state once this process has ended. */
    ghost function Over(app: App): Sys
      reads ledger
    {
      Sys(app, ledger.saved, None)
    }

    ghost function Reached(app: App, next: Option<Pc>): Sys
      reads ledger
    {
      if next.Some? then View(app, next.value) else Over(app)
    }

    // ---- Untracked evaluations -----------------------------------------------------------

    /** Groups the untracked evaluations by name; an ungrouped name or a group of several halts. */
    method CheckUntracked(app: App) returns (bad: bool)
      ensures bad == AnyBad(app, ledger.Data())
      ensures bad <==> exists e :: Unexplained(app, ledger.Data(), e)
    {
      var l := ledger.Data();
      var untracked := Untracked(app, l);
      var byName: map<Name, set<EvalId>> := map[];
      var todo := untracked;
      while todo != {}
        invariant todo <= untracked
        invariant forall e: EvalId :: e in untracked && e !in todo ==> app.db.jobs[e].name in byName && e in byName[app.db.jobs[e].name]
        invariant forall n :: n in byName ==> forall e: EvalId :: e in byName[n] ==> e in untracked && app.db.jobs[e].name == n
        decreases |todo|
      {
        var e := ControlPlaneStore.Pick(todo);
        var name := app.db.jobs[e].name;
        byName := byName[name := (if name in byName then byName[name] else {}) + {e}];
        todo := todo - {e};
      }
      bad := exists e :: e in untracked && (!SubmittingFor(l, app.db.jobs[e].name) || |byName[app.db.jobs[e].name]| > 1);
      forall e: EvalId | e in untracked
        ensures Bad(app, l, e) <==> !SubmittingFor(l, app.db.jobs[e].name) || |byName[app.db.jobs[e].name]| > 1
      {
        var group := byName[app.db.jobs[e].name];
        if |group| > 1 {
          var f: EvalId := Another(group, e);
          assert f in untracked && app.db.jobs[f].name == app.db.jobs[e].name;
        }
        forall f: EvalId | f in untracked && f != e && app.db.jobs[f].name == app.db.jobs[e].name ensures |group| > 1 {
          TwoMembers(group, e, f);
        }
      }
      BadIsUnexplained(app, l);
    }

    // ---- Draining ------------------------------------------------------------------------

    /** _adopt_if_created on the 'submitting' entry k. */
    method AdoptIfCreated(app: App, cell: Cell, k: nat) returns (adopted: Option<EvalId>, halted: bool)
      requires k < |ledger.entries| && ledger.entries[k].state.Submitting? && ledger.entries[k].cell == cell
      requires LedgerOk(ledger.Data(), app, m) && ledger.saved == ledger.Data()
      modifies ledger`entries, ledger`saved
      ensures var found := Candidates(app, old(ledger.Data()), cell);
        && halted == (|found| > 1)
        && (adopted.Some? <==> |found| == 1) && (adopted.Some? ==> found == {adopted.value})
      ensures adopted.Some? ==> forall e :: LostCreation(app, old(ledger.Data()), cell, e) <==> e == adopted.value
      ensures adopted.None? && !halted ==> forall e :: !LostCreation(app, old(ledger.Data()), cell, e)
      ensures halted ==> exists e, f :: e != f && LostCreation(app, old(ledger.Data()), cell, e) && LostCreation(app, old(ledger.Data()), cell, f)
      ensures adopted.None? ==> ledger.Data() == old(ledger.Data()) && ledger.saved == old(ledger.saved)
      ensures adopted.Some? ==>
        && ledger.saved == ledger.Data()
        && ledger.Data() == WithUpdate(old(ledger.Data()), k, old(ledger.entries)[k].(id := adopted, state := Submitted))
    {
      var found := Candidates(app, ledger.Data(), cell);
      CandidatesAreLost(app, ledger.Data(), cell);
      hide LostCreation;
      if |found| > 1 {
        ghost var e: EvalId := AnyOf(found);
        ghost var f: EvalId := Another(found, e);
        return None, true;
      }
      if found == {} { return None, false; }
      var id: EvalId := TheOnly(found);
      assert id in found && EntryOk(ledger.entries[k], app, m);
      UpdateOk(ledger.Data(), app, m, k, ledger.entries[k].(id := Some(id), state := Submitted));
      ledger.entries := ledger.entries[k := ledger.entries[k].(id := Some(id), state := Submitted)];
      var ok := ledger.Save();
      return Some(id), false;
    }

    /** One cell of the drain loop; None means the launch halted. */
    method DrainCell(app: App, i: nat, plan: seq<Cell>) returns (next: Option<Pc>)
      requires ValidManifest(m) && i < |m.cells| && SysOk(View(app, Drain(i, plan)), m)
      modifies ledger`entries, ledger`saved
      ensures Reached(app, next) == DoDrainCell(old(View(app, Drain(i, plan))), m)
      ensures forall k: nat :: FirstActive(old(ledger.entries), m.cells[i]) == Some(k) ==>
        Drained(app, old(ledger.entries)[k], next, i, plan, k, old(ledger.entries), ledger.entries)
    {
      hide LedgerOk, MovedOn, Settlement.Fair;
      var k := FirstActive(ledger.entries, m.cells[i]);
      if k.None? { return Some(Drain(i + 1, plan)); }
      ActiveIsOwn(ledger.Data(), app, m, m.cells[i], k.value);
      var entry := ledger.entries[k.value];
      MovedOnIs(app, entry);
      if entry.state.Submitting? {
        next := DrainIntent(app, i, plan, k.value);
      } else if entry.state.EntryFailed? || entry.state.EntryCanceled? {
        if !ExternallyResumed(app, entry) { return Some(Drain(i + 1, plan)); }
        SaveUpdate(app, k.value, entry.(state := Rejected));
        return None;
      } else if entry.state.Submitted? {
        var records := new Resume[|entry.resumes|](j requires 0 <= j < |entry.resumes| => entry.resumes[j]);
        assert records[..] == entry.resumes;
        Settlement.SettleResumes(records, EventsOf(app, entry));
        SaveUpdate(app, k.value, entry.(resumes := records[..]));
        return Some(DrainWait(i, plan, k.value));
      } else {
        return Some(Drain(i + 1, plan));
      }
    }

    /** A 'submitting' entry found by the drain loop: adopted, withdrawn, or the launch halts. */
    method DrainIntent(app: App, i: nat, plan: seq<Cell>, k: nat) returns (next: Option<Pc>)
      requires ValidManifest(m) && i < |m.cells| && SysOk(View(app, Drain(i, plan)), m)
      requires FirstActive(ledger.entries, m.cells[i]) == Some(k) && EntryIs(ledger.Data(), k, Submitting, m.cells[i])
      modifies ledger`entries, ledger`saved
      ensures Reached(app, next) == DoDrainCell(old(View(app, Drain(i, plan))), m)
    {
      hide LedgerOk;
      ghost var l := ledger.Data();
      var adopted, halted := AdoptIfCreated(app, m.cells[i], k);
      if halted { return None; }
      if adopted.Some? { return Some(DrainWait(i, plan, k)); }
      NotCreated(l, app, m, i, k);
      ledger.entries := ledger.entries[..k] + ledger.entries[k + 1..];
      SaveInOrder(app);
      return Some(Drain(i + 1, plan));
    }

    /** Replaces entry k and saves. */
    method SaveUpdate(app: App, k: nat, entry: Entry)
      requires k < |ledger.entries| && LedgerOk(ledger.Data(), app, m) && entry.cell == ledger.entries[k].cell && entry.id == ledger.entries[k].id
      requires (entry.state.Submitting? <==> ledger.entries[k].state.Submitting?) && (Active(entry) ==> Active(ledger.entries[k]))
      requires InFlight(entry) ==> InFlight(ledger.entries[k])
      modifies ledger`entries, ledger`saved
      ensures ledger.saved == ledger.Data() == WithUpdate(old(ledger.Data()), k, entry) && LedgerOk(ledger.Data(), app, m)
    {
      assert EntryOk(ledger.entries[k], app, m);
      UpdateOk(ledger.Data(), app, m, k, entry);
      ledger.entries := ledger.entries[k := entry];
      var ok := ledger.Save();
    }

    method SaveInOrder(app: App)
      requires LedgerOk(ledger.Data(), app, m)
      modifies ledger`saved
      ensures ledger.saved == ledger.Data()
    {
      var ok := ledger.Save();
    }

    // ---- Submission ----------------------------------------------------------------------

    /** _check_app_state, right before every submission; None means the launch halted. */
    method CheckAppState(probe: Probe, idle: App, tracked: App, plan: seq<Cell>) returns (next: Option<Pc>)
      requires plan != [] && ledger.saved == ledger.Data()
      ensures next == if ProbeOk(probe) && ActiveEvaluations(idle) == {} && !AnyBad(tracked, ledger.Data())
                      then Some(AppTracked(plan)) else None
    {
      if !probe.reachable || !probe.boundToOurs || !probe.healthy { return None; }
      var busy := ActiveEvaluations(idle);
      if !probe.historyIntact { return None; }
      if busy != {} { return None; }
      var bad := CheckUntracked(tracked);
      return if bad then None else Some(AppTracked(plan));
    }

    /** The intent is written and saved before the POST. */
    method SaveIntent(app: App, plan: seq<Cell>, facts: Facts) returns (next: Pc)
      requires ValidManifest(m) && plan != [] && SysOk(View(app, AppTracked(plan)), m) && forall c :: c in plan ==> c in m.cells
      modifies ledger`entries, ledger`saved
      ensures View(app, next) == DoSaveIntent(old(View(app, AppTracked(plan))), facts)
      ensures ledger.entries == old(ledger.entries) + [Entry(plan[0], None, Submitting, [], facts, None, 0)]
      ensures ledger.saved == ledger.Data() && next == IntentSaved(plan, |old(ledger.entries)|)
    {
      hide LedgerOk;
      NewOk(ledger.Data(), app, m, FreshEntry(plan[0]).(facts := facts));
      var k := |ledger.entries|;
      ledger.entries := ledger.entries + [FreshEntry(plan[0]).(facts := facts)];
      SaveInOrder(app);
      return IntentSaved(plan, k);
    }

    /** What becomes of the entry once the POST has been answered, or has not. */
    method RecordAnswer(app: App, plan: seq<Cell>, k: nat, answer: Answer) returns (next: Option<Pc>)
      requires ValidManifest(m) && SysOk(View(app, PostSent(plan, k, answer)), m)
      modifies ledger`entries, ledger`saved
      ensures Reached(app, next) == DoRecord(old(View(app, PostSent(plan, k, answer))))
      ensures ledger.saved == ledger.Data() && k < |old(ledger.entries)|
      ensures answer == NoAnswer ==> next.None? && ledger.entries == old(ledger.entries)
      ensures answer == RefusedByApp ==> next.None? && ledger.entries == old(ledger.entries)[..k] + old(ledger.entries)[k + 1..]
      ensures answer.Created? ==>
        && next == (if answer.asAsked then Some(PlanWait(plan, k)) else None)
        && ledger.entries == old(ledger.entries)[k := old(ledger.entries)[k].(id := Some(answer.id),
                                                                            state := if answer.asAsked then Submitted else Rejected)]
    {
      ghost var s := View(app, PostSent(plan, k, answer));
      RecordOk(s, m);
      hide LedgerOk;
      match answer {
        case NoAnswer =>
          SaveInOrder(app);
          return None;
        case RefusedByApp =>
          ledger.entries := ledger.entries[..k] + ledger.entries[k + 1..];
          SaveInOrder(app);
          return None;
        case Created(id, asAsked) =>
          ledger.entries := ledger.entries[k := ledger.entries[k].(id := Some(id), state := if asAsked then Submitted else Rejected)];
          SaveInOrder(app);
          return if asAsked then Some(PlanWait(plan, k)) else None;
      }
    }

    // ---- Watching a running evaluation ---------------------------------------------------

    /** _watch: each kind of violation is looked for until seen once, and then recorded and saved at once. */
    method Watch(app: App, pc: Pc, seen: Observation)
      requires SysOk(View(app, pc), m) && (pc.DrainWait? || pc.PlanWait?)
      modifies ledger`entries, ledger`saved
      ensures var entry := old(ledger.entries)[pc.k];
        View(app, pc) == DoWatch(old(View(app, pc)), RunsAlongside(app, entry), IdentityMoved(m, ref, entry, seen))
      ensures |ledger.entries| == |old(ledger.entries)| && ledger.saved == ledger.Data()
      ensures Watched(app, m, ref, seen, old(ledger.entries)[pc.k], ledger.entries[pc.k])
    {
      hide LedgerOk, RunsAlongside, IdentityMoved;
      WatchConcurrency(app, pc.k);
      SameIdentity(m, ref, old(ledger.entries)[pc.k], ledger.entries[pc.k], seen);
      WatchIdentity(app, pc.k, seen);
      WatchMeans(app, m, ref, seen, old(ledger.entries)[pc.k], ledger.entries[pc.k]);
      hide Watched;
      assert ledger.entries == old(ledger.entries)[pc.k := ledger.entries[pc.k]];
    }

    method WatchConcurrency(app: App, k: nat)
      requires k < |ledger.entries| && LedgerOk(ledger.Data(), app, m) && ledger.saved == ledger.Data()
      modifies ledger`entries, ledger`saved
      ensures var entry := old(ledger.entries)[k];
        && ledger.saved == ledger.Data() && LedgerOk(ledger.Data(), app, m)
        && ledger.Data() == WithUpdate(old(ledger.Data()), k, entry.(facts := entry.facts.(
             concurrencyViolation := entry.facts.concurrencyViolation || RunsAlongside(app, entry))))
    {
      hide LedgerOk;
      var entry := ledger.entries[k];
      assert ledger.entries == ledger.entries[k := entry];
      if !entry.facts.concurrencyViolation && entry.id.Some? && entry.id.value in app.db.jobs
         && app.db.jobs[entry.id.value].status.Running? {
        var others := set e | e in app.db.jobs && app.db.jobs[e].status.Running? && e != entry.id.value;
        OthersRun(app, entry, others);
        if others != {} { SaveUpdate(app, k, entry.(facts := entry.facts.(concurrencyViolation := true))); }
      }
    }

    method WatchIdentity(app: App, k: nat, seen: Observation)
      requires k < |ledger.entries| && LedgerOk(ledger.Data(), app, m) && ledger.saved == ledger.Data()
      modifies ledger`entries, ledger`saved
      ensures var entry := old(ledger.entries)[k];
        && ledger.saved == ledger.Data()
        && ledger.Data() == WithUpdate(old(ledger.Data()), k, entry.(facts := entry.facts.(
             identityViolation := entry.facts.identityViolation || IdentityMoved(m, ref, entry, seen))))
    {
      hide LedgerOk;
      var entry := ledger.entries[k];
      assert ledger.entries == ledger.entries[k := entry];
      if m.config.backend.Ollama? && !entry.facts.identityViolation && seen.Observed? {
        var expected := if entry.facts.digestAtSubmit.Some? then entry.facts.digestAtSubmit else ReferenceDigest(ref, entry.cell.model);
        var version := if entry.facts.versionAtSubmit.Some? then entry.facts.versionAtSubmit else ref.version;
        if (expected.Some? && seen.digest != expected) || seen.version != version {
          SaveUpdate(app, k, entry.(facts := entry.facts.(identityViolation := true)));
        }
      }
    }

    // ---- Operator commands ---------------------------------------------------------------

    /** resume_cell up to its POST. It refuses a cell whose evaluation can never count; `ready` says whether code, task pins and
        model identity are in order and the model was loaded. Without a next step the command has stopped. */
    method ResumeCell(app: App, cell: Cell, classified: bool, ready: bool, warmedUp: bool, at: Time)
      returns (resumable: bool, next: Option<Pc>)
      requires SysOk(Over(app), m)
      modifies ledger
      ensures var k := FirstActive(old(ledger.saved).entries, cell);
        && (resumable <==> ledger.header == header && !classified && k.Some? && CanResumeCell(old(Over(app)), m, k.value))
        && (resumable && (ready || ExternallyResumed(app, old(ledger.saved).entries[k.value])) ==>
             Reached(app, next) == DoResumeIntent(old(Over(app)), m, k.value, checkCode, warmedUp, at))
        && (resumable && !ready && !ExternallyResumed(app, old(ledger.saved).entries[k.value]) ==>
             next.None? && Over(app) == old(Over(app)))
      ensures !resumable ==> next.None? && Over(app) == old(Over(app))
      ensures resumable <==> ledger.header == header && !classified
                             && exists k: nat :: k < |old(ledger.saved).entries| && MayResume(m, cell, old(ledger.saved).entries[k])
    {
      ResumableIs(Over(app), m, cell);
      hide MayResume;
      ghost var s := Over(app);
      OneActive(ledger.saved, cell);
      var error := ledger.Load(Some(header.campaign), Some(header.manifest));
      if error.Some? { return false, None; }
      var active := ledger.ActiveEntry(cell);
      assert FirstActive(s.disk.entries, cell).Some? ==> active.Some? by {
        if FirstActive(s.disk.entries, cell).Some? { assert IsActiveFor(ledger.Data(), FirstActive(s.disk.entries, cell).value, cell); }
      }
      if active.None? { return false, None; }
      var k := active.value;
      var entry := ledger.entries[k];
      if !entry.state.EntryFailed? && !entry.state.EntryCanceled? { return false, None; }
      assert EntryOk(entry, app, m);
      hide LedgerOk;
      var unofficial := RehearsalProblems(m, entry);
      if classified || entry.facts.identityViolation || entry.facts.concurrencyViolation || unofficial != [] { return false, None; }
      ResumeIntentOk(s, m, k, checkCode, warmedUp, at);
      next := ResumeEntry(app, k, ready, warmedUp, at);
      return true, next;
    }

    /** The part of resume_cell that follows once the entry may be resumed. */
    method ResumeEntry(app: App, k: nat, ready: bool, warmedUp: bool, at: Time) returns (next: Option<Pc>)
      requires ledger.Data() == ledger.saved && CanResumeCell(Over(app), m, k)
      requires SysOk(DoResumeIntent(Over(app), m, k, checkCode, warmedUp, at), m)
      modifies ledger`entries, ledger`saved
      ensures ready || ExternallyResumed(app, old(ledger.entries)[k]) ==>
        Reached(app, next) == DoResumeIntent(old(Over(app)), m, k, checkCode, warmedUp, at)
      ensures !ready && !ExternallyResumed(app, old(ledger.entries)[k]) ==> next.None? && Over(app) == old(Over(app))
      ensures next.Some? ==>
        && ready && old(ledger.entries)[k].state in {EntryFailed, EntryCanceled} && next == Some(Resuming(k, old(ledger.entries)[k].state))
        && (forall e :: e in app.db.jobs ==> app.db.jobs[e].status != Queued && app.db.jobs[e].status != Running)
        && ledger.saved == ledger.Data()
        && ledger.entries == old(ledger.entries)[k := old(ledger.entries)[k].(state := Submitted,
                               resumes := old(ledger.entries)[k].resumes + [Resume(Some(at), checkCode, warmedUp, Requested)])]
    {
      hide LedgerOk;
      var entry := ledger.entries[k];
      if ExternallyResumed(app, entry) {
        ledger.entries := ledger.entries[k := entry.(state := Rejected)];
        SaveInOrder(app);
        return None;
      }
      for i := 0 to |ledger.entries|
        invariant forall j :: 0 <= j < i ==> !InFlight(ledger.entries[j])
      {
        if InFlight(ledger.entries[i]) { return None; }
      }
      NoneActive(app);
      if ActiveEvaluations(app) != {} || !ready { return None; }
      var record := Resume(Some(at), checkCode, warmedUp, Requested);
      ledger.entries := ledger.entries[k := entry.(state := Submitted, resumes := entry.resumes + [record])];
      SaveInOrder(app);
      return Some(Resuming(k, entry.state));
    }

    /** What resume_cell notes once its POST was answered, or was not. */
    method RecordResumeAnswer(app: App, k: nat, previous: EntryState, outcome: ResumeOutcome)
      requires SysOk(View(app, Resuming(k, previous)), m)
      requires outcome.NotSent? || outcome.Refused? || outcome.Unknown? || outcome.Agreed?
      modifies ledger`entries, ledger`saved
      ensures Over(app) == DoResumeAnswer(old(View(app, Resuming(k, previous))), outcome)
      ensures ledger.saved == ledger.Data() && k < |old(ledger.entries)| == |ledger.entries| && |old(ledger.entries)[k].resumes| > 0
      ensures var was, last := old(ledger.entries)[k], |old(ledger.entries)[k].resumes| - 1;
        ledger.entries == old(ledger.entries)[k := was.(resumes := was.resumes[..last] + [was.resumes[last].(outcome := outcome)],
                                                        state := if outcome == NotSent || outcome == Refused then previous else was.state)]
    {
      var entry := ledger.entries[k];
      var last := |entry.resumes| - 1;
      assert entry.resumes[last := entry.resumes[last].(outcome := outcome)]
          == entry.resumes[..last] + [entry.resumes[last].(outcome := outcome)];
      entry := entry.(resumes := entry.resumes[last := entry.resumes[last].(outcome := outcome)]);
      if outcome.NotSent? || outcome.Refused? { entry := entry.(state := previous); }
      SaveUpdate(app, k, entry);
    }

    /** supersede_cell: an accepted entry only after the acceptance predicate has refused it. */
    method SupersedeCell(app: App, cell: Cell, reasonGiven: bool) returns (result: Result<nat, LedgerError>)
      requires SysOk(Over(app), m)
      modifies ledger
      ensures result.Ok? <==> ledger.header == header && reasonGiven && CanSupersede(old(Over(app)), m, ref, cell)
      ensures Over(app) == if result.Ok? then DoSupersede(old(Over(app)), m, ref, cell) else old(Over(app))
      ensures result.Ok? <==> ledger.header == header && reasonGiven
                              && exists k: nat :: k < |old(ledger.saved).entries| && MayReplace(app, m, ref, cell, old(ledger.saved).entries[k])
    {
      ReplaceableIs(Over(app), m, ref, cell);
      hide MayReplace;
      var error := ledger.Load(Some(header.campaign), Some(header.manifest));
      if error.Some? { return Err(error.value); }
      ghost var s := Over(app);
      OneActive(s.disk, cell);
      if CanSupersede(s, m, ref, cell) { SupersedeOk(s, m, ref, cell); }
      var active := ledger.ActiveEntry(cell);
      var refusals := 0;
      if active.Some? && ledger.entries[active.value].state.Accepted? && ledger.entries[active.value].cell in m.cells {
        var entry := ledger.entries[active.value];
        var verdict := AssessCell(Some(app), m, entry.cell, Some(entry), ref);
        if !verdict.accepted { refusals := 1; }
      }
      hide LedgerOk, Acceptable;
      result := ledger.Supersede(cell, reasonGiven, refusals);
      if result.Ok? { SaveInOrder(app); }
    }

    /** disown_evaluation: only one that exists, has ended and belongs to no entry. */
    method DisownEvaluation(app: App, id: EvalId, reasonGiven: bool) returns (ok: bool)
      requires SysOk(Over(app), m)
      modifies ledger
      ensures ok <==> ledger.header == header && reasonGiven && Enabled(old(Over(app)), m, ref, Action.Disown(id))
      ensures ledger.saved == if ok then WithDisowned(old(ledger.saved), id) else old(ledger.saved)
      ensures ok <==>
        && ledger.header == header && reasonGiven && id in app.db.jobs
        && app.db.jobs[id].status != Queued && app.db.jobs[id].status != Running
        && (forall i :: 0 <= i < |old(ledger.saved).entries| ==> old(ledger.saved).entries[i].id != Some(id)) && id !in old(ledger.saved).disowned
    {
      KnownMeans(ledger.saved, id);
      var error := ledger.Load(Some(header.campaign), Some(header.manifest));
      if error.Some? { return false; }
      if id !in app.db.jobs || app.db.jobs[id].status.Queued? || app.db.jobs[id].status.Running? { return false; }
      if id !in KnownIds(ledger.saved) { DisownOk(ledger.saved, app, m, id); }
      hide LedgerOk;
      var result := ledger.Disown(id, reasonGiven);
      if result.Err? { return false; }
      SaveInOrder(app);
      return true;
    }

    // ---- Finishing an evaluation ---------------------------------------------------------

    /** _finalize up to the acceptance predicate: reads the evaluation and gives the entry its state. */
    method Judge(app: App, entry: Entry, x: Ending) returns (judged: Entry)
      requires Ended(app, entry)
      ensures judged == Finalized(app, m, entry, ref, checkCode, x)
      ensures IsJudgement(app, m, entry, ref, checkCode, x, judged)
    {
      FinalizedIsJudged(app, m, entry, ref, checkCode, x);
      hide IsJudgement;
      var e, status := entry.(facts := entry.facts.(codeAtFinalize := checkCode)), app.db.jobs[entry.id.value].status;
      if status.Failed? || status.Canceled? {
        var tainted := x.drift || x.unverifiable || e.facts.identityViolation || e.facts.concurrencyViolation;
        var resumes := ResumeProblems(app, e);
        var rehearsal := RehearsalProblems(m, e);
        if tainted || resumes != [] || rehearsal != [] { return e.(state := Rejected); }
        return e.(state := if status.Failed? then EntryFailed else EntryCanceled, halt := Some(SnapshotOf(app, e.id.value)));
      }
      var check := CheckCellEvaluation(app, m, e.cell, e.id);
      if !check.ok || OverlappingEvaluations(app.db, e.id.value) != {} || e.facts.concurrencyViolation { return e.(state := Rejected); }
      if check.voided > 0 { return e.(state := NeedsAttention); }
      if !m.config.backend.Ollama? { return e.(state := Accepted); }
      if x.probeFails || x.identityUnreadable { return e.(state := NeedsAttention); }
      var moved := x.digest.None? || (e.facts.digestAtSubmit.Some? && x.digest != e.facts.digestAtSubmit)
                   || (e.cell.model in ref.digests && x.digest != Some(ref.digests[e.cell.model]))
                   || x.version != ref.version || x.version != e.facts.versionAtSubmit || e.facts.identityViolation;
      return e.(facts := e.facts.(digestAtFinalize := x.digest, versionAtFinalize := x.version),
                state := if moved then Rejected else Accepted);
    }

    /** _finalize: judges, marks the entry in memory, assesses it on the tables as they are then, and only then saves success. */
    method Finish(app: App, later: App, i: nat, plan: seq<Cell>, k: nat, draining: bool, x: Ending) returns (next: Option<Pc>)
      requires ValidManifest(m) && Evolves(app, later)
      requires SysOk(View(app, if draining then DrainWait(i, plan, k) else PlanWait(plan, k)), m)
      requires k < |ledger.entries| && Ended(app, ledger.entries[k])
      modifies ledger`entries, ledger`saved
      ensures var f := Finalized(app, m, old(ledger.entries)[k], ref, checkCode, x);
        var accepted := f.state.Accepted? && Acceptable(later, m, f.cell, f, ref);
        && ledger.saved == ledger.Data()
        && ledger.Data() == WithUpdate(old(ledger.Data()), k, if accepted || !f.state.Accepted? then f else f.(state := Rejected))
        && next == if !accepted then None else Some(if draining then Drain(i + 1, plan) else Planning(plan[1..]))
    {
      var judged := Judge(app, ledger.entries[k], x);
      FinalizedKeepsIdentity(app, m, ledger.entries[k], ref, checkCode, x);
      hide Finalized, Acceptable, CellOk, IsJudgement;
      if !judged.state.Accepted? {
        SaveUpdate(app, k, judged);
        return None;
      }
      var accepted := ConfirmSuccess(app, later, k, judged);
      if !accepted { return None; }
      return Some(if draining then Drain(i + 1, plan) else Planning(plan[1..]));
    }

    /** Marks the entry in memory, assesses it on the later tables, and saves it as accepted or as rejected. */
    method ConfirmSuccess(app: App, later: App, k: nat, judged: Entry) returns (accepted: bool)
      requires Evolves(app, later) && LedgerOk(ledger.Data(), app, m) && k < |ledger.entries| && judged.state.Accepted?
      requires judged.cell == ledger.entries[k].cell && judged.id == ledger.entries[k].id && judged.id.Some? && Active(ledger.entries[k])
      modifies ledger`entries, ledger`saved
      ensures accepted <==> Acceptable(later, m, judged.cell, judged, ref)
      ensures ledger.saved == ledger.Data() == WithUpdate(old(ledger.Data()), k, if accepted then judged else judged.(state := Rejected))
    {
      hide Acceptable, CellOk, RanAlone, PassedAt, OverlappingEvaluations, LedgerOk;
      MarkOk(ledger.Data(), app, m, k, judged);
      ledger.entries := ledger.entries[k := judged];
      EvolvesOk(ledger.Data(), app, later, m);
      var verdict := AssessCell(Some(later), m, judged.cell, Some(judged), ref);
      if verdict.accepted { SaveInOrder(later); } else { SaveUpdate(later, k, judged.(state := Rejected)); }
      return verdict.accepted;
    }
  }

  // ---- The same in terms of rows and records -----------------------------------------------

  /** A campaign-named evaluation that no entry owns and nobody disowned. */
  ghost predicate Unowned(app: App, l: LedgerData, e: EvalId) {
    && e in app.db.jobs && !app.db.jobs[e].name.ForeignName?
    && (forall i :: 0 <= i < |l.entries| ==> l.entries[i].id != Some(e)) && e !in l.disowned
  }

  /** Unowned, and either no saved intent is for its name or it shares that name with another one. */
  ghost predicate Unexplained(app: App, l: LedgerData, e: EvalId) {
    && Unowned(app, l, e)
    && ((forall i :: 0 <= i < |l.entries| && l.entries[i].state == Submitting ==>
           CellName(l.entries[i].cell.model, l.entries[i].cell.task) != app.db.jobs[e].name)
        || exists f :: f != e && Unowned(app, l, f) && app.db.jobs[f].name == app.db.jobs[e].name)
  }

  /** May be what a lost POST for this cell created. */
  ghost predicate LostCreation(app: App, l: LedgerData, cell: Cell, e: EvalId) {
    Unowned(app, l, e) && app.db.jobs[e].name == CellName(cell.model, cell.task)
  }

  lemma UnownedIsUntracked(app: App, l: LedgerData, e: EvalId)
    ensures e in Untracked(app, l) <==> Unowned(app, l, e)
  {
    if e in IdsOf(l) { var i :| 0 <= i < |l.entries| && l.entries[i].id.Some? && l.entries[i].id.value == e; }
    if i :| 0 <= i < |l.entries| && l.entries[i].id == Some(e) { IdsOfHas(l, i); }
    if e in DisownedIds(l) { var i :| 0 <= i < |l.disowned| && l.disowned[i] == e; }
    if e in l.disowned {
      var i :| 0 <= i < |l.disowned| && l.disowned[i] == e;
      assert e in DisownedIds(l);
    }
  }

  lemma BadIsUnexplained(app: App, l: LedgerData)
    ensures AnyBad(app, l) <==> exists e :: Unexplained(app, l, e)
  {
    forall e: EvalId ensures e in Untracked(app, l) <==> Unowned(app, l, e) { UnownedIsUntracked(app, l, e); }
    hide Unowned, Untracked;
    forall e: EvalId ensures Unexplained(app, l, e) <==> e in Untracked(app, l) && Bad(app, l, e) {}
    if AnyBad(app, l) {
      var e: EvalId :| e in Untracked(app, l) && Bad(app, l, e);
      assert Unexplained(app, l, e);
    }
    if e: EvalId :| Unexplained(app, l, e) { assert e in Untracked(app, l) && Bad(app, l, e); }
  }

  lemma CandidatesAreLost(app: App, l: LedgerData, cell: Cell)
    ensures forall e: EvalId :: e in Candidates(app, l, cell) <==> LostCreation(app, l, cell, e)
  {
    forall e: EvalId ensures e in Candidates(app, l, cell) <==> LostCreation(app, l, cell, e) { UnownedIsUntracked(app, l, e); }
  }

  lemma NoneActive(app: App)
    ensures ActiveEvaluations(app) == {} <==> forall e: EvalId :: e in app.db.jobs ==> app.db.jobs[e].status != Queued && app.db.jobs[e].status != Running
  {
    if forall e: EvalId :: e in app.db.jobs ==> app.db.jobs[e].status != Queued && app.db.jobs[e].status != Running {
      if ActiveEvaluations(app) != {} { var e: EvalId := AnyOf(ActiveEvaluations(app)); }
    } else {
      var e: EvalId :| e in app.db.jobs && !(app.db.jobs[e].status != Queued && app.db.jobs[e].status != Running);
      assert e in ActiveEvaluations(app);
    }
  }

  /** The evaluation of a failed or canceled entry runs again or has succeeded, or is no longer as it was when the campaign halted on it. */
  ghost predicate MovedOn(app: App, entry: Entry) {
    && entry.id.Some? && entry.id.value in app.db.jobs
    && var e := entry.id.value;
    && var status := app.db.jobs[e].status;
       || status == Queued || status == Running || status == Succeeded
       || (entry.halt.Some?
           && !(&& entry.halt.value.status == status
                && entry.halt.value.completed == |set k | k in app.db.trials && k.eval == e && app.db.trials[k].state == Completed|
                && entry.halt.value.resumes == if e in app.resumed then |app.resumed[e]| else 0))
  }

  lemma MovedOnIs(app: App, entry: Entry)
    ensures ExternallyResumed(app, entry) <==> MovedOn(app, entry)
  {
    if entry.id.Some? {
      var e: EvalId := entry.id.value;
      assert (set k | k in KeysOf(app.db, e) && app.db.trials[k].state.Completed?)
          == set k | k in app.db.trials && k.eval == e && app.db.trials[k].state == Completed;
    }
  }

  /** What draining does to a cell's active entry, unless it is an intent: a failed or canceled one that moved on is rejected and
      halts, a submitted one gets its resumes settled and is waited for, any other is passed over. */
  ghost predicate Drained(app: App, entry: Entry, next: Option<Pc>, i: nat, plan: seq<Cell>, k: nat, was: seq<Entry>, now: seq<Entry>)
  {
    if k >= |was| || entry.state == Submitting then true
    else if entry.state in {EntryFailed, EntryCanceled} && MovedOn(app, entry) then
      next == None && now == was[k := entry.(state := Rejected)]
    else if entry.state == Submitted then
      && next == Some(DrainWait(i, plan, k)) && |now| == |was| && now == was[k := entry.(resumes := now[k].resumes)]
      && Settlement.Fair(entry.resumes, EventsOf(app, entry), now[k].resumes)
    else next == Some(Drain(i + 1, plan)) && now == was
  }

  /** The cell's unreplaced entry failed or was canceled, saw no violation, and every start was code-checked and warmed up. */
  ghost predicate MayResume(m: Manifest, cell: Cell, entry: Entry) {
    && entry.state in {EntryFailed, EntryCanceled} && entry.cell.model == cell.model && entry.cell.task == cell.task && entry.id.Some?
    && !entry.facts.identityViolation && !entry.facts.concurrencyViolation
    && entry.facts.codeAtSubmit && (m.config.backend == Ollama ==> entry.facts.warmedUp)
    && forall i :: 0 <= i < |entry.resumes| && Effective(entry.resumes[i]) ==>
         entry.resumes[i].checkCode && (m.config.backend == Ollama ==> entry.resumes[i].warmedUp)
  }

  lemma OfficialMeans(m: Manifest, entry: Entry)
    ensures Official(m, entry) <==>
      && entry.facts.codeAtSubmit && (m.config.backend == Ollama ==> entry.facts.warmedUp)
      && forall i :: 0 <= i < |entry.resumes| && Effective(entry.resumes[i]) ==>
           entry.resumes[i].checkCode && (m.config.backend == Ollama ==> entry.resumes[i].warmedUp)
  {
    forall i | 0 <= i < |entry.resumes| ensures entry.resumes[i] in entry.resumes && (Effective(entry.resumes[i]) <==> MayHaveRun(entry.resumes[i])) {}
    forall r | r in entry.resumes ensures exists i :: 0 <= i < |entry.resumes| && entry.resumes[i] == r {}
  }

  lemma ResumableIs(s: Sys, m: Manifest, cell: Cell)
    requires s.proc.None? && LedgerInv(s.disk)
    ensures var k := FirstActive(s.disk.entries, cell);
      (k.Some? && CanResumeCell(s, m, k.value)) <==> exists j: nat :: j < |s.disk.entries| && MayResume(m, cell, s.disk.entries[j])
  {
    var entries, k := s.disk.entries, FirstActive(s.disk.entries, cell);
    if j: nat :| j < |entries| && MayResume(m, cell, entries[j]) {
      OneActive(s.disk, cell);
      assert IsActiveFor(s.disk, j, cell);
      OfficialMeans(m, entries[j]);
    }
    if k.Some? && CanResumeCell(s, m, k.value) {
      OfficialMeans(m, entries[k.value]);
      assert MayResume(m, cell, entries[k.value]);
    }
  }

  /** The cell's unreplaced entry needs attention, failed, was canceled or rejected, or is accepted and planned but refused now. */
  ghost predicate MayReplace(app: App, m: Manifest, ref: Reference, cell: Cell, entry: Entry) {
    && entry.cell.model == cell.model && entry.cell.task == cell.task
    && (entry.state in {NeedsAttention, EntryFailed, EntryCanceled, Rejected}
        || (entry.state == Accepted && entry.cell in m.cells && !Acceptable(app, m, entry.cell, entry, ref)))
  }

  lemma ReplaceableIs(s: Sys, m: Manifest, ref: Reference, cell: Cell)
    requires s.proc.None? && LedgerInv(s.disk)
    ensures CanSupersede(s, m, ref, cell) <==>
      exists j: nat :: j < |s.disk.entries| && MayReplace(s.app, m, ref, cell, s.disk.entries[j])
  {
    hide Acceptable;
    var entries := s.disk.entries;
    if j: nat :| j < |entries| && MayReplace(s.app, m, ref, cell, entries[j]) {
      OneActive(s.disk, cell);
      assert IsActiveFor(s.disk, j, cell);
    }
    if CanSupersede(s, m, ref, cell) { assert MayReplace(s.app, m, ref, cell, entries[FirstActive(entries, cell).value]); }
  }

  lemma KnownMeans(l: LedgerData, e: EvalId)
    ensures e in KnownIds(l) <==> e in l.disowned || exists i :: 0 <= i < |l.entries| && l.entries[i].id == Some(e)
  {
    if e in IdsOf(l) { var i :| 0 <= i < |l.entries| && l.entries[i].id.Some? && l.entries[i].id.value == e; }
    if i :| 0 <= i < |l.entries| && l.entries[i].id == Some(e) { IdsOfHas(l, i); }
    if e in DisownedIds(l) { var i :| 0 <= i < |l.disowned| && l.disowned[i] == e; }
    if e in l.disowned {
      var i :| 0 <= i < |l.disowned| && l.disowned[i] == e;
      assert e in DisownedIds(l);
    }
  }

  /** Watching changes the two violation flags only: the first once another evaluation runs while this one does, the second once the
      model server shows another model or version than the evaluation was submitted to, or than the reference when that is unknown. */
  ghost predicate Watched(app: App, m: Manifest, ref: Reference, seen: Observation, was: Entry, now: Entry) {
    && now == was.(facts := was.facts.(concurrencyViolation := now.facts.concurrencyViolation,
                                       identityViolation := now.facts.identityViolation))
    && (now.facts.concurrencyViolation <==> (was.facts.concurrencyViolation || AnotherRuns(app, was)))
    && (now.facts.identityViolation <==> (was.facts.identityViolation || ShowsAnother(m, ref, seen, was)))
  }

  ghost predicate AnotherRuns(app: App, entry: Entry) {
    && entry.id.Some? && entry.id.value in app.db.jobs && app.db.jobs[entry.id.value].status == Running
    && exists e :: e in app.db.jobs && app.db.jobs[e].status == Running && e != entry.id.value
  }

  ghost predicate ShowsAnother(m: Manifest, ref: Reference, seen: Observation, entry: Entry) {
    && m.config.backend == Ollama && seen.Observed?
    && var f := entry.facts;
       || (f.digestAtSubmit.Some? && seen.digest != f.digestAtSubmit)
       || (f.digestAtSubmit.None? && entry.cell.model in ref.digests && seen.digest != Some(ref.digests[entry.cell.model]))
       || (f.versionAtSubmit.Some? && seen.version != f.versionAtSubmit)
       || (f.versionAtSubmit.None? && seen.version != ref.version)
  }

  lemma WatchMeans(app: App, m: Manifest, ref: Reference, seen: Observation, was: Entry, now: Entry)
    requires now == was.(facts := was.facts.(concurrencyViolation := was.facts.concurrencyViolation || RunsAlongside(app, was),
                                             identityViolation := was.facts.identityViolation || IdentityMoved(m, ref, was, seen)))
    ensures Watched(app, m, ref, seen, was, now)
  {
  }

  /** The identity read at the end is the one recorded at submission and the campaign's reference, and was never seen to move. */
  ghost predicate SameModel(entry: Entry, ref: Reference, x: Ending) {
    && x.digest.Some? && (entry.facts.digestAtSubmit.Some? ==> entry.facts.digestAtSubmit == x.digest)
    && (entry.cell.model in ref.digests ==> Some(ref.digests[entry.cell.model]) == x.digest)
    && ref.version == x.version == entry.facts.versionAtSubmit && !entry.facts.identityViolation
  }

  /** The evaluation succeeded, passes the cell check and ran alone. */
  ghost predicate Sound(app: App, m: Manifest, entry: Entry)
    requires Ended(app, entry)
  {
    && app.db.jobs[entry.id.value].status == Succeeded && CellOk(app, m, entry.cell, entry.id.value)
    && RanAlone(app.db, entry.id.value) && !entry.facts.concurrencyViolation
  }

  /** Nothing speaks against resuming the failed or canceled evaluation later. */
  ghost predicate Untainted(app: App, m: Manifest, entry: Entry, x: Ending) {
    && !x.drift && !x.unverifiable && !entry.facts.identityViolation && !entry.facts.concurrencyViolation
    && ResumesAccounted(app, entry) && Official(m, entry)
  }

  /** Which state an ended evaluation gives its entry. */
  ghost predicate IsJudgement(app: App, m: Manifest, entry: Entry, ref: Reference, checkCode: bool, x: Ending, judged: Entry)
    requires Ended(app, entry)
  {
    var status, ollama := app.db.jobs[entry.id.value].status, m.config.backend == Ollama;
    && judged.cell == entry.cell && judged.id == entry.id && judged.resumes == entry.resumes && judged.refusals == entry.refusals
    && judged.facts.codeAtFinalize == checkCode
    && (judged.state == Accepted <==>
          && Sound(app, m, entry) && NoVoids(app, entry.id.value)
          && (ollama ==> !x.probeFails && !x.identityUnreadable && SameModel(entry, ref, x)))
    && (judged.state == NeedsAttention <==>
          Sound(app, m, entry) && (!NoVoids(app, entry.id.value) || (ollama && (x.probeFails || x.identityUnreadable))))
    && (judged.state == EntryFailed <==> status == Failed && Untainted(app, m, entry, x))
    && (judged.state == EntryCanceled <==> status == Canceled && Untainted(app, m, entry, x))
    && judged.state in {Accepted, NeedsAttention, EntryFailed, EntryCanceled, Rejected}
    && (judged.state == Accepted && ollama ==> judged.facts.digestAtFinalize == x.digest && judged.facts.versionAtFinalize == x.version)
  }

  lemma FinalizedIsJudged(app: App, m: Manifest, entry: Entry, ref: Reference, checkCode: bool, x: Ending)
    requires Ended(app, entry)
    ensures IsJudgement(app, m, entry, ref, checkCode, x, Finalized(app, m, entry, ref, checkCode, x))
  {
    var status := app.db.jobs[entry.id.value].status;
    hide IsJudgement;
    if status.Failed? || status.Canceled? {
      FailureIsJudged(app, m, entry, ref, checkCode, x);
    } else {
      SuccessIsJudged(app, m, entry, ref, checkCode, x);
    }
  }

  lemma FailureIsJudged(app: App, m: Manifest, entry: Entry, ref: Reference, checkCode: bool, x: Ending)
    requires Ended(app, entry) && (app.db.jobs[entry.id.value].status.Failed? || app.db.jobs[entry.id.value].status.Canceled?)
    ensures IsJudgement(app, m, entry, ref, checkCode, x, Finalized(app, m, entry, ref, checkCode, x))
  {
    hide CellOk, NoVoids, RanAlone, OverlappingEvaluations, SameModel, SnapshotOf;
    var e := entry.(facts := entry.facts.(codeAtFinalize := checkCode));
    assert Official(m, e) == Official(m, entry) && ResumesAccounted(app, e) == ResumesAccounted(app, entry);
    hide Official, ResumesAccounted;
  }

  lemma SuccessIsJudged(app: App, m: Manifest, entry: Entry, ref: Reference, checkCode: bool, x: Ending)
    requires Ended(app, entry) && !app.db.jobs[entry.id.value].status.Failed? && !app.db.jobs[entry.id.value].status.Canceled?
    ensures IsJudgement(app, m, entry, ref, checkCode, x, Finalized(app, m, entry, ref, checkCode, x))
  {
    NoOverlapMeansAlone(app.db, entry.id.value);
    hide CellOk, NoVoids, RanAlone, OverlappingEvaluations, Official, ResumesAccounted, SnapshotOf, Untainted;
    assert app.db.jobs[entry.id.value].status == Succeeded;
  }

  lemma MarkOk(l: LedgerData, app: App, m: Manifest, k: nat, entry: Entry)
    requires LedgerOk(l, app, m) && k < |l.entries| && entry.cell == l.entries[k].cell && entry.id == l.entries[k].id
    requires entry.state.Accepted? && l.entries[k].id.Some? && Active(l.entries[k])
    ensures LedgerOk(WithUpdate(l, k, entry), app, m)
  {
    assert EntryOk(l.entries[k], app, m);
    UpdateOk(l, app, m, k, entry);
  }

  /** What the health check and the frozen historical database say. */
  datatype Probe = Probe(reachable: bool, boundToOurs: bool, healthy: bool, historyIntact: bool)

  predicate ProbeOk(probe: Probe) {
    probe.reachable && probe.boundToOurs && probe.healthy && probe.historyIntact
  }

  /** One reading of the model server; a failed one is only counted. */
  datatype Observation = Unreadable | Observed(digest: Option<int>, version: Option<int>)

  function ReferenceDigest(ref: Reference, model: AgentName): Option<int> {
    if model in ref.digests then Some(ref.digests[model]) else None
  }

  /** Another evaluation runs while this entry's does. */
  predicate RunsAlongside(app: App, entry: Entry) {
    && entry.id.Some? && entry.id.value in app.db.jobs && app.db.jobs[entry.id.value].status.Running?
    && exists e :: e in app.db.jobs && app.db.jobs[e].status.Running? && e != entry.id.value
  }

  /** The model or its server is not the one the evaluation was submitted to, or else the campaign's reference. */
  predicate IdentityMoved(m: Manifest, ref: Reference, entry: Entry, seen: Observation) {
    && m.config.backend.Ollama? && seen.Observed?
    && var expected := if entry.facts.digestAtSubmit.Some? then entry.facts.digestAtSubmit else ReferenceDigest(ref, entry.cell.model);
       var version := if entry.facts.versionAtSubmit.Some? then entry.facts.versionAtSubmit else ref.version;
       (expected.Some? && seen.digest != expected) || seen.version != version
  }

  lemma SameIdentity(m: Manifest, ref: Reference, a: Entry, b: Entry, seen: Observation)
    requires a.cell == b.cell && a.facts.digestAtSubmit == b.facts.digestAtSubmit && a.facts.versionAtSubmit == b.facts.versionAtSubmit
    ensures IdentityMoved(m, ref, a, seen) == IdentityMoved(m, ref, b, seen)
  {
  }

  lemma OthersRun(app: App, entry: Entry, others: set<EvalId>)
    requires entry.id.Some? && entry.id.value in app.db.jobs && app.db.jobs[entry.id.value].status.Running?
    requires forall e :: e in others <==> e in app.db.jobs && app.db.jobs[e].status.Running? && e != entry.id.value
    ensures others != {} <==> RunsAlongside(app, entry)
  {
    if RunsAlongside(app, entry) {
      var e :| e in app.db.jobs && app.db.jobs[e].status.Running? && e != entry.id.value;
      assert e in others;
    }
    if others != {} {
      var e: EvalId := AnyOf(others);
      assert e in others;
    }
  }

  lemma AnyOf<T>(s: set<T>) returns (x: T)
    requires s != {}
    ensures x in s
  {
    x :| x in s;
  }

  /** The active entry of a cell is the first one found. */
  lemma OneActive(l: LedgerData, cell: Cell)
    requires LedgerInv(l)
    ensures forall i: nat :: IsActiveFor(l, i, cell) ==> FirstActive(l.entries, cell) == Some(i)
    ensures FirstActive(l.entries, cell).Some? ==> IsActiveFor(l, FirstActive(l.entries, cell).value, cell)
  {
  }

  lemma Another<T>(group: set<T>, x: T) returns (y: T)
    requires |group| > 1
    ensures y in group && y != x
  {
    assert |group - {x}| > 0;
    y :| y in group - {x};
  }

  lemma TwoMembers<T>(group: set<T>, x: T, y: T)
    requires x in group && y in group && x != y
    ensures |group| > 1
  {
    assert |group - {x}| > 0;
  }
}
