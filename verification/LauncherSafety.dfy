/** What every run of the campaign tooling keeps, crashes included. */
module LauncherSafety {
  import opened Wrappers
  import opened Tables
  import opened Campaign
  import opened Cohort
  import opened Acceptance
  import opened LedgerStore
  import opened LauncherProtocol
  import Settlement

  // ---- The ledger and the application ----------------------------------------------------

  /** An owned evaluation exists and carries its cell's name; only a submission not yet recorded has no id. */
  predicate EntryOk(entry: Entry, app: App, m: Manifest) {
    && entry.cell in m.cells && (entry.state.Submitting? <==> entry.id.None?)
    && (entry.id.Some? ==> entry.id.value in app.db.jobs && app.db.jobs[entry.id.value].name == NameOf(entry.cell))
  }

  predicate OneInFlight(l: LedgerData) {
    forall i, j :: 0 <= i < j < |l.entries| ==> !InFlight(l.entries[i]) || !InFlight(l.entries[j])
  }

  ghost predicate LedgerOk(l: LedgerData, app: App, m: Manifest) {
    && LedgerInv(l) && OneInFlight(l)
    && (forall i :: 0 <= i < |l.entries| ==> EntryOk(l.entries[i], app, m))
    && (forall d :: d in l.disowned ==> d in app.db.jobs)
  }

  /** Nothing of the first i cells is in flight. */
  predicate DrainedTo(l: LedgerData, m: Manifest, i: nat) {
    i <= |m.cells| && forall k :: 0 <= k < |l.entries| && InFlight(l.entries[k]) ==> l.entries[k].cell !in m.cells[..i]
  }

  predicate EntryIs(l: LedgerData, k: nat, state: EntryState, cell: Cell) {
    k < |l.entries| && l.entries[k].state == state && l.entries[k].cell == cell
  }

  ghost predicate PcOk(s: Sys, m: Manifest)
    requires s.proc.Some?
  {
    var mem, pc := s.proc.value.mem, s.proc.value.pc;
    match pc
    case Begin(_) => true
    case Drain(i, _) => DrainedTo(mem, m, i)
    case DrainWait(i, _, k) => DrainedTo(mem, m, i) && i < |m.cells| && EntryIs(mem, k, Submitted, m.cells[i])
    case Planning(_) => NothingInFlight(mem)
    case AppIdle(plan) => NothingInFlight(mem) && plan != [] && FirstActive(mem.entries, plan[0]).None?
    case AppTracked(plan) => NothingInFlight(mem) && plan != [] && FirstActive(mem.entries, plan[0]).None?
    case IntentSaved(plan, k) => plan != [] && EntryIs(mem, k, Submitting, plan[0])
    case PostSent(plan, k, answer) =>
      && plan != [] && EntryIs(mem, k, Submitting, plan[0])
      && (answer.Created? ==> answer.id in s.app.db.jobs && s.app.db.jobs[answer.id].name == NameOf(plan[0])
                              && answer.id !in KnownIds(mem))
    case PlanWait(plan, k) => plan != [] && EntryIs(mem, k, Submitted, plan[0])
    case Judged(draining, i, plan, k) =>
      && k < |mem.entries| && mem.entries[k].state.Accepted? && k < |s.disk.entries| && s.disk.entries[k].state.Submitted?
      && s.disk.entries[k].cell == mem.entries[k].cell && s.disk.entries[k].id == mem.entries[k].id
      && mem == WithUpdate(s.disk, k, mem.entries[k])
      && (draining ==> DrainedTo(s.disk, m, i) && i < |m.cells| && mem.entries[k].cell == m.cells[i])
      && (!draining ==> plan != [])
    case Resuming(k, previous) =>
      && k < |mem.entries| && mem.entries[k].state.Submitted? && mem.entries[k].resumes != []
      && (previous.EntryFailed? || previous.EntryCanceled?)
  }

  ghost predicate SysOk(s: Sys, m: Manifest) {
    && LedgerOk(s.disk, s.app, m)
    && (s.proc.Some? ==>
         && LedgerOk(s.proc.value.mem, s.app, m) && (!s.proc.value.pc.Judged? ==> s.proc.value.mem == s.disk)
         && PcOk(s, m))
  }

  // ---- Ledger changes keep the ledger in order -------------------------------------------

  lemma KnownInApp(l: LedgerData, app: App, m: Manifest)
    requires LedgerOk(l, app, m)
    ensures forall e :: e in KnownIds(l) ==> e in app.db.jobs
  {
    forall e | e in KnownIds(l) ensures e in app.db.jobs {
      if e in IdsOf(l) {
        var i :| 0 <= i < |l.entries| && l.entries[i].id == Some(e);
        assert EntryOk(l.entries[i], app, m);
      } else {
        var i :| 0 <= i < |l.disowned| && l.disowned[i] == e;
        assert l.disowned[i] in l.disowned;
      }
    }
  }

  lemma EvolvesOk(l: LedgerData, a: App, b: App, m: Manifest)
    requires LedgerOk(l, a, m) && Evolves(a, b)
    ensures LedgerOk(l, b, m)
  {
    forall i | 0 <= i < |l.entries| ensures EntryOk(l.entries[i], b, m) {
      assert EntryOk(l.entries[i], a, m);
      if l.entries[i].id.Some? {
        var id: EvalId := l.entries[i].id.value;
        assert id in b.db.jobs;
      }
    }
  }

  /** Replacing an entry by one with the same cell, the same or a new campaign-named id, that is in flight only if it was. */
  lemma UpdateOk(l: LedgerData, app: App, m: Manifest, k: nat, entry: Entry)
    requires LedgerOk(l, app, m) && k < |l.entries| && entry.cell == l.entries[k].cell && EntryOk(entry, app, m)
    requires Active(entry) ==> Active(l.entries[k])
    requires entry.id == l.entries[k].id || (entry.id.Some? && entry.id.value !in KnownIds(l))
    requires InFlight(entry) ==> InFlight(l.entries[k]) || NothingInFlight(l)
    ensures LedgerOk(WithUpdate(l, k, entry), app, m)
  {
    UpdateKeeps(l, k, entry);
    hide LedgerInv;
    var t := WithUpdate(l, k, entry);
    forall i, j | 0 <= i < j < |t.entries| ensures !InFlight(t.entries[i]) || !InFlight(t.entries[j]) {
      assert !InFlight(l.entries[i]) || !InFlight(l.entries[j]);
    }
  }

  lemma NewOk(l: LedgerData, app: App, m: Manifest, entry: Entry)
    requires LedgerOk(l, app, m) && EntryOk(entry, app, m) && entry.id.None? && FirstActive(l.entries, entry.cell).None? && NothingInFlight(l)
    ensures LedgerOk(WithEntry(l, entry), app, m)
  {
    forall i ensures !IsActiveFor(l, i, entry.cell) {}
    NewEntryKeeps(l, entry);
  }

  lemma RemoveOk(l: LedgerData, app: App, m: Manifest, k: nat)
    requires LedgerOk(l, app, m) && k < |l.entries| && l.entries[k].id.None?
    ensures LedgerOk(WithoutEntry(l, k), app, m)
  {
    RemoveKeeps(l, k);
    hide LedgerInv;
    var t := WithoutEntry(l, k);
    assert forall j :: 0 <= j < |t.entries| ==> t.entries[j] == l.entries[if j < k then j else j + 1];
  }

  lemma DisownOk(l: LedgerData, app: App, m: Manifest, id: EvalId)
    requires LedgerOk(l, app, m) && id !in KnownIds(l) && id in app.db.jobs
    ensures LedgerOk(WithDisowned(l, id), app, m)
  {
    DisownKeeps(l, id);
  }

  /** The active entry of a planned cell is that very cell's. */
  lemma ActiveIsOwn(l: LedgerData, app: App, m: Manifest, cell: Cell, k: nat)
    requires LedgerOk(l, app, m) && ValidManifest(m) && cell in m.cells && FirstActive(l.entries, cell) == Some(k)
    ensures l.entries[k].cell == cell
  {
    assert EntryOk(l.entries[k], app, m);
    var i :| 0 <= i < |m.cells| && m.cells[i] == cell;
    var j :| 0 <= j < |m.cells| && m.cells[j] == l.entries[k].cell;
    assert SameCell(m.cells[i], m.cells[j]);
    assert i == j;
  }

  /** Once the active entry of cell i is not in flight, nothing of cell i is. */
  lemma DrainsOne(l: LedgerData, app: App, m: Manifest, i: nat)
    requires LedgerOk(l, app, m) && ValidManifest(m) && DrainedTo(l, m, i) && i < |m.cells|
    requires FirstActive(l.entries, m.cells[i]).Some? ==> !InFlight(l.entries[FirstActive(l.entries, m.cells[i]).value])
    ensures DrainedTo(l, m, i + 1)
  {
    forall k | 0 <= k < |l.entries| && InFlight(l.entries[k]) ensures l.entries[k].cell !in m.cells[..i + 1] {
      assert m.cells[..i + 1] == m.cells[..i] + [m.cells[i]];
      var f := FirstActive(l.entries, m.cells[i]);
      if l.entries[k].cell == m.cells[i] { OnlyActive(l, k, f.value); }
    }
  }

  lemma OnlyActive(l: LedgerData, k: nat, f: nat)
    requires OneActivePerCell(l.entries) && k < |l.entries| && f < |l.entries|
    requires Active(l.entries[k]) && Active(l.entries[f]) && SameCell(l.entries[k].cell, l.entries[f].cell)
    ensures k == f
  {
  }

  // ---- One lemma per step ----------------------------------------------------------------

  lemma AppMovesOk(s: Sys, m: Manifest, app: App)
    requires SysOk(s, m) && Evolves(s.app, app)
    ensures SysOk(s.(app := app), m)
  {
    EvolvesOk(s.disk, s.app, app, m);
    if s.proc.Some? {
      EvolvesOk(s.proc.value.mem, s.app, app, m);
      var pc := s.proc.value.pc;
      if pc.PostSent? && pc.answer.Created? {
        var id: EvalId := pc.answer.id;
        assert id in s.app.db.jobs;
      }
    }
    hide LedgerOk;
  }

  lemma DrainCellOk(s: Sys, m: Manifest, ref: Reference)
    requires SysOk(s, m) && ValidManifest(m) && Enabled(s, m, ref, DrainCell)
    ensures SysOk(DoDrainCell(s, m), m)
  {
    var l, i := s.proc.value.mem, s.proc.value.pc.i;
    var k := FirstActive(l.entries, m.cells[i]);
    if k.None? {
      DrainsOne(l, s.app, m, i);
    } else {
      ActiveIsOwn(l, s.app, m, m.cells[i], k.value);
      var entry := l.entries[k.value];
      assert EntryOk(entry, s.app, m);
      match entry.state {
        case Submitting => DrainSubmitting(s, m, i, k.value);
        case EntryFailed => DrainHalted(s, m, i, k.value);
        case EntryCanceled => DrainHalted(s, m, i, k.value);
        case Submitted =>
          var settled := entry.(resumes := Settlement.Settled(entry.resumes, EventsOf(s.app, entry)));
          UpdateOk(l, s.app, m, k.value, settled);
          hide LedgerOk;
        case _ => DrainsOne(l, s.app, m, i);
      }
    }
  }

  lemma DrainSubmitting(s: Sys, m: Manifest, i: nat, k: nat)
    requires SysOk(s, m) && ValidManifest(m) && s.proc.Some? && s.proc.value.pc.Drain? && s.proc.value.pc.i == i < |m.cells|
    requires FirstActive(s.proc.value.mem.entries, m.cells[i]) == Some(k) && EntryIs(s.proc.value.mem, k, Submitting, m.cells[i])
    ensures SysOk(DoDrainCell(s, m), m)
  {
    var l := s.proc.value.mem;
    var found := Candidates(s.app, l, m.cells[i]);
    if found == {} {
      NotCreated(l, s.app, m, i, k);
    } else if |found| == 1 {
      Adopted(l, s.app, m, i, k, TheOnly(found));
    }
    hide LedgerOk, Candidates;
  }

  lemma NotCreated(l: LedgerData, app: App, m: Manifest, i: nat, k: nat)
    requires LedgerOk(l, app, m) && DrainedTo(l, m, i) && i < |m.cells| && EntryIs(l, k, Submitting, m.cells[i])
    ensures LedgerOk(WithoutEntry(l, k), app, m) && DrainedTo(WithoutEntry(l, k), m, i + 1)
  {
    assert EntryOk(l.entries[k], app, m);
    RemoveOk(l, app, m, k);
    RemovedIsDrained(l, app, m, i, k);
  }

  lemma Adopted(l: LedgerData, app: App, m: Manifest, i: nat, k: nat, id: EvalId)
    requires LedgerOk(l, app, m) && DrainedTo(l, m, i) && i < |m.cells| && EntryIs(l, k, Submitting, m.cells[i])
    requires Candidates(app, l, m.cells[i]) == {id}
    ensures var t := WithUpdate(l, k, l.entries[k].(id := Some(id), state := Submitted));
            LedgerOk(t, app, m) && DrainedTo(t, m, i) && EntryIs(t, k, Submitted, m.cells[i])
  {
    var adopted := l.entries[k].(id := Some(id), state := Submitted);
    assert id in Candidates(app, l, m.cells[i]);
    assert EntryOk(l.entries[k], app, m);
    UpdateOk(l, app, m, k, adopted);
    hide LedgerOk;
    var t := WithUpdate(l, k, adopted);
    forall j | 0 <= j < |t.entries| && InFlight(t.entries[j]) ensures t.entries[j].cell !in m.cells[..i] {
      assert InFlight(l.entries[j]) && t.entries[j].cell == l.entries[j].cell;
    }
  }

  lemma RemovedIsDrained(l: LedgerData, app: App, m: Manifest, i: nat, k: nat)
    requires LedgerOk(l, app, m) && DrainedTo(l, m, i) && i < |m.cells| && EntryIs(l, k, Submitting, m.cells[i])
    ensures DrainedTo(WithoutEntry(l, k), m, i + 1)
  {
    var t := WithoutEntry(l, k);
    assert InFlight(l.entries[k]);
    forall j | 0 <= j < |t.entries| ensures !InFlight(t.entries[j]) {
      var q := if j < k then j else j + 1;
      assert t.entries[j] == l.entries[q];
    }
  }

  lemma DrainHalted(s: Sys, m: Manifest, i: nat, k: nat)
    requires SysOk(s, m) && ValidManifest(m) && s.proc.Some? && s.proc.value.pc.Drain? && s.proc.value.pc.i == i < |m.cells|
    requires FirstActive(s.proc.value.mem.entries, m.cells[i]) == Some(k)
    requires s.proc.value.mem.entries[k].state.EntryFailed? || s.proc.value.mem.entries[k].state.EntryCanceled?
    ensures SysOk(DoDrainCell(s, m), m)
  {
    var l := s.proc.value.mem;
    assert EntryOk(l.entries[k], s.app, m);
    if ExternallyResumed(s.app, l.entries[k]) {
      UpdateOk(l, s.app, m, k, l.entries[k].(state := Rejected));
    } else {
      DrainsOne(l, s.app, m, i);
    }
  }

  lemma DrainDoneOk(s: Sys, m: Manifest)
    requires SysOk(s, m) && s.proc.Some? && s.proc.value.pc.Drain? && s.proc.value.pc.i == |m.cells|
    ensures SysOk(Goto(s, Planning(s.proc.value.pc.plan)), m)
  {
    var l := s.proc.value.mem;
    assert m.cells[..|m.cells|] == m.cells;
    forall k | 0 <= k < |l.entries| ensures !InFlight(l.entries[k]) { assert EntryOk(l.entries[k], s.app, m); }
  }

  lemma PlanCellOk(s: Sys, m: Manifest, ref: Reference)
    requires SysOk(s, m) && PlannedOk(s, m) && ValidManifest(m) && Enabled(s, m, ref, PlanCell)
    ensures SysOk(DoPlanCell(s), m)
  {
    var l, plan := s.proc.value.mem, s.proc.value.pc.plan;
    var k := FirstActive(l.entries, plan[0]);
    if k.Some? {
      ActiveIsOwn(l, s.app, m, plan[0], k.value);
      assert !InFlight(l.entries[k.value]);
    }
    hide LedgerOk;
  }

  /** Every planned cell is one of the manifest's. */
  predicate PlannedOk(s: Sys, m: Manifest) {
    s.proc.Some? && !s.proc.value.pc.Resuming? ==> forall c :: c in s.proc.value.pc.plan ==> c in m.cells
  }

  lemma SaveIntentOk(s: Sys, m: Manifest, facts: Facts)
    requires SysOk(s, m) && PlannedOk(s, m) && ValidManifest(m)
    requires s.proc.Some? && s.proc.value.pc.AppTracked? && s.proc.value.pc.plan != []
    ensures SysOk(DoSaveIntent(s, facts), m)
  {
    var l, plan := s.proc.value.mem, s.proc.value.pc.plan;
    NewOk(l, s.app, m, FreshEntry(plan[0]).(facts := facts));
    hide LedgerOk;
  }

  lemma PostOk(s: Sys, m: Manifest, ref: Reference, answer: Answer, after: App)
    requires SysOk(s, m) && Enabled(s, m, ref, Post(answer, after))
    ensures SysOk(Step(s, m, ref, Post(answer, after)), m)
  {
    EvolvesOk(s.disk, s.app, after, m);
    EvolvesOk(s.proc.value.mem, s.app, after, m);
    KnownInApp(s.disk, s.app, m);
    if answer.Created? {
      var id: EvalId := answer.id;
      assert id !in s.app.db.jobs;
    }
    hide LedgerOk;
  }

  lemma RecordOk(s: Sys, m: Manifest)
    requires SysOk(s, m) && s.proc.Some? && s.proc.value.pc.PostSent? && s.proc.value.pc.k < |s.proc.value.mem.entries|
    ensures SysOk(DoRecord(s), m)
  {
    var l, k := s.proc.value.mem, s.proc.value.pc.k;
    assert EntryOk(l.entries[k], s.app, m);
    match s.proc.value.pc.answer {
      case NoAnswer =>
      case RefusedByApp => RemoveOk(l, s.app, m, k);
      case Created(id, asAsked) =>
        var made: EvalId := id;
        assert made in s.app.db.jobs;
        UpdateOk(l, s.app, m, k, l.entries[k].(id := Some(id), state := if asAsked then Submitted else Rejected));
    }
    hide LedgerOk;
  }

  lemma StillDrained(l: LedgerData, m: Manifest, i: nat, k: nat, entry: Entry)
    requires DrainedTo(l, m, i) && k < |l.entries| && InFlight(l.entries[k]) && entry.cell == l.entries[k].cell
    ensures DrainedTo(WithUpdate(l, k, entry), m, i)
  {
    var t := WithUpdate(l, k, entry);
    forall j | 0 <= j < |t.entries| && InFlight(t.entries[j]) ensures t.entries[j].cell !in m.cells[..i] {
      assert InFlight(l.entries[j]) && t.entries[j].cell == l.entries[j].cell;
    }
  }

  lemma WatchOk(s: Sys, m: Manifest, concurrency: bool, identity: bool)
    requires SysOk(s, m) && Waiting(s)
    ensures SysOk(DoWatch(s, concurrency, identity), m)
  {
    var l, pc := s.proc.value.mem, s.proc.value.pc;
    assert EntryOk(l.entries[pc.k], s.app, m);
    var entry := DoWatch(s, concurrency, identity).proc.value.mem.entries[pc.k];
    UpdateOk(l, s.app, m, pc.k, entry);
    hide LedgerOk;
    if pc.DrainWait? { StillDrained(l, m, pc.i, pc.k, entry); }
  }

  lemma FinalizedKeepsIdentity(app: App, m: Manifest, entry: Entry, ref: Reference, checkCode: bool, x: Ending)
    requires Ended(app, entry)
    ensures var f := Finalized(app, m, entry, ref, checkCode, x);
      && f.cell == entry.cell && f.id == entry.id && f.resumes == entry.resumes
      && (f.state.Accepted? || f.state.Rejected? || f.state.NeedsAttention? || f.state.EntryFailed? || f.state.EntryCanceled?)
  {
  }

  lemma FinalizeOk(s: Sys, m: Manifest, ref: Reference, x: Ending)
    requires SysOk(s, m) && Waiting(s) && Ended(s.app, s.proc.value.mem.entries[s.proc.value.pc.k])
    ensures SysOk(DoFinalize(s, m, ref, x), m)
  {
    var l, pc := s.proc.value.mem, s.proc.value.pc;
    var entry := Finalized(s.app, m, l.entries[pc.k], ref, s.proc.value.checkCode, x);
    FinalizedKeepsIdentity(s.app, m, l.entries[pc.k], ref, s.proc.value.checkCode, x);
    assert EntryOk(l.entries[pc.k], s.app, m);
    UpdateOk(l, s.app, m, pc.k, entry);
    hide LedgerOk, Finalized;
  }

  lemma AssessOk(s: Sys, m: Manifest, ref: Reference)
    requires SysOk(s, m) && ValidManifest(m) && Enabled(s, m, ref, Assess)
    ensures SysOk(DoAssess(s, m, ref), m)
  {
    hide Acceptable;
    var l, pc := s.proc.value.mem, s.proc.value.pc;
    var entry := l.entries[pc.k];
    assert EntryOk(entry, s.app, m);
    if Acceptable(s.app, m, entry.cell, entry, ref) {
      NothingLeftInFlight(s.disk, l, pc.k, entry);
    } else {
      UpdateOk(l, s.app, m, pc.k, entry.(state := Rejected));
    }
    hide LedgerOk;
  }

  /** The one entry in flight was marked succeeded. */
  lemma NothingLeftInFlight(disk: LedgerData, mem: LedgerData, k: nat, entry: Entry)
    requires OneInFlight(disk) && k < |disk.entries| && disk.entries[k].state.Submitted? && entry.state.Accepted?
    requires mem == WithUpdate(disk, k, entry)
    ensures NothingInFlight(mem)
  {
    assert InFlight(disk.entries[k]);
    forall j | 0 <= j < |mem.entries| ensures !InFlight(mem.entries[j]) {
      if j != k { assert mem.entries[j] == disk.entries[j]; }
    }
  }

  lemma SupersedeOk(s: Sys, m: Manifest, ref: Reference, cell: Cell)
    requires SysOk(s, m) && CanSupersede(s, m, ref, cell)
    ensures SysOk(DoSupersede(s, m, ref, cell), m)
  {
    hide Acceptable;
    var k := FirstActive(s.disk.entries, cell).value;
    var entry := s.disk.entries[k];
    assert EntryOk(entry, s.app, m);
    UpdateOk(s.disk, s.app, m, k, SupersededEntry(entry, if RefusedByValidator(s.app, m, entry, ref) then 1 else 0));
  }

  lemma ResumeIntentOk(s: Sys, m: Manifest, k: nat, checkCode: bool, warmedUp: bool, at: Time)
    requires SysOk(s, m) && CanResumeCell(s, m, k)
    ensures SysOk(DoResumeIntent(s, m, k, checkCode, warmedUp, at), m)
  {
    var entry := s.disk.entries[k];
    assert EntryOk(entry, s.app, m);
    if ExternallyResumed(s.app, entry) {
      UpdateOk(s.disk, s.app, m, k, entry.(state := Rejected));
    } else if NothingInFlight(s.disk) && ActiveEvaluations(s.app) == {} {
      UpdateOk(s.disk, s.app, m, k,
               entry.(state := Submitted, resumes := entry.resumes + [Resume(Some(at), checkCode, warmedUp, Requested)]));
    }
    hide LedgerOk;
  }

  lemma ResumeAnswerOk(s: Sys, m: Manifest, ref: Reference, outcome: ResumeOutcome, after: App)
    requires SysOk(s, m) && Enabled(s, m, ref, ResumeAnswer(outcome, after))
    ensures SysOk(Step(s, m, ref, ResumeAnswer(outcome, after)), m)
  {
    var l, k := s.proc.value.mem, s.proc.value.pc.k;
    assert EntryOk(l.entries[k], s.app, m);
    var t := DoResumeAnswer(s, outcome);
    UpdateOk(l, s.app, m, k, t.disk.entries[k]);
    EvolvesOk(t.disk, s.app, after, m);
    hide LedgerOk;
  }

  predicate IsCheck(a: Action) {
    a.Launch? || a.CheckUntracked? || a.CheckIdle? || a.CheckTracked? || a.Stop? || a.Crash?
  }

  lemma CheckOk(s: Sys, m: Manifest, ref: Reference, a: Action)
    requires SysOk(s, m) && Enabled(s, m, ref, a) && IsCheck(a)
    ensures SysOk(Step(s, m, ref, a), m)
  {
    hide LedgerOk, AnyBad;
    assert m.cells[..0] == [];
  }

  predicate IsOperator(a: Action) {
    a.AppMoves? || a.Supersede? || a.Disown? || a.ResumeIntent? || a.ResumeAnswer?
  }

  lemma OperatorOk(s: Sys, m: Manifest, ref: Reference, a: Action)
    requires SysOk(s, m) && Enabled(s, m, ref, a) && IsOperator(a)
    ensures SysOk(Step(s, m, ref, a), m)
  {
    match a {
      case AppMoves(app) => AppMovesOk(s, m, app);
      case Supersede(cell) => SupersedeOk(s, m, ref, cell);
      case Disown(id) => DisownOk(s.disk, s.app, m, id);
      case ResumeIntent(k, checkCode, warmedUp, at) => ResumeIntentOk(s, m, k, checkCode, warmedUp, at);
      case ResumeAnswer(outcome, after) => ResumeAnswerOk(s, m, ref, outcome, after);
    }
  }

  lemma StepOk(s: Sys, m: Manifest, ref: Reference, a: Action)
    requires SysOk(s, m) && PlannedOk(s, m) && ValidManifest(m) && Enabled(s, m, ref, a)
    ensures SysOk(Step(s, m, ref, a), m)
  {
    if IsCheck(a) {
      CheckOk(s, m, ref, a);
    } else if IsOperator(a) {
      OperatorOk(s, m, ref, a);
    } else {
      match a {
        case DrainCell => DrainCellOk(s, m, ref);
        case DrainDone => DrainDoneOk(s, m);
        case PlanCell => PlanCellOk(s, m, ref);
        case SaveIntent(facts) => SaveIntentOk(s, m, facts);
        case Post(answer, after) => PostOk(s, m, ref, answer, after);
        case Record => RecordOk(s, m);
        case Watch(concurrency, identity) => WatchOk(s, m, concurrency, identity);
        case Finalize(x) => FinalizeOk(s, m, ref, x);
        case Assess => AssessOk(s, m, ref);
      }
    }
  }

  lemma PlannedStep(s: Sys, m: Manifest, ref: Reference, a: Action)
    requires PlannedOk(s, m) && Enabled(s, m, ref, a)
    ensures PlannedOk(Step(s, m, ref, a), m)
  {
    hide Acceptable, Finalized, AnyBad, Candidates;
  }

  lemma InitOk(s: Sys, m: Manifest)
    requires Init(s)
    ensures SysOk(s, m) && PlannedOk(s, m)
  {
    assert IdsOf(s.disk) == {};
  }

  lemma {:induction false} RunOk(trace: Trace, m: Manifest, ref: Reference, n: nat)
    requires ValidManifest(m) && IsRun(trace, m, ref) && n < |trace.states|
    ensures SysOk(trace.states[n], m) && PlannedOk(trace.states[n], m)
  {
    if n == 0 {
      InitOk(trace.states[0], m);
    } else {
      RunOk(trace, m, ref, n - 1);
      StepOk(trace.states[n - 1], m, ref, trace.actions[n - 1]);
      PlannedStep(trace.states[n - 1], m, ref, trace.actions[n - 1]);
    }
  }
}
