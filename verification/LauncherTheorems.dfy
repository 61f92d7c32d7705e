/** What the campaign tooling guarantees over whole runs, crashes at any point included. */
module LauncherTheorems {
  import opened Wrappers
  import opened Tables
  import opened Campaign
  import opened Cohort
  import opened Acceptance
  import opened LedgerStore
  import opened LauncherProtocol
  import opened LauncherSafety
  import Settlement

  // ---- The saved ledger ------------------------------------------------------------------

  /** In every state the saved ledger has one active entry per cell, no evaluation owned twice or both owned and disowned,
      at most one evaluation in flight, and every owned evaluation exists under its cell's campaign name. */
  lemma SavedLedgerIsInOrder(trace: Trace, m: Manifest, ref: Reference, n: nat)
    requires ValidManifest(m) && IsRun(trace, m, ref) && n < |trace.states|
    ensures var l, app := trace.states[n].disk, trace.states[n].app;
      && LedgerInv(l) && OneInFlight(l)
      && (forall k: nat :: k < |l.entries| && l.entries[k].id.Some? ==>
           && l.entries[k].id.value in app.db.jobs && app.db.jobs[l.entries[k].id.value].name == NameOf(l.entries[k].cell))
  {
    RunOk(trace, m, ref, n);
    var s := trace.states[n];
    forall k: nat | k < |s.disk.entries| && s.disk.entries[k].id.Some?
      ensures s.disk.entries[k].id.value in s.app.db.jobs && s.app.db.jobs[s.disk.entries[k].id.value].name == NameOf(s.disk.entries[k].cell)
    {
      assert EntryOk(s.disk.entries[k], s.app, m);
    }
  }

  // ---- What was checked before a POST ----------------------------------------------------

  predicate BetweenChecks(a: Action) {
    a.AppMoves? || a.CheckTracked? || a.SaveIntent?
  }

  /** Since step i found no evaluation queued or running, only checks, the intent and the application itself have moved. */
  ghost predicate IdleSince(trace: Trace, i: nat, n: nat)
    requires n < |trace.states| == |trace.actions| + 1
  {
    && i < n && trace.actions[i].CheckIdle? && ActiveEvaluations(trace.states[i].app) == {}
    && forall k :: i < k < n ==> BetweenChecks(trace.actions[k])
  }

  ghost predicate TrackedSince(trace: Trace, i: nat, j: nat, n: nat)
    requires n < |trace.states| == |trace.actions| + 1
  {
    && IdleSince(trace, i, n) && i < j < n && trace.actions[j].CheckTracked?
    && Named(trace.states[j].app) <= KnownIds(trace.states[n].disk)
  }

  lemma CheckedStep(s: Sys, m: Manifest, ref: Reference, a: Action)
    requires SysOk(s, m) && Enabled(s, m, ref, a)
    ensures var t := Step(s, m, ref, a);
      && (t.proc.Some? && t.proc.value.pc.AppIdle? ==>
           (a.CheckIdle? && ActiveEvaluations(s.app) == {}) || (a.AppMoves? && s.proc.Some? && s.proc.value.pc.AppIdle?))
      && (t.proc.Some? && t.proc.value.pc.AppTracked? ==>
           t.disk == s.disk && s.proc.Some?
           && ((a.CheckTracked? && s.proc.value.pc.AppIdle? && !AnyBad(s.app, s.proc.value.mem))
               || (a.AppMoves? && s.proc.value.pc.AppTracked?)))
      && (t.proc.Some? && t.proc.value.pc.IntentSaved? ==>
           s.proc.Some?
           && ((a.SaveIntent? && s.proc.value.pc.AppTracked?)
               || (a.AppMoves? && t.disk == s.disk && s.proc.value.pc.IntentSaved?)))
  {
    hide SysOk, AnyBad, Finalized, Acceptable, Candidates;
  }

  /** With nothing in flight no intent excuses an untracked evaluation. */
  lemma NoneUntracked(app: App, l: LedgerData)
    requires NothingInFlight(l) && !AnyBad(app, l)
    ensures Named(app) <= KnownIds(l)
  {
    assert forall i :: 0 <= i < |l.entries| ==> !InFlight(l.entries[i]);
    forall e: EvalId | e in Named(app) ensures e in KnownIds(l) {
      assert !SubmittingFor(l, app.db.jobs[e].name);
      assert e in Untracked(app, l) ==> Bad(app, l, e);
    }
  }

  lemma IntentKeepsKnown(s: Sys, m: Manifest, ref: Reference, a: Action)
    requires SysOk(s, m) && Enabled(s, m, ref, a) && a.SaveIntent?
    ensures KnownIds(Step(s, m, ref, a).disk) == KnownIds(s.disk)
  {
    var l := s.proc.value.mem;
    forall i ensures !IsActiveFor(l, i, s.proc.value.pc.plan[0]) {}
    NewEntryKeeps(l, FreshEntry(s.proc.value.pc.plan[0]).(facts := a.facts));
  }

  ghost predicate SomeIdle(trace: Trace, n: nat)
    requires n < |trace.states| == |trace.actions| + 1
  {
    exists i :: IdleSince(trace, i, n)
  }

  ghost predicate SomeTracked(trace: Trace, n: nat)
    requires n < |trace.states| == |trace.actions| + 1
  {
    exists i, j :: TrackedSince(trace, i, j, n)
  }

  lemma IdleLonger(trace: Trace, n: nat)
    requires n + 1 < |trace.states| == |trace.actions| + 1 && SomeIdle(trace, n) && BetweenChecks(trace.actions[n])
    ensures SomeIdle(trace, n + 1)
  {
    var i :| IdleSince(trace, i, n);
    assert IdleSince(trace, i, n + 1);
  }

  lemma TrackedLonger(trace: Trace, n: nat)
    requires n + 1 < |trace.states| == |trace.actions| + 1 && SomeTracked(trace, n) && BetweenChecks(trace.actions[n])
    requires KnownIds(trace.states[n + 1].disk) == KnownIds(trace.states[n].disk)
    ensures SomeTracked(trace, n + 1)
  {
    var i, j :| TrackedSince(trace, i, j, n);
    assert IdleSince(trace, i, n + 1);
    assert TrackedSince(trace, i, j, n + 1);
  }

  lemma TrackedNow(trace: Trace, n: nat)
    requires n + 1 < |trace.states| == |trace.actions| + 1 && SomeIdle(trace, n) && trace.actions[n].CheckTracked?
    requires Named(trace.states[n].app) <= KnownIds(trace.states[n + 1].disk)
    ensures SomeTracked(trace, n + 1)
  {
    var i :| IdleSince(trace, i, n);
    assert IdleSince(trace, i, n + 1);
    assert TrackedSince(trace, i, n, n + 1);
  }

  lemma {:induction false} Checked(trace: Trace, m: Manifest, ref: Reference, n: nat)
    requires ValidManifest(m) && IsRun(trace, m, ref) && n < |trace.states| && trace.states[n].proc.Some?
    ensures trace.states[n].proc.value.pc.AppIdle? ==> SomeIdle(trace, n)
    ensures trace.states[n].proc.value.pc.AppTracked? || trace.states[n].proc.value.pc.IntentSaved? ==> SomeTracked(trace, n)
  {
    hide Step, Enabled, LedgerOk, AnyBad, SomeIdle, SomeTracked;
    if n > 0 {
      var s, a := trace.states[n - 1], trace.actions[n - 1];
      RunOk(trace, m, ref, n - 1);
      CheckedStep(s, m, ref, a);
      if s.proc.Some? { Checked(trace, m, ref, n - 1); }
      if a.SaveIntent? { IntentKeepsKnown(s, m, ref, a); }
      var pc := trace.states[n].proc.value.pc;
      if pc.AppIdle? {
        if a.CheckIdle? { IdleNow(trace, n - 1); } else { IdleLonger(trace, n - 1); }
      } else if pc.AppTracked? && a.CheckTracked? {
        NoneUntracked(s.app, s.proc.value.mem);
        TrackedNow(trace, n - 1);
      } else if pc.AppTracked? || pc.IntentSaved? {
        TrackedLonger(trace, n - 1);
      }
    }
  }

  lemma IdleNow(trace: Trace, n: nat)
    requires n + 1 < |trace.states| == |trace.actions| + 1
    requires trace.actions[n].CheckIdle? && ActiveEvaluations(trace.states[n].app) == {}
    ensures SomeIdle(trace, n + 1)
  {
    assert IdleSince(trace, n, n + 1);
  }

  /** At every POST: in this same attempt the application was seen with no evaluation queued or running, and then with every
      campaign-named evaluation owned or disowned. */
  lemma PostIsChecked(trace: Trace, m: Manifest, ref: Reference, n: nat)
    requires ValidManifest(m) && IsRun(trace, m, ref) && n < |trace.actions| && trace.actions[n].Post?
    ensures exists i, j :: TrackedSince(trace, i, j, n)
  {
    Checked(trace, m, ref, n);
  }

  lemma EvolvingStep(s: Sys, m: Manifest, ref: Reference, a: Action)
    requires Enabled(s, m, ref, a)
    ensures Evolves(s.app, Step(s, m, ref, a).app)
  {
    hide Finalized, Acceptable, Candidates, AnyBad;
  }

  lemma {:induction false} NamesLast(trace: Trace, m: Manifest, ref: Reference, i: nat, j: nat, e: EvalId)
    requires IsRun(trace, m, ref) && i <= j < |trace.states| && e in Named(trace.states[i].app)
    ensures e in Named(trace.states[j].app)
  {
    hide Step, Enabled;
    if i < j {
      NamesLast(trace, m, ref, i, j - 1, e);
      EvolvingStep(trace.states[j - 1], m, ref, trace.actions[j - 1]);
      assert e in trace.states[j - 1].app.db.jobs;
    }
  }

  /** Whatever an earlier POST created - its answer recorded, lost in a crash, or never seen - is owned or disowned before
      any later POST; and so is every other evaluation that carries the campaign's name by then. */
  lemma NothingIsLostBetweenPosts(trace: Trace, m: Manifest, ref: Reference, n: nat, p: nat, e: EvalId)
    requires ValidManifest(m) && IsRun(trace, m, ref) && n < p < |trace.actions| && trace.actions[n].Post? && trace.actions[p].Post?
    requires e in Named(trace.states[n + 1].app)
    ensures e in KnownIds(trace.states[p].disk)
  {
    PostIsChecked(trace, m, ref, p);
    var i, j :| TrackedSince(trace, i, j, p);
    assert n < i;
    NamesLast(trace, m, ref, n + 1, j, e);
  }

  // ---- What a restart does with a saved intent -------------------------------------------

  ghost predicate AdoptedAs(s: Sys, t: Sys, cell: Cell, k: nat, e: EvalId)
    requires k < |s.disk.entries|
  {
    && e in s.app.db.jobs && s.app.db.jobs[e].name == NameOf(cell)
    && t.disk == WithUpdate(s.disk, k, s.disk.entries[k].(id := Some(e), state := Submitted))
  }

  /** The next launch decides a 'submitting' entry by the evaluations that carry its cell's name and nobody knows: exactly one
      is adopted, none means the entry is withdrawn, several halt the launch with the ledger as it was. */
  lemma IntentIsReconciled(s: Sys, m: Manifest, ref: Reference, k: nat)
    requires SysOk(s, m) && ValidManifest(m) && Enabled(s, m, ref, DrainCell)
    requires FirstActive(s.disk.entries, m.cells[s.proc.value.pc.i]) == Some(k) && s.disk.entries[k].state.Submitting?
    ensures var i := s.proc.value.pc.i;
      var t, found := Step(s, m, ref, DrainCell), Candidates(s.app, s.disk, m.cells[i]);
      && (|found| == 1 ==> t.proc.Some? && exists e :: AdoptedAs(s, t, m.cells[i], k, e) && found == {e})
      && (found == {} ==> t.disk == WithoutEntry(s.disk, k) && DrainedTo(t.disk, m, i + 1) && t.proc.Some?)
      && (|found| > 1 ==> t.disk == s.disk && t.proc.None?)
  {
    var i := s.proc.value.pc.i;
    var found := Candidates(s.app, s.disk, m.cells[i]);
    DrainCellOk(s, m, ref);
    if |found| == 1 {
      var e: EvalId := TheOnly(found);
      assert e in found && AdoptedAs(s, Step(s, m, ref, DrainCell), m.cells[i], k, e);
    }
  }

  /** No intent is pending when the next cell is submitted, so no untracked evaluation is ever excused then. */
  lemma NoIntentWhilePlanning(trace: Trace, m: Manifest, ref: Reference, n: nat)
    requires ValidManifest(m) && IsRun(trace, m, ref) && n < |trace.states| && trace.states[n].proc.Some?
    requires var pc := trace.states[n].proc.value.pc; pc.Planning? || pc.AppIdle? || pc.AppTracked?
    ensures NothingInFlight(trace.states[n].disk)
  {
    RunOk(trace, m, ref, n);
  }

  // ---- No cherry-picking -----------------------------------------------------------------

  ghost predicate AcceptedStay(l: LedgerData, t: LedgerData) {
    forall e :: e in l.entries && e.state.Accepted? ==> e in t.entries
  }

  ghost predicate NoneNewlyAccepted(l: LedgerData, t: LedgerData) {
    forall e :: e in t.entries && e.state.Accepted? ==> e in l.entries
  }

  lemma UpdateAccepted(l: LedgerData, k: nat, entry: Entry)
    requires k < |l.entries|
    ensures !l.entries[k].state.Accepted? ==> AcceptedStay(l, WithUpdate(l, k, entry))
    ensures !entry.state.Accepted? ==> NoneNewlyAccepted(l, WithUpdate(l, k, entry))
    ensures forall e :: e in l.entries && e != l.entries[k] ==> e in WithUpdate(l, k, entry).entries
    ensures entry in WithUpdate(l, k, entry).entries
  {
    var t := WithUpdate(l, k, entry);
    assert t.entries[k] == entry;
    forall e | e in l.entries && e != l.entries[k] ensures e in t.entries {
      var j :| 0 <= j < |l.entries| && l.entries[j] == e;
      assert t.entries[j] == e;
    }
  }

  lemma RemoveAccepted(l: LedgerData, k: nat)
    requires k < |l.entries| && !l.entries[k].state.Accepted?
    ensures AcceptedStay(l, WithoutEntry(l, k)) && NoneNewlyAccepted(l, WithoutEntry(l, k))
  {
    var t := WithoutEntry(l, k);
    forall e | e in l.entries && e.state.Accepted? ensures e in t.entries {
      var j :| 0 <= j < |l.entries| && l.entries[j] == e;
      assert t.entries[if j < k then j else j - 1] == e;
    }
  }

  predicate TouchesNoAccepted(a: Action) {
    !a.Assess? && !a.Supersede?
  }

  lemma DrainAccepted(s: Sys, m: Manifest, ref: Reference)
    requires SysOk(s, m) && Enabled(s, m, ref, DrainCell)
    ensures AcceptedStay(s.disk, DoDrainCell(s, m).disk) && NoneNewlyAccepted(s.disk, DoDrainCell(s, m).disk)
  {
    hide LedgerOk, Candidates, AcceptedStay, NoneNewlyAccepted;
    var l, k := s.disk, FirstActive(s.disk.entries, m.cells[s.proc.value.pc.i]);
    Unchanged(l);
    if k.Some? {
      var entry := l.entries[k.value];
      if entry.state.Submitting? { RemoveAccepted(l, k.value); }
      if !entry.state.Accepted? {
        UpdateAccepted(l, k.value, entry.(state := Rejected));
        UpdateAccepted(l, k.value, entry.(resumes := Settlement.Settled(entry.resumes, EventsOf(s.app, entry))));
        var found := Candidates(s.app, l, m.cells[s.proc.value.pc.i]);
        if found != {} && |found| <= 1 { UpdateAccepted(l, k.value, entry.(id := Some(TheOnly(found)), state := Submitted)); }
      }
    }
  }

  lemma Unchanged(l: LedgerData)
    ensures AcceptedStay(l, l) && NoneNewlyAccepted(l, l)
  {
  }

  lemma OtherAccepted(s: Sys, m: Manifest, ref: Reference, a: Action)
    requires SysOk(s, m) && PlannedOk(s, m) && Enabled(s, m, ref, a) && TouchesNoAccepted(a) && !a.DrainCell?
    ensures AcceptedStay(s.disk, Step(s, m, ref, a).disk) && NoneNewlyAccepted(s.disk, Step(s, m, ref, a).disk)
  {
    hide LedgerOk, Candidates, AnyBad, Acceptable, Finalized, AcceptedStay, NoneNewlyAccepted;
    var l, t := s.disk, Step(s, m, ref, a);
    Unchanged(l);
    match a {
      case SaveIntent(facts) => NewAccepted(l, FreshEntry(s.proc.value.pc.plan[0]).(facts := facts));
      case Record =>
        var k := s.proc.value.pc.k;
        RemoveAccepted(l, k);
        if s.proc.value.pc.answer.Created? {
          UpdateAccepted(l, k, l.entries[k].(id := Some(s.proc.value.pc.answer.id), state := Submitted));
          UpdateAccepted(l, k, l.entries[k].(id := Some(s.proc.value.pc.answer.id), state := Rejected));
        }
      case Watch(_, _) => UpdateAccepted(l, s.proc.value.pc.k, t.disk.entries[s.proc.value.pc.k]);
      case Finalize(x) =>
        var k := s.proc.value.pc.k;
        UpdateAccepted(l, k, Finalized(s.app, m, l.entries[k], ref, s.proc.value.checkCode, x));
      case ResumeIntent(k, checkCode, warmedUp, at) => UpdateAccepted(l, k, t.disk.entries[k]);
      case ResumeAnswer(outcome, after) => UpdateAccepted(l, s.proc.value.pc.k, t.disk.entries[s.proc.value.pc.k]);
      case Disown(id) => DisownAccepted(l, id);
      case _ =>
    }
  }

  lemma NewAccepted(l: LedgerData, entry: Entry)
    requires !entry.state.Accepted?
    ensures AcceptedStay(l, WithEntry(l, entry)) && NoneNewlyAccepted(l, WithEntry(l, entry))
  {
  }

  lemma DisownAccepted(l: LedgerData, id: EvalId)
    ensures AcceptedStay(l, WithDisowned(l, id)) && NoneNewlyAccepted(l, WithDisowned(l, id))
  {
  }

  lemma AssessAccepted(s: Sys, m: Manifest, ref: Reference)
    requires SysOk(s, m) && Enabled(s, m, ref, Assess)
    ensures var t := DoAssess(s, m, ref);
      && AcceptedStay(s.disk, t.disk)
      && forall e :: e in t.disk.entries && e.state.Accepted? ==> e in s.disk.entries || Acceptable(s.app, m, e.cell, e, ref)
  {
    hide LedgerOk, Acceptable;
    var k := s.proc.value.pc.k;
    var entry := s.proc.value.mem.entries[k];
    UpdateAccepted(s.disk, k, entry);
    UpdateAccepted(s.disk, k, entry.(state := Rejected));
    assert WithUpdate(s.proc.value.mem, k, entry.(state := Rejected)) == WithUpdate(s.disk, k, entry.(state := Rejected));
    forall e | e in s.proc.value.mem.entries && e != entry ensures e in s.disk.entries {
      var j :| 0 <= j < |s.proc.value.mem.entries| && s.proc.value.mem.entries[j] == e;
      assert s.disk.entries[j] == e;
    }
  }

  /** One step back: where an accepted entry on disk comes from. */
  lemma AcceptedComesFrom(s: Sys, m: Manifest, ref: Reference, a: Action, e: Entry)
    requires SysOk(s, m) && PlannedOk(s, m) && Enabled(s, m, ref, a)
    requires e in Step(s, m, ref, a).disk.entries && e.state.Accepted?
    ensures e in s.disk.entries || Acceptable(s.app, m, e.cell, e, ref)
  {
    hide LedgerOk, Acceptable, Finalized, AnyBad, Candidates;
    if a.Assess? {
      AssessAccepted(s, m, ref);
    } else if a.Supersede? {
      var k := FirstActive(s.disk.entries, a.cell).value;
      UpdateAccepted(s.disk, k, DoSupersede(s, m, ref, a.cell).disk.entries[k]);
    } else if a.DrainCell? {
      DrainAccepted(s, m, ref);
    } else {
      OtherAccepted(s, m, ref, a);
    }
  }

  /** Every entry saved as succeeded passed the acceptance predicate, on the application's tables of that moment. */
  lemma {:induction false} SucceededWasAccepted(trace: Trace, m: Manifest, ref: Reference, n: nat, e: Entry)
    requires ValidManifest(m) && IsRun(trace, m, ref) && n < |trace.states|
    requires e in trace.states[n].disk.entries && e.state.Accepted?
    ensures exists q :: 0 <= q <= n && Acceptable(trace.states[q].app, m, e.cell, e, ref)
  {
    hide Acceptable, Step, Enabled, SysOk, PlannedOk;
    if n > 0 {
      RunOk(trace, m, ref, n - 1);
      AcceptedComesFrom(trace.states[n - 1], m, ref, trace.actions[n - 1], e);
      if e in trace.states[n - 1].disk.entries { SucceededWasAccepted(trace, m, ref, n - 1, e); }
    }
  }

  /** This step replaces the accepted entry e, and does so because the acceptance predicate refuses it now. */
  ghost predicate ReplacedOnRefusal(s: Sys, t: Sys, m: Manifest, ref: Reference, a: Action, e: Entry) {
    && a.Supersede? && !Acceptable(s.app, m, e.cell, e, ref)
    && SupersededEntry(e, 1) in t.disk.entries && SupersededEntry(e, 1).refusals > 0
  }

  lemma AcceptedLeavesOnlyBy(s: Sys, m: Manifest, ref: Reference, a: Action, e: Entry)
    requires SysOk(s, m) && PlannedOk(s, m) && Enabled(s, m, ref, a) && e in s.disk.entries && e.state.Accepted?
    ensures e in Step(s, m, ref, a).disk.entries || ReplacedOnRefusal(s, Step(s, m, ref, a), m, ref, a, e)
  {
    hide LedgerOk, Acceptable, Finalized, AnyBad, Candidates;
    if a.Assess? {
      AssessAccepted(s, m, ref);
    } else if a.Supersede? {
      var k := FirstActive(s.disk.entries, a.cell).value;
      UpdateAccepted(s.disk, k, DoSupersede(s, m, ref, a.cell).disk.entries[k]);
    } else if a.DrainCell? {
      DrainAccepted(s, m, ref);
    } else {
      OtherAccepted(s, m, ref, a);
    }
  }

  /** No cherry-picking: a succeeded entry stays exactly as it was saved, for good, unless it is superseded at a moment when the
      acceptance predicate refuses it. */
  lemma {:induction false} SucceededIsFinal(trace: Trace, m: Manifest, ref: Reference, i: nat, n: nat, e: Entry)
    requires ValidManifest(m) && IsRun(trace, m, ref) && i <= n < |trace.states|
    requires e in trace.states[i].disk.entries && e.state.Accepted?
    ensures e in trace.states[n].disk.entries
            || exists q :: i <= q < n && ReplacedOnRefusal(trace.states[q], trace.states[q + 1], m, ref, trace.actions[q], e)
  {
    hide ReplacedOnRefusal, Step, Enabled, SysOk, PlannedOk;
    if i < n {
      SucceededIsFinal(trace, m, ref, i, n - 1, e);
      RunOk(trace, m, ref, n - 1);
      if e in trace.states[n - 1].disk.entries {
        AcceptedLeavesOnlyBy(trace.states[n - 1], m, ref, trace.actions[n - 1], e);
      }
    }
  }
}
