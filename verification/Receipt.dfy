/** campaigns/afa_campaign/validate.py: the completeness validator, and what a complete receipt proves. */
module Receipt {
  import opened Wrappers
  import opened Tables
  import opened TableInvariants
  import opened Campaign
  import opened Cohort
  import opened Acceptance
  import opened LedgerStore
  import opened LauncherProtocol
  import LauncherTheorems
  import Protocol
  import Safety

  /** Everything a validation reads; a phase of None means the whole plan. */
  datatype Inputs = Inputs(
    app: Option<App>, ledger: Option<LedgerData>, classified: set<Phase>, phase: Option<Phase>, drift: bool,
    historyChanged: bool, ref: Reference)

  datatype ReceiptProblem =
    | NoLedger | NotBenchmarked | NoDatabase | CellProblem(cell: Cell) | UntrackedEvaluations | StrayEntries
    | TasksChanged | HistoryChanged | UnrealRuns | TooFewModels

  datatype Receipt = Receipt(
    complete: bool, problems: seq<ReceiptProblem>, expectedCells: nat, completeCells: nat, presentRuns: nat, validRuns: nat,
    untracked: set<EvalId>, missing: seq<Cell>)

  // ---- The scope -------------------------------------------------------------------------

  predicate InScope(cell: Cell, x: Inputs) {
    if x.phase.Some? then cell.phase == x.phase.value else cell.phase !in x.classified
  }

  function Scope(cells: seq<Cell>, x: Inputs): (scope: seq<Cell>)
    ensures forall c :: c in scope <==> c in cells && InScope(c, x)
  {
    if cells == [] then []
    else if InScope(cells[0], x) then [cells[0]] + Scope(cells[1..], x)
    else Scope(cells[1..], x)
  }

  function ActiveFor(entries: seq<Entry>, cell: Cell): (active: seq<Entry>)
    ensures forall e :: e in active <==> e in entries && Active(e) && SameCell(e.cell, cell)
  {
    if entries == [] then []
    else if Active(entries[0]) && SameCell(entries[0].cell, cell) then [entries[0]] + ActiveFor(entries[1..], cell)
    else ActiveFor(entries[1..], cell)
  }

  function EntriesOf(x: Inputs): seq<Entry> {
    if x.ledger.Some? then x.ledger.value.entries else []
  }

  function KnownTo(x: Inputs): set<EvalId> {
    if x.ledger.Some? then KnownIds(x.ledger.value) else {}
  }

  function UntrackedOf(x: Inputs): set<EvalId> {
    if x.app.Some? then Named(x.app.value) - KnownTo(x) else {}
  }

  predicate AnyStray(x: Inputs, m: Manifest) {
    exists e :: e in EntriesOf(x) && Active(e) && forall c :: c in m.cells ==> !SameCell(c, e.cell)
  }

  /** The cell's only active entry is accepted evidence. */
  ghost predicate CellDone(x: Inputs, m: Manifest, cell: Cell) {
    && x.app.Some? && |ActiveFor(EntriesOf(x), cell)| == 1
    && Acceptable(x.app.value, m, cell, ActiveFor(EntriesOf(x), cell)[0], x.ref)
  }

  function ModelsIn(cells: seq<Cell>): set<AgentName> {
    set c | c in cells :: c.model
  }

  /** What a complete receipt claims. */
  ghost predicate Complete(x: Inputs, m: Manifest) {
    && x.ledger.Some? && x.app.Some? && !(x.phase.Some? && x.phase.value in x.classified)
    && (forall c :: c in Scope(m.cells, x) ==> CellDone(x, m, c))
    && UntrackedOf(x) == {} && !AnyStray(x, m) && !x.drift && !x.historyChanged
    && (m.sequential && x.phase.None? ==> |ModelsIn(Scope(m.cells, x))| >= m.minimumRanked)
  }

  /** What that means entry by entry: every cell in scope has one unreplaced entry and that entry is evidence; every unreplaced entry
      is for a planned cell; every campaign-named evaluation is owned or disowned. */
  ghost predicate CompleteFor(x: Inputs, m: Manifest) {
    && x.ledger.Some? && x.app.Some? && !x.drift && !x.historyChanged
    && var l, app := x.ledger.value, x.app.value;
    && (forall c :: c in m.cells && Expected(c, x) ==> exists i :: OnlyEntry(l, c, i) && IsEvidence(app, m, c, l.entries[i], x.ref))
    && (forall i :: 0 <= i < |l.entries| && l.entries[i].state != EntryState.Superseded ==>
         exists c :: c in m.cells && c.model == l.entries[i].cell.model && c.task == l.entries[i].cell.task)
    && (forall e :: e in app.db.jobs && !app.db.jobs[e].name.ForeignName? ==>
         e in l.disowned || exists i :: 0 <= i < |l.entries| && l.entries[i].id == Some(e))
    && (m.sequential && x.phase == None ==> |set c | c in m.cells && Expected(c, x) :: c.model| >= m.minimumRanked)
  }

  /** The cell is of the validated phase, or of any phase that is not classified. */
  ghost predicate Expected(cell: Cell, x: Inputs) {
    (x.phase.Some? ==> cell.phase == x.phase.value) && (x.phase == None ==> cell.phase !in x.classified)
  }

  ghost predicate OnlyEntry(l: LedgerData, cell: Cell, i: int) {
    && 0 <= i < |l.entries| && IsFor(l.entries[i], cell)
    && forall j :: 0 <= j < |l.entries| && j != i ==> !IsFor(l.entries[j], cell)
  }

  ghost predicate IsFor(entry: Entry, cell: Cell) {
    entry.state != EntryState.Superseded && entry.cell.model == cell.model && entry.cell.task == cell.task
  }

  lemma {:induction false} ActiveForPlace(entries: seq<Entry>, cell: Cell) returns (i: nat)
    requires |ActiveFor(entries, cell)| == 1
    ensures i < |entries| && entries[i] == ActiveFor(entries, cell)[0] && IsFor(entries[i], cell)
    ensures forall j :: 0 <= j < |entries| && j != i ==> !IsFor(entries[j], cell)
  {
    var rest := entries[1..];
    if Active(entries[0]) && SameCell(entries[0].cell, cell) {
      i := 0;
      NoneActiveFor(rest, cell);
      assert forall j :: 0 < j < |entries| ==> entries[j] == rest[j - 1];
    } else {
      var r := ActiveForPlace(rest, cell);
      i := r + 1;
      assert forall j :: 0 < j < |entries| ==> entries[j] == rest[j - 1];
    }
  }

  lemma NoneActiveFor(entries: seq<Entry>, cell: Cell)
    requires |ActiveFor(entries, cell)| == 0
    ensures forall j :: 0 <= j < |entries| ==> !IsFor(entries[j], cell)
  {
    forall j | 0 <= j < |entries| ensures !IsFor(entries[j], cell) {
      assert entries[j] in entries && entries[j] !in ActiveFor(entries, cell);
    }
  }

  lemma DoneMeans(x: Inputs, m: Manifest, cell: Cell)
    requires x.ledger.Some? && CellDone(x, m, cell)
    ensures exists i :: OnlyEntry(x.ledger.value, cell, i) && IsEvidence(x.app.value, m, cell, x.ledger.value.entries[i], x.ref)
  {
    var i := ActiveForPlace(x.ledger.value.entries, cell);
    AcceptableIsEvidence(x.app.value, m, cell, x.ledger.value.entries[i], x.ref);
    hide IsEvidence, Acceptable;
    assert OnlyEntry(x.ledger.value, cell, i);
  }

  lemma TrackedMeans(l: LedgerData, e: EvalId)
    requires e in KnownIds(l)
    ensures e in l.disowned || exists i :: 0 <= i < |l.entries| && l.entries[i].id == Some(e)
  {
    if e in IdsOf(l) {
      var i :| 0 <= i < |l.entries| && l.entries[i].id.Some? && l.entries[i].id.value == e;
      assert l.entries[i].id == Some(e);
    } else {
      var i :| 0 <= i < |l.disowned| && l.disowned[i] == e;
    }
  }

  lemma ScopeModels(x: Inputs, m: Manifest)
    ensures ModelsIn(Scope(m.cells, x)) == set c | c in m.cells && Expected(c, x) :: c.model
  {
    forall a: AgentName | a in ModelsIn(Scope(m.cells, x)) ensures exists c :: c in m.cells && Expected(c, x) && c.model == a {
      var c :| c in Scope(m.cells, x) && c.model == a;
    }
    forall c | c in m.cells && Expected(c, x) ensures c.model in ModelsIn(Scope(m.cells, x)) { assert c in Scope(m.cells, x); }
  }

  lemma StrayMeans(x: Inputs, m: Manifest, i: nat)
    requires x.ledger.Some? && !AnyStray(x, m) && i < |x.ledger.value.entries| && x.ledger.value.entries[i].state != EntryState.Superseded
    ensures var entry := x.ledger.value.entries[i]; exists c :: c in m.cells && c.model == entry.cell.model && c.task == entry.cell.task
  {
    assert x.ledger.value.entries[i] in EntriesOf(x);
    var c :| c in m.cells && SameCell(c, x.ledger.value.entries[i].cell);
  }

  lemma CompleteMeans(x: Inputs, m: Manifest)
    requires Complete(x, m)
    ensures CompleteFor(x, m)
  {
    var l, app := x.ledger.value, x.app.value;
    AllTracked(x);
    ScopeModels(x, m);
    hide IsEvidence, Acceptable, CellDone, AnyStray, KnownIds, OnlyEntry;
    forall c | c in m.cells && Expected(c, x) ensures exists i :: OnlyEntry(l, c, i) && IsEvidence(app, m, c, l.entries[i], x.ref) {
      assert c in Scope(m.cells, x);
      DoneMeans(x, m, c);
    }
    forall i | 0 <= i < |l.entries| && l.entries[i].state != EntryState.Superseded
      ensures exists c :: c in m.cells && c.model == l.entries[i].cell.model && c.task == l.entries[i].cell.task
    {
      StrayMeans(x, m, i);
    }
    forall e: EvalId | e in app.db.jobs && !app.db.jobs[e].name.ForeignName?
      ensures e in l.disowned || exists i :: 0 <= i < |l.entries| && l.entries[i].id == Some(e)
    {
      assert e in Named(app);
      TrackedMeans(l, e);
    }
  }

  // ---- The validator ---------------------------------------------------------------------

  datatype Row = Row(accepted: bool, clean: bool, runs: nat, valid: nat, unreal: nat)

  method CheckCell(x: Inputs, m: Manifest, cell: Cell) returns (row: Row)
    ensures row.accepted && row.clean <==> CellDone(x, m, cell)
    ensures row.accepted ==> row.runs == row.valid == m.repetitions && row.unreal == 0
  {
    var active := ActiveFor(EntriesOf(x), cell);
    row := Row(false, |active| <= 1, 0, 0, 0);
    if active != [] && active[0].state.Accepted? && x.app.Some? {
      var verdict := AssessCell(x.app, m, cell, Some(active[0]), x.ref);
      var check := verdict.check.value;
      row := Row(verdict.accepted, row.clean && verdict.problems == [], |check.runIds|, check.valid, check.unreal);
    }
  }

  method ValidateCampaign(m: Manifest, x: Inputs) returns (r: Receipt)
    ensures r.complete <==> Complete(x, m)
    ensures r.complete ==> r.problems == [] && r.missing == []
    ensures r.complete ==> r.completeCells == r.expectedCells == |Scope(m.cells, x)|
    ensures r.complete ==> r.presentRuns == r.validRuns == r.expectedCells * m.repetitions
    ensures r.untracked == UntrackedOf(x)
    ensures r.complete ==> forall e :: e in Named(x.app.value) ==> e in KnownIds(x.ledger.value)
    ensures r.complete ==> CompleteFor(x, m)
  {
    hide CompleteFor, CellDone, UntrackedOf, AnyStray, CompleteModels, Scope, Named;
    var problems := [];
    if x.ledger.None? { problems := problems + [NoLedger]; }
    if x.phase.Some? && x.phase.value in x.classified { problems := problems + [NotBenchmarked]; }
    if x.app.None? { problems := problems + [NoDatabase]; }
    var scope := Scope(m.cells, x);
    var missing, complete, present, valid, unreal := [], 0, 0, 0, 0;
    var done: seq<Cell> := [];
    ghost var before := problems;
    for n := 0 to |scope|
      invariant complete <= n && present == valid == complete * m.repetitions
      invariant missing == [] <==> forall i :: 0 <= i < n ==> CellDone(x, m, scope[i])
      invariant missing == [] ==> complete == n && unreal == 0 && done == scope[..n] && problems == before
      invariant problems == [] ==> before == [] && (missing == [] || complete < n)
    {
      var row := CheckCell(x, m, scope[n]);
      assert scope[..n + 1] == scope[..n] + [scope[n]];
      unreal := unreal + row.unreal;
      if row.accepted {
        complete, present, valid := complete + 1, present + row.runs, valid + row.valid;
        done := done + [scope[n]];
      }
      if !row.accepted || !row.clean { missing := missing + [scope[n]]; }
      if !row.clean { problems := problems + [CellProblem(scope[n])]; }
    }
    assert missing == [] <==> forall c :: c in scope ==> CellDone(x, m, c);
    if UntrackedOf(x) != {} { problems := problems + [UntrackedEvaluations]; }
    if AnyStray(x, m) { problems := problems + [StrayEntries]; }
    if x.drift { problems := problems + [TasksChanged]; }
    if x.historyChanged { problems := problems + [HistoryChanged]; }
    if unreal > 0 { problems := problems + [UnrealRuns]; }
    var expectedRuns := |scope| * m.repetitions;
    var ok := problems == [] && complete == |scope| && present == expectedRuns && valid == expectedRuns;
    if m.sequential && x.phase.None? {
      var models := CompleteModels(scope, done);
      if ok { AllModelsComplete(scope, done); }
      if |models| < m.minimumRanked {
        problems := problems + [TooFewModels];
        ok := false;
      }
    }
    AllTracked(x);
    r := Receipt(ok, problems, |scope|, complete, present, valid, UntrackedOf(x), missing);
    if r.complete { CompleteMeans(x, m); }
  }

  lemma AllTracked(x: Inputs)
    ensures x.app.Some? && x.ledger.Some? && UntrackedOf(x) == {} ==>
      forall e :: e in Named(x.app.value) ==> e in KnownIds(x.ledger.value)
  {
    if x.app.Some? && x.ledger.Some? && UntrackedOf(x) == {} {
      forall e | e in Named(x.app.value) ensures e in KnownIds(x.ledger.value) {
        assert e !in KnownIds(x.ledger.value) ==> e in UntrackedOf(x);
      }
    }
  }

  /** Models every one of whose expected cells is complete. */
  function CompleteModels(scope: seq<Cell>, done: seq<Cell>): set<AgentName> {
    set c | c in scope && (forall d :: d in scope && d.model == c.model ==> d in done) :: c.model
  }

  lemma AllModelsComplete(scope: seq<Cell>, done: seq<Cell>)
    requires forall c :: c in scope ==> c in done
    ensures CompleteModels(scope, done) == ModelsIn(scope)
  {
    forall a: AgentName | a in ModelsIn(scope) ensures a in CompleteModels(scope, done) {
      var c :| c in scope && c.model == a;
    }
    forall a: AgentName | a in CompleteModels(scope, done) ensures a in ModelsIn(scope) {
      var c :| c in scope && c.model == a;
    }
  }

  // ---- What a complete receipt proves ----------------------------------------------------

  /** The evaluation of a cell's only active entry. */
  function EvaluationFor(x: Inputs, cell: Cell): (e: Option<EvalId>) {
    if ActiveFor(EntriesOf(x), cell) != [] then ActiveFor(EntriesOf(x), cell)[0].id else None
  }

  predicate Planned(x: Inputs, m: Manifest, cell: Cell, i: nat) {
    cell in Scope(m.cells, x) && i < m.repetitions
  }

  /** Run r is the evidence the receipt counts for position i of this cell. */
  predicate CountedFor(x: Inputs, m: Manifest, cell: Cell, i: nat, r: RunId) {
    && x.app.Some? && EvaluationFor(x, cell).Some?
    && HasRun(x.app.value, Key(EvaluationFor(x, cell).value, cell.task, i), r)
  }

  lemma CountedRun(x: Inputs, m: Manifest, cell: Cell, i: nat)
    requires Complete(x, m) && Planned(x, m, cell, i) && DbInv(x.app.value.db)
    ensures EvaluationFor(x, cell).Some? && cell.task in m.pins
    ensures var e, app := EvaluationFor(x, cell).value, x.app.value;
      && Key(e, cell.task, i) in KeysOf(app.db, e) && CellOk(app, m, cell, e)
      && app.db.trials[Key(e, cell.task, i)].run.Some?
      && RunMatches(app, m, cell, e, app.db.trials[Key(e, cell.task, i)].run.value, Key(e, cell.task, i))
      && !Voided(app, app.db.trials[Key(e, cell.task, i)].run.value)
  {
    assert CellDone(x, m, cell);
    var app, e := x.app.value, EvaluationFor(x, cell).value;
    var k := Key(e, cell.task, i);
    assert k in ExpectedKeys(e, cell, m.repetitions);
    assert TrialMatches(app, m, cell, k);
    var r := app.db.trials[k].run.value;
    ControlPlaneRowsAreDistinct(app, m, cell, e);
    KeptExists(app, e, k, r);
    var j :| KeptForItsRun(app, e, j, r);
    assert HasRun(app, k, r) && HasRun(app, j, r) && j == k;
  }

  /** Two planned cells never share an evaluation: each id is owned by one entry. */
  lemma EvaluationsAreDistinct(x: Inputs, m: Manifest, a: Cell, b: Cell)
    requires ValidManifest(m) && x.ledger.Some? && LedgerInv(x.ledger.value) && a in m.cells && b in m.cells
    requires EvaluationFor(x, a).Some? && EvaluationFor(x, a) == EvaluationFor(x, b)
    ensures a == b
  {
    var entries := x.ledger.value.entries;
    var ea, eb := ActiveFor(entries, a)[0], ActiveFor(entries, b)[0];
    assert ea in ActiveFor(entries, a) && eb in ActiveFor(entries, b);
    var i :| 0 <= i < |entries| && entries[i] == ea;
    var j :| 0 <= j < |entries| && entries[j] == eb;
    assert i == j;
    var p :| 0 <= p < |m.cells| && m.cells[p] == a;
    var q :| 0 <= q < |m.cells| && m.cells[q] == b;
    assert SameCell(m.cells[p], m.cells[q]);
    assert p == q;
  }

  /** Run r was made by the evaluation of the cell's active entry for repetition i: by the cell's model on the cell's task at the pinned
      version, with the plan's provider, which is a real one, by no reserved agent; it has a score and a diff and is not voided. */
  ghost predicate IsRealRun(x: Inputs, m: Manifest, cell: Cell, i: nat, r: RunId) {
    && x.app.Some? && r in x.app.value.db.runs && cell.task in m.pins
    && var run := x.app.value.db.runs[r];
    && run.eval.Some? && run.eval == EvaluationFor(x, cell) && run.agent == cell.model && run.task == cell.task && run.idx == i
    && run.version == m.pins[cell.task].version && run.agent !in m.reserved
    && run.backend == Some(m.config.backend) && (m.config.backend == Ollama || m.config.backend == OpenAiCompat)
    && run.scored && run.diffed && !run.outcome.voided && !run.outcome.infra
  }

  lemma MatchedIsReal(x: Inputs, m: Manifest, cell: Cell, i: nat, r: RunId)
    requires x.app.Some? && EvaluationFor(x, cell).Some? && cell.task in m.pins && !Voided(x.app.value, r)
    requires RunMatches(x.app.value, m, cell, EvaluationFor(x, cell).value, r, Key(EvaluationFor(x, cell).value, cell.task, i))
    ensures IsRealRun(x, m, cell, i, r)
  {
    hide EvaluationFor;
  }

  /** Every planned position has its run, the run is unvoided real evidence of that position at the pinned version, made by the
      evaluation of the cell's active ledger entry, and no run is counted for two positions. */
  ghost predicate DistinctRealRuns(x: Inputs, m: Manifest) {
    && (forall cell, i: nat :: Planned(x, m, cell, i) ==> exists r :: CountedFor(x, m, cell, i, r))
    && (forall cell, i: nat, r :: Planned(x, m, cell, i) && CountedFor(x, m, cell, i, r) ==>
         IsRealRun(x, m, cell, i, r))
    && (forall a, i: nat, b, j: nat, r ::
         Planned(x, m, a, i) && Planned(x, m, b, j) && CountedFor(x, m, a, i, r) && CountedFor(x, m, b, j, r) ==> a == b && i == j)
  }

  /** A complete receipt means exactly that on tables and a ledger in order. */
  lemma CompleteMeansDistinctRealRuns(x: Inputs, m: Manifest)
    requires ValidManifest(m) && Complete(x, m) && LedgerInv(x.ledger.value) && DbInv(x.app.value.db)
    ensures DistinctRealRuns(x, m)
  {
    forall cell, i: nat | Planned(x, m, cell, i) ensures exists r :: CountedFor(x, m, cell, i, r) {
      CountedRun(x, m, cell, i);
      var r := x.app.value.db.trials[Key(EvaluationFor(x, cell).value, cell.task, i)].run.value;
      assert CountedFor(x, m, cell, i, r);
    }
    forall cell, i: nat, r | Planned(x, m, cell, i) && CountedFor(x, m, cell, i, r)
      ensures IsRealRun(x, m, cell, i, r)
    {
      CountedRun(x, m, cell, i);
      MatchedIsReal(x, m, cell, i, r);
    }
    forall a, i: nat, b, j: nat, r | Planned(x, m, a, i) && Planned(x, m, b, j) && CountedFor(x, m, a, i, r) && CountedFor(x, m, b, j, r)
      ensures a == b && i == j
    {
      CountedRun(x, m, a, i);
      CountedRun(x, m, b, j);
      assert x.app.value.db.runs[r].eval == EvaluationFor(x, a) == EvaluationFor(x, b);
      EvaluationsAreDistinct(x, m, a, b);
    }
  }

  /** And nothing else counts: every raw run made by such an evaluation is some planned position's. */
  lemma CompleteCountsEveryOwnedRun(x: Inputs, m: Manifest, cell: Cell, r: RunId)
    requires ValidManifest(m) && Complete(x, m) && LedgerInv(x.ledger.value) && DbInv(x.app.value.db)
    requires cell in Scope(m.cells, x) && r in x.app.value.db.runs && EvaluationFor(x, cell).Some?
    requires x.app.value.db.runs[r].eval == EvaluationFor(x, cell)
    ensures exists i: nat :: Planned(x, m, cell, i) && CountedFor(x, m, cell, i, r)
  {
    assert CellDone(x, m, cell);
    var app, e := x.app.value, EvaluationFor(x, cell).value;
    assert CellOk(app, m, cell, e);
    var k :| k in KeysOf(app.db, e) && HasRun(app, k, r);
    assert k in ExpectedKeys(e, cell, m.repetitions);
    assert Planned(x, m, cell, k.idx) && CountedFor(x, m, cell, k.idx, r);
  }

  /** Every raw run of a counted evaluation is some planned position's. */
  ghost predicate NoOtherRuns(x: Inputs, m: Manifest) {
    forall cell, r :: cell in Scope(m.cells, x) && x.app.Some? && r in x.app.value.db.runs && EvaluationFor(x, cell).Some?
                      && x.app.value.db.runs[r].eval == EvaluationFor(x, cell) ==>
      exists i: nat :: Planned(x, m, cell, i) && CountedFor(x, m, cell, i, r)
  }

  /** Every counted evaluation ran alone. */
  ghost predicate AllRanAlone(x: Inputs, m: Manifest) {
    forall cell :: cell in Scope(m.cells, x) ==>
      x.app.Some? && EvaluationFor(x, cell).Some? && RanAlone(x.app.value.db, EvaluationFor(x, cell).value)
  }

  /** The validator's promise, for any database a control plane can reach and any ledger the tooling can have saved: a complete
      receipt stands for one distinct real run per planned position, no others, and no evaluation running alongside. */
  lemma CompleteReceiptOfARun(x: Inputs, m: Manifest, cp: Protocol.Trace, locking: bool, n: nat,
                              tool: LauncherProtocol.Trace, ref: Reference, p: nat)
    requires ValidManifest(m) && Complete(x, m)
    requires Protocol.IsRun(cp, locking) && n < |cp.states| && x.app.value.db == cp.states[n].db
    requires LauncherProtocol.IsRun(tool, m, ref) && p < |tool.states| && x.ledger.value == tool.states[p].disk
    ensures DistinctRealRuns(x, m) && NoOtherRuns(x, m) && AllRanAlone(x, m)
  {
    hide DbInv, LedgerInv, Protocol.IsRun, LauncherProtocol.IsRun, Scope, UntrackedOf, AnyStray, CellDone, ModelsIn;
    hide EvaluationFor, RanAlone, CountedFor, Planned;
    Safety.RunKeeps(cp, locking, n);
    LauncherTheorems.SavedLedgerIsInOrder(tool, m, ref, p);
    CompleteMeansDistinctRealRuns(x, m);
    forall cell, r | cell in Scope(m.cells, x) && r in x.app.value.db.runs && EvaluationFor(x, cell).Some?
                     && x.app.value.db.runs[r].eval == EvaluationFor(x, cell)
      ensures exists i: nat :: Planned(x, m, cell, i) && CountedFor(x, m, cell, i, r)
    {
      CompleteCountsEveryOwnedRun(x, m, cell, r);
    }
    forall cell | cell in Scope(m.cells, x)
      ensures EvaluationFor(x, cell).Some? && RanAlone(x.app.value.db, EvaluationFor(x, cell).value)
    {
      CountedRanAlone(x, m, cell);
    }
  }

  lemma CountedRanAlone(x: Inputs, m: Manifest, cell: Cell)
    requires Complete(x, m) && cell in Scope(m.cells, x)
    ensures EvaluationFor(x, cell).Some? && RanAlone(x.app.value.db, EvaluationFor(x, cell).value)
  {
    assert CellDone(x, m, cell);
    NoOverlapMeansAlone(x.app.value.db, EvaluationFor(x, cell).value);
  }
}
