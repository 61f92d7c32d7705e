/** The campaign's own records: its frozen plan, its ledger entries, and the application it drives. */
module Campaign {
  import opened Wrappers
  import opened Tables

  type Phase = int

  datatype Cell = Cell(model: AgentName, task: TaskId, phase: Phase)

  /** The frozen manifest; `sequential` plans launch one model's phase at a time and pin each model's digest. */
  datatype Manifest = Manifest(
    cells: seq<Cell>, pins: map<TaskId, Pin>, repetitions: nat, config: Config, sequential: bool,
    pinnedDigests: map<AgentName, int>, optionalModels: set<AgentName>, minimumRanked: nat, reserved: set<AgentName>)

  predicate SameCell(a: Cell, b: Cell) {
    a.model == b.model && a.task == b.task
  }

  /** What manifest validation established before the plan was frozen. */
  predicate ValidManifest(m: Manifest) {
    && (forall i, j :: 0 <= i < j < |m.cells| ==> !SameCell(m.cells[i], m.cells[j]))
    && (forall i :: 0 <= i < |m.cells| ==> m.cells[i].task in m.pins)
    && (forall t :: t in m.pins ==> m.pins[t].task == t)
  }

  /** The configuration a cell's evaluation is created with. */
  function CellConfig(m: Manifest, cell: Cell): Config {
    m.config.(model := cell.model)
  }

  function NameOf(cell: Cell): Name {
    CellName(cell.model, cell.task)
  }

  predicate CampaignNamed(name: Name) {
    !name.ForeignName?
  }

  // ---- The application -------------------------------------------------------------------

  /** Everything the campaign tooling reads from the application: its tables, which evaluations' stored parameters verify
      against their snapshot, and the times of each evaluation's job_resumed events in sequence order. */
  datatype App = App(db: Db, verified: set<EvalId>, resumed: map<EvalId, seq<Option<Time>>>)

  function Named(app: App): set<EvalId> {
    set e | e in app.db.jobs && CampaignNamed(app.db.jobs[e].name)
  }

  function NamedFor(app: App, cell: Cell): set<EvalId> {
    set e | e in app.db.jobs && app.db.jobs[e].name == NameOf(cell)
  }

  function ActiveEvaluations(app: App): set<EvalId> {
    set e | e in app.db.jobs && (app.db.jobs[e].status.Queued? || app.db.jobs[e].status.Running?)
  }

  function ResumeCount(app: App, e: EvalId): nat {
    if e in app.resumed then |app.resumed[e]| else 0
  }

  /** The application between two reads: evaluations keep their names and are never deleted; resume events accumulate. */
  predicate Evolves(a: App, b: App) {
    && (forall e :: e in a.db.jobs ==> e in b.db.jobs && b.db.jobs[e].name == a.db.jobs[e].name)
    && (forall e :: e in a.resumed ==> e in b.resumed && a.resumed[e] <= b.resumed[e])
  }

  // ---- Ledger entries --------------------------------------------------------------------

  datatype EntryState =
    Submitting | Submitted | Accepted | NeedsAttention | EntryFailed | EntryCanceled | Rejected | Superseded

  datatype ResumeOutcome = Requested | Unknown | Agreed | Ran | NotRan | Refused | NotSent

  datatype Resume = Resume(at: Option<Time>, checkCode: bool, warmedUp: bool, outcome: ResumeOutcome)

  /** The facts recorded when an entry's evaluation was started and finished. */
  datatype Facts = Facts(
    digestAtSubmit: Option<int>, digestAtFinalize: Option<int>, versionAtSubmit: Option<int>, versionAtFinalize: Option<int>,
    codeAtSubmit: bool, codeAtFinalize: bool, warmedUp: bool, identityViolation: bool, concurrencyViolation: bool)

  /** What a failed or canceled evaluation looked like when the campaign halted on it. */
  datatype HaltSnapshot = HaltSnapshot(status: Status, completed: nat, resumes: nat)

  datatype Entry = Entry(
    cell: Cell, id: Option<EvalId>, state: EntryState, resumes: seq<Resume>, facts: Facts, halt: Option<HaltSnapshot>,
    refusals: nat)

  datatype LedgerData = LedgerData(entries: seq<Entry>, disowned: seq<EvalId>)

  predicate Active(e: Entry) {
    !e.state.Superseded?
  }

  function IdsOf(l: LedgerData): set<EvalId> {
    set i | 0 <= i < |l.entries| && l.entries[i].id.Some? :: l.entries[i].id.value
  }

  function DisownedIds(l: LedgerData): set<EvalId> {
    set i | 0 <= i < |l.disowned| :: l.disowned[i]
  }

  function KnownIds(l: LedgerData): set<EvalId> {
    IdsOf(l) + DisownedIds(l)
  }

  /** Resume records that may have run. */
  predicate MayHaveRun(r: Resume) {
    !r.outcome.Refused? && !r.outcome.NotSent? && !r.outcome.NotRan?
  }

  predicate Unsettled(r: Resume) {
    r.outcome.Requested? || r.outcome.Unknown?
  }

  function ExecutedResumes(resumes: seq<Resume>): (run: seq<Resume>)
    ensures |run| <= |resumes|
    ensures forall r :: r in run <==> r in resumes && MayHaveRun(r)
  {
    if resumes == [] then []
    else if MayHaveRun(resumes[0]) then [resumes[0]] + ExecutedResumes(resumes[1..])
    else ExecutedResumes(resumes[1..])
  }
}
