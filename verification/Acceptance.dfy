/** campaigns/afa_campaign/validate.py: the acceptance predicate of one campaign cell. */
module Acceptance {
  import opened Wrappers
  import opened Tables
  import opened Campaign
  import opened Cohort
  import Counting

  /** The model identities and server version of the campaign's first launch (or the plan's pinned digests). */
  datatype Reference = Reference(digests: map<AgentName, int>, version: Option<int>)

  datatype Verdict = Verdict(accepted: bool, problems: seq<Problem>, check: Option<CellCheck>)

  // ---- What is acceptable ----------------------------------------------------------------

  /** Every resume is settled, and the application resumed the evaluation no more often than the tooling did. */
  predicate ResumesAccounted(app: App, entry: Entry) {
    && (forall r :: r in entry.resumes && MayHaveRun(r) ==> !Unsettled(r))
    && (entry.id.Some? ==> ResumeCount(app, entry.id.value) <= |ExecutedResumes(entry.resumes)|)
  }

  /** Submitted and resumed under a passing code check, with the model loaded before every start. */
  predicate Official(m: Manifest, entry: Entry) {
    && entry.facts.codeAtSubmit && (forall r :: r in entry.resumes && MayHaveRun(r) ==> r.checkCode)
    && (m.config.backend.Ollama? ==> entry.facts.warmedUp && forall r :: r in entry.resumes && MayHaveRun(r) ==> r.warmedUp)
  }

  predicate IdentityProven(m: Manifest, cell: Cell, entry: Entry, ref: Reference) {
    m.config.backend.Ollama? ==>
      && cell.model in ref.digests && ref.version.Some?
      && entry.facts.digestAtSubmit == Some(ref.digests[cell.model]) && entry.facts.digestAtFinalize == Some(ref.digests[cell.model])
      && entry.facts.versionAtSubmit == ref.version && entry.facts.versionAtFinalize == ref.version
      && !entry.facts.identityViolation
  }

  ghost predicate Acceptable(app: App, m: Manifest, cell: Cell, entry: Entry, ref: Reference) {
    && entry.state.Accepted? && entry.id.Some? && CellOk(app, m, cell, entry.id.value) && NoVoids(app, entry.id.value)
    && !entry.facts.concurrencyViolation && OverlappingEvaluations(app.db, entry.id.value) == {}
    && ResumesAccounted(app, entry) && Official(m, entry) && entry.facts.codeAtFinalize && IdentityProven(m, cell, entry, ref)
  }

  // ---- What acceptance means for rows and records -------------------------------------------

  /** The evaluation's row: succeeded, fresh, verified, of this cell's name, configuration, single pinned task and repetitions. */
  ghost predicate RowIsOfCell(app: App, m: Manifest, cell: Cell, e: EvalId) {
    && e in app.db.jobs && e in app.verified && cell.task in m.pins
    && var job := app.db.jobs[e];
    && job.status == Succeeded && job.mode == FreshMode && job.source == None && job.name == CellName(cell.model, cell.task)
    && job.snapshot.tasks == [m.pins[cell.task]] && job.snapshot.repeats == m.repetitions
    && job.snapshot.config == Config(cell.model, m.config.backend, m.config.url, m.config.temperature, m.config.timeout, m.config.baseSeed)
  }

  /** Its positions: one per repetition of the task, each completed here at the pinned version and digest. */
  ghost predicate PositionsAreOfCell(app: App, m: Manifest, cell: Cell, e: EvalId) {
    && cell.task in m.pins
    && (forall k: Key :: k.eval == e ==> (k in app.db.trials <==> k.task == cell.task && k.idx < m.repetitions))
    && forall k :: k in app.db.trials && k.eval == e ==>
         && app.db.trials[k].state == Completed && app.db.trials[k].evidence == Fresh && app.db.trials[k].origin == Some(e)
         && app.db.trials[k].run.Some? && app.db.trials[k].version == m.pins[cell.task].version
         && app.db.trials[k].digest == m.pins[cell.task].digest
  }

  /** A resume record that was neither refused nor unsent nor found without effect. */
  ghost predicate Effective(r: Resume) {
    r.outcome != Refused && r.outcome != NotSent && r.outcome != NotRan
  }

  /** Every start was made under a passing code check with the model loaded, and none is undecided. */
  ghost predicate StartsAreInOrder(m: Manifest, entry: Entry) {
    && entry.facts.codeAtSubmit && entry.facts.codeAtFinalize && (m.config.backend == Ollama ==> entry.facts.warmedUp)
    && forall i :: 0 <= i < |entry.resumes| && Effective(entry.resumes[i]) ==>
         && entry.resumes[i].outcome != Requested && entry.resumes[i].outcome != Unknown
         && entry.resumes[i].checkCode && (m.config.backend == Ollama ==> entry.resumes[i].warmedUp)
  }

  ghost predicate IsEvidence(app: App, m: Manifest, cell: Cell, entry: Entry, ref: Reference) {
    && entry.state == Accepted && entry.id.Some?
    && var e := entry.id.value;
    && RowIsOfCell(app, m, cell, e) && PositionsAreOfCell(app, m, cell, e)
    && RanAlone(app.db, e) && !entry.facts.concurrencyViolation && StartsAreInOrder(m, entry)
    && (e in app.resumed ==> |app.resumed[e]| <= |EffectiveAt(entry.resumes)|)
    && (m.config.backend == Ollama ==>
          && cell.model in ref.digests && ref.version.Some? && !entry.facts.identityViolation
          && entry.facts.digestAtSubmit == entry.facts.digestAtFinalize == Some(ref.digests[cell.model])
          && entry.facts.versionAtSubmit == entry.facts.versionAtFinalize == ref.version)
  }

  ghost function EffectiveAt(resumes: seq<Resume>): set<int> {
    set i | 0 <= i < |resumes| && Effective(resumes[i])
  }

  lemma {:induction false} EffectiveResumes(resumes: seq<Resume>)
    ensures |ExecutedResumes(resumes)| == |EffectiveAt(resumes)|
  {
    if resumes == [] {
      assert EffectiveAt(resumes) == {};
    } else {
      EffectiveResumes(resumes[1..]);
      Counting.Shifted(EffectiveAt(resumes[1..]), EffectiveAt(resumes), Effective(resumes[0]));
    }
  }

  lemma StartsFollow(app: App, m: Manifest, entry: Entry)
    requires ResumesAccounted(app, entry) && Official(m, entry) && entry.facts.codeAtFinalize && entry.id.Some?
    ensures StartsAreInOrder(m, entry)
    ensures var e: EvalId := entry.id.value; e in app.resumed ==> |app.resumed[e]| <= |EffectiveAt(entry.resumes)|
  {
    EffectiveResumes(entry.resumes);
    forall i | 0 <= i < |entry.resumes| && Effective(entry.resumes[i]) ensures MayHaveRun(entry.resumes[i]) && !Unsettled(entry.resumes[i]) {
      assert entry.resumes[i] in entry.resumes;
    }
  }

  lemma CellPositions(app: App, m: Manifest, cell: Cell, e: EvalId)
    requires CellOk(app, m, cell, e)
    ensures RowIsOfCell(app, m, cell, e) && PositionsAreOfCell(app, m, cell, e)
  {
    forall k: Key | k.eval == e ensures k in app.db.trials <==> k.task == cell.task && k.idx < m.repetitions {
      assert k in KeysOf(app.db, e) <==> k in ExpectedKeys(e, cell, m.repetitions);
    }
    forall k | k in app.db.trials && k.eval == e ensures TrialMatches(app, m, cell, k) { assert k in KeysOf(app.db, e); }
    hide RunMatches;
  }

  lemma AcceptableIsEvidence(app: App, m: Manifest, cell: Cell, entry: Entry, ref: Reference)
    requires Acceptable(app, m, cell, entry, ref)
    ensures IsEvidence(app, m, cell, entry, ref)
  {
    CellPositions(app, m, cell, entry.id.value);
    NoOverlapMeansAlone(app.db, entry.id.value);
    StartsFollow(app, m, entry);
    hide CellOk, RowIsOfCell, PositionsAreOfCell, RanAlone, OverlappingEvaluations, NoVoids, StartsAreInOrder, ResumesAccounted, Official;
  }

  // ---- assess_cell -----------------------------------------------------------------------

  method ResumeProblems(app: App, entry: Entry) returns (problems: seq<Problem>)
    ensures problems == [] <==> ResumesAccounted(app, entry)
  {
    problems := [];
    var records := ExecutedResumes(entry.resumes);
    if exists r :: r in records && Unsettled(r) { problems := problems + [UnsettledResume]; }
    if entry.id.Some? && ResumeCount(app, entry.id.value) > |records| { problems := problems + [ForeignResume]; }
  }

  method RehearsalProblems(m: Manifest, entry: Entry) returns (problems: seq<Problem>)
    ensures problems == [] <==> Official(m, entry)
  {
    problems := [];
    var records := ExecutedResumes(entry.resumes);
    if !entry.facts.codeAtSubmit || exists r :: r in records && !r.checkCode { problems := problems + [Rehearsal]; }
    if m.config.backend.Ollama? {
      if !entry.facts.warmedUp || exists r :: r in records && !r.warmedUp { problems := problems + [NoWarmup]; }
    }
  }

  method IdentityProblems(m: Manifest, cell: Cell, entry: Entry, ref: Reference) returns (problems: seq<Problem>)
    ensures problems == [] <==> IdentityProven(m, cell, entry, ref)
  {
    problems := [];
    if !m.config.backend.Ollama? { return; }
    if cell.model !in ref.digests {
      problems := problems + [NoReference];
    } else if entry.facts.digestAtFinalize != Some(ref.digests[cell.model]) || entry.facts.digestAtSubmit != Some(ref.digests[cell.model]) {
      problems := problems + [IdentityNotProven];
    }
    if ref.version.None? {
      problems := problems + [NoVersion];
    } else if entry.facts.versionAtSubmit != ref.version || entry.facts.versionAtFinalize != ref.version {
      problems := problems + [WrongVersion];
    }
    if entry.facts.identityViolation { problems := problems + [IdentityViolation]; }
  }

  method AssessCell(app: Option<App>, m: Manifest, cell: Cell, entry: Option<Entry>, ref: Reference) returns (verdict: Verdict)
    ensures verdict.accepted <==> app.Some? && entry.Some? && Acceptable(app.value, m, cell, entry.value, ref)
    ensures verdict.check.Some? <==> app.Some? && entry.Some? && entry.value.state.Accepted?
    ensures verdict.check.Some? ==> (verdict.accepted <==> verdict.problems == [])
    ensures verdict.accepted ==> verdict.check.value.valid == |verdict.check.value.runIds| == m.repetitions
    ensures verdict.accepted ==> verdict.check.value.passed <= m.repetitions && verdict.check.value.voided == 0 == verdict.check.value.unreal
    ensures verdict.check.Some? ==> verdict.check.value.passed == |PassedAt(app.value, verdict.check.value.runIds)|
    ensures verdict.accepted ==> app.Some? && entry.Some? && IsEvidence(app.value, m, cell, entry.value, ref)
  {
    if entry.None? || !entry.value.state.Accepted? || app.None? { return Verdict(false, [], None); }
    var check := CheckCellEvaluation(app.value, m, cell, entry.value.id);
    var problems := check.problems;
    if check.voided > 0 { problems := problems + [VoidedPositions]; }
    if entry.value.id.Some? { NoOverlapMeansAlone(app.value.db, entry.value.id.value); }
    if entry.value.facts.concurrencyViolation { problems := problems + [Concurrency]; }
    if entry.value.id.Some? && OverlappingEvaluations(app.value.db, entry.value.id.value) != {} { problems := problems + [Overlap]; }
    var resumes := ResumeProblems(app.value, entry.value);
    var rehearsal := RehearsalProblems(m, entry.value);
    var identity := IdentityProblems(m, cell, entry.value, ref);
    problems := problems + resumes + rehearsal;
    if !entry.value.facts.codeAtFinalize { problems := problems + [NotCodeChecked]; }
    problems := problems + identity;
    verdict := Verdict(check.ok && problems == [], problems, Some(check));
    if verdict.accepted { AcceptableIsEvidence(app.value, m, cell, entry.value, ref); }
  }
}
