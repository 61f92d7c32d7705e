/** afa_api/evidence.py: which kind of evidence a raw run is. */
module Provenance {
  import opened Wrappers
  import opened Tables

  datatype Class = Real | Synthetic | LegacyClass | Conflict

  datatype Scope = Benchmark | RealOnly | SyntheticOnly | Everything

  predicate InScope(scope: Scope, class_: Class) {
    match scope
    case Benchmark => class_.Real? || class_.LegacyClass?
    case RealOnly => class_.Real?
    case SyntheticOnly => class_.Synthetic?
    case Everything => true
  }

  predicate Known(kind: Backend) {
    !kind.OtherBackend?
  }

  function ClassOf(kind: Backend): Class
    requires Known(kind)
  {
    if kind.Mock? then Synthetic else Real
  }

  /** The provider an evaluation recorded: its snapshot's, else its parameters'. */
  function EvaluationKind(snapshot: Option<Backend>, params: Option<Backend>): Option<Backend> {
    if snapshot.Some? && Known(snapshot.value) then snapshot
    else if params.Some? && Known(params.value) then params
    else None
  }

  /** A provider may vouch for a run: it is recorded by the run or by its evaluation, and no other one is. */
  predicate Vouches(kind: Backend, run: Option<Backend>, snapshot: Option<Backend>, params: Option<Backend>) {
    && Known(kind) && (run.Some? || EvaluationKind(snapshot, params).Some?)
    && (run.Some? ==> run.value == kind)
    && (EvaluationKind(snapshot, params).Some? ==> EvaluationKind(snapshot, params).value == kind)
  }

  /** Real evidence is exactly what one real provider vouches for, synthetic exactly what the mock does; only a run of no
      evaluation, with no recorded provider at all, is legacy; everything else is a conflict. */
  function Classify(ofEvaluation: bool, run: Option<Backend>, snapshot: Option<Backend>, params: Option<Backend>,
                    reservedName: bool): (c: Class)
    ensures c.Real? <==> !reservedName && (Vouches(Ollama, run, snapshot, params) || Vouches(OpenAiCompat, run, snapshot, params))
    ensures c.Synthetic? <==> !reservedName && Vouches(Mock, run, snapshot, params)
    ensures c.LegacyClass? <==> !reservedName && !ofEvaluation && run.None? && EvaluationKind(snapshot, params).None?
  {
    var kind := EvaluationKind(snapshot, params);
    if reservedName then Conflict
    else if run.Some? && !Known(run.value) then Conflict
    else if run.Some? && kind.Some? && run != kind then Conflict
    else if run.Some? then ClassOf(run.value)
    else if kind.Some? then ClassOf(kind.value)
    else if ofEvaluation then Conflict
    else LegacyClass
  }

  /** The class of a stored run, from its row and its evaluation's snapshot. */
  lemma ClassOfRunMeans(db: Db, reserved: set<AgentName>, r: RunId)
    requires r in db.runs
    ensures var run, class_ := db.runs[r], ClassOfRun(db, reserved, r);
      var recorded := if run.eval.Some? && run.eval.value in db.jobs then Some(db.jobs[run.eval.value].snapshot.config.backend) else None;
      && (run.agent in reserved ==> class_ == Conflict)
      && (class_ == Real ==> run.backend in {None, Some(Ollama), Some(OpenAiCompat)})
      && (class_ == Synthetic ==> run.backend in {None, Some(Mock)})
      && (run.agent !in reserved && run.backend in {Some(Ollama), Some(OpenAiCompat), Some(Mock)} && recorded in {None, run.backend} ==>
            class_ == if run.backend == Some(Mock) then Synthetic else Real)
      && (run.agent !in reserved && run.backend == None && recorded in {Some(Ollama), Some(OpenAiCompat), Some(Mock)} ==>
            class_ == if recorded == Some(Mock) then Synthetic else Real)
      && (run.backend.Some? && recorded.Some? && recorded != Some(OtherBackend) && recorded != run.backend ==> class_ == Conflict)
      && (run.backend == Some(OtherBackend) ==> class_ == Conflict)
      && (class_ == LegacyClass ==> run.eval == None && run.backend == None)
  {
  }

  /** Provenance of a stored run: its own provider value against its evaluation's snapshot. */
  function ClassOfRun(db: Db, reserved: set<AgentName>, r: RunId): Class
    requires r in db.runs
  {
    var run := db.runs[r];
    var kind := if run.eval.Some? && run.eval.value in db.jobs then Some(db.jobs[run.eval.value].snapshot.config.backend) else None;
    Classify(run.eval.Some?, run.backend, kind, None, run.agent in reserved)
  }
}
