/**
 Version- and provenance-aware loading of stored runs: the nested loops of afa_api/store_load.py, and the separately
 written ones of examples/report_combined.py.
 */
module Loader {
  import opened Wrappers
  import opened Tables
  import opened Counting
  import opened Provenance

  datatype Record = Record(id: RunId, agent: AgentName, task: TaskId, version: int, class_: Class)

  /** One read snapshot of a run store: its agents, what load_runs returns for each, and the number of run rows. */
  datatype Disk = Disk(agents: seq<AgentName>, loads: map<AgentName, seq<Record>>, total: nat)

  datatype View = View(scope: Scope, reserved: set<AgentName>, currentVersions: map<TaskId, int>)

  predicate ValidDisk(disk: Disk) {
    forall a :: a in disk.agents ==> a in disk.loads && forall r :: r in disk.loads[a] ==> r.agent == a
  }

  /** What becomes of one record. */
  datatype Fate = Current | Historical | ExcludedSynthetic | ExcludedConflict | OutOfScope

  predicate Counted(v: View, r: Record) {
    r.agent !in v.reserved && Provenance.InScope(v.scope, r.class_)
  }

  predicate IsCurrent(v: View, r: Record) {
    r.task in v.currentVersions && v.currentVersions[r.task] == r.version
  }

  function FateOf(v: View, r: Record): Fate {
    if !Counted(v, r) then
      if r.class_.Synthetic? then ExcludedSynthetic else if r.class_.Conflict? then ExcludedConflict else OutOfScope
    else if IsCurrent(v, r) then Current
    else Historical
  }

  function Count(v: View, rs: seq<Record>, f: Fate): nat {
    if rs == [] then 0 else Count(v, rs[..|rs| - 1], f) + if FateOf(v, rs[|rs| - 1]) == f then 1 else 0
  }

  function TasksOf(v: View, rs: seq<Record>, f: Fate): set<TaskId> {
    if rs == [] then {} else TasksOf(v, rs[..|rs| - 1], f) + if FateOf(v, rs[|rs| - 1]) == f then {rs[|rs| - 1].task} else {}
  }

  /** Every record the snapshot returns, agent by agent. */
  function Projected(disk: Disk, n: nat): seq<Record>
    requires ValidDisk(disk) && n <= |disk.agents|
  {
    if n == 0 then []
    else
      var agent: AgentName := disk.agents[n - 1];
      assert agent in disk.agents;
      Projected(disk, n - 1) + disk.loads[agent]
  }

  function AllProjected(disk: Disk): seq<Record>
    requires ValidDisk(disk)
  {
    Projected(disk, |disk.agents|)
  }

  // ---- Tallies ---------------------------------------------------------------------------

  lemma CountNext(v: View, rs: seq<Record>, r: Record)
    ensures forall f :: Count(v, rs + [r], f) == Count(v, rs, f) + if FateOf(v, r) == f then 1 else 0
    ensures forall f :: TasksOf(v, rs + [r], f) == TasksOf(v, rs, f) + if FateOf(v, r) == f then {r.task} else {}
  {
    assert (rs + [r])[..|rs|] == rs;
  }

  lemma {:induction false} CountJoin(v: View, rs: seq<Record>, ts: seq<Record>, f: Fate)
    ensures Count(v, rs + ts, f) == Count(v, rs, f) + Count(v, ts, f)
  {
    if ts == [] {
      assert rs + ts == rs;
    } else {
      assert (rs + ts)[..|rs + ts| - 1] == rs + ts[..|ts| - 1];
      CountJoin(v, rs, ts[..|ts| - 1], f);
    }
  }

  /** Each record has exactly one fate. */
  lemma {:induction false} FatesPartition(v: View, rs: seq<Record>)
    ensures Count(v, rs, Current) + Count(v, rs, Historical) + Count(v, rs, ExcludedSynthetic)
            + Count(v, rs, ExcludedConflict) + Count(v, rs, OutOfScope) == |rs|
  {
    if rs != [] { FatesPartition(v, rs[..|rs| - 1]); }
  }

  // ---- store_load.py ---------------------------------------------------------------------

  datatype AgentEvidence = AgentEvidence(
    runs: nat, currentRuns: nat, historicalRuns: nat, currentTasks: set<TaskId>, historicalTasks: set<TaskId>)

  datatype CellExclusions = CellExclusions(synthetic: nat, conflict: nat, outOfScope: nat)

  type CellKey = (AgentName, TaskId)

  /** A dictionary of per-cell exclusions, its keys in insertion order. */
  datatype Exclusions = Exclusions(cells: seq<CellKey>, at: map<CellKey, CellExclusions>)

  datatype Loaded = Loaded(
    aggregate: seq<Record>, evidence: map<AgentName, AgentEvidence>, excludedSynthetic: nat, excludedConflict: nat, outOfScope: nat,
    unaccounted: nat, excludedCells: Exclusions, cellVersions: map<CellKey, set<int>>)

  function CellOf(r: Record): CellKey {
    (r.agent, r.task)
  }

  function NoExclusions(): CellExclusions {
    CellExclusions(0, 0, 0)
  }

  function Excluded(x: CellExclusions, f: Fate): CellExclusions {
    match f
    case ExcludedSynthetic => x.(synthetic := x.synthetic + 1)
    case ExcludedConflict => x.(conflict := x.conflict + 1)
    case OutOfScope => x.(outOfScope := x.outOfScope + 1)
    case _ => x
  }

  ghost predicate ValidExclusions(x: Exclusions) {
    Distinct(x.cells) && forall c :: c in x.cells <==> c in x.at
  }

  function SumCells(cells: seq<CellKey>, at: map<CellKey, CellExclusions>): CellExclusions
    requires forall c :: c in cells ==> c in at
  {
    if cells == [] then NoExclusions()
    else
      Plus(SumCells(cells[..|cells| - 1], at), at[cells[|cells| - 1]])
  }

  function Plus(x: CellExclusions, y: CellExclusions): CellExclusions {
    CellExclusions(x.synthetic + y.synthetic, x.conflict + y.conflict, x.outOfScope + y.outOfScope)
  }

  lemma ExcludedInSum(x: CellExclusions, y: CellExclusions, f: Fate)
    ensures Plus(x, Excluded(y, f)) == Excluded(Plus(x, y), f) == Plus(Excluded(x, f), y)
  {
  }

  lemma {:induction false} SumFrame(cells: seq<CellKey>, at: map<CellKey, CellExclusions>, c: CellKey, x: CellExclusions)
    requires (forall d :: d in cells ==> d in at) && c !in cells
    ensures SumCells(cells, at[c := x]) == SumCells(cells, at)
  {
    if cells != [] { SumFrame(cells[..|cells| - 1], at, c, x); }
  }

  lemma {:induction false} SumUpdate(cells: seq<CellKey>, at: map<CellKey, CellExclusions>, c: CellKey, f: Fate)
    requires Distinct(cells) && (forall d :: d in cells ==> d in at) && c in cells
    ensures SumCells(cells, at[c := Excluded(at[c], f)]) == Excluded(SumCells(cells, at), f)
  {
    var last, rest := cells[|cells| - 1], cells[..|cells| - 1];
    assert cells == rest + [last];
    ExcludedInSum(SumCells(rest, at), at[last], f);
    hide Excluded, Plus;
    if last == c {
      assert c !in rest;
      SumFrame(rest, at, c, Excluded(at[c], f));
    } else {
      SumUpdate(rest, at, c, f);
    }
  }

  lemma SumInsert(cells: seq<CellKey>, at: map<CellKey, CellExclusions>, c: CellKey)
    requires (forall d :: d in cells ==> d in at) && c !in cells
    ensures SumCells(cells + [c], at[c := NoExclusions()]) == SumCells(cells, at)
  {
    var longer, wider := cells + [c], at[c := NoExclusions()];
    assert longer[..|longer| - 1] == cells && longer[|longer| - 1] == c;
    assert SumCells(longer, wider) == Plus(SumCells(cells, wider), NoExclusions());
    hide SumCells;
    SumFrame(cells, at, c, NoExclusions());
  }

  /** How the records of one cell were excluded. */
  function ExclusionsIn(v: View, rs: seq<Record>, c: CellKey): CellExclusions {
    if rs == [] then NoExclusions()
    else
      var rest := ExclusionsIn(v, rs[..|rs| - 1], c);
      if CellOf(rs[|rs| - 1]) == c then Excluded(rest, FateOf(v, rs[|rs| - 1])) else rest
  }

  lemma ExclusionsInNext(v: View, rs: seq<Record>, r: Record, c: CellKey)
    ensures ExclusionsIn(v, rs + [r], c)
            == if CellOf(r) == c then Excluded(ExclusionsIn(v, rs, c), FateOf(v, r)) else ExclusionsIn(v, rs, c)
  {
    assert (rs + [r])[..|rs|] == rs;
  }

  /** The dictionary has exactly the cells with an excluded record, and each counts that cell's records by their fate. */
  ghost predicate CellsState(v: View, done: seq<Record>, x: Exclusions) {
    && ValidExclusions(x)
    && (forall c :: c in x.at <==> ExclusionsIn(v, done, c) != NoExclusions())
    && (forall c :: c in x.at ==> x.at[c] == ExclusionsIn(v, done, c))
  }

  lemma CellsNext(v: View, done: seq<Record>, r: Record, x: Exclusions, y: Exclusions)
    requires CellsState(v, done, x) && ValidExclusions(y)
    requires var c := CellOf(r);
      && (!Counted(v, r) ==>
           y.at == x.at[c := Excluded(if c in x.at then x.at[c] else NoExclusions(), FateOf(v, r))])
      && (Counted(v, r) ==> y == x)
    ensures CellsState(v, done + [r], y)
  {
    forall c ensures (c in y.at <==> ExclusionsIn(v, done + [r], c) != NoExclusions())
                     && (c in y.at ==> y.at[c] == ExclusionsIn(v, done + [r], c))
    {
      ExclusionsInNext(v, done, r, c);
    }
  }

  /** setdefault, then count one exclusion. */
  method Exclude(x: Exclusions, c: CellKey, f: Fate) returns (y: Exclusions)
    requires ValidExclusions(x)
    ensures ValidExclusions(y) && SumCells(y.cells, y.at) == Excluded(SumCells(x.cells, x.at), f)
    ensures y.at == x.at[c := Excluded(if c in x.at then x.at[c] else NoExclusions(), f)]
  {
    hide SumCells, Excluded;
    y := x;
    if c !in x.at {
      y := Exclusions(x.cells + [c], x.at[c := NoExclusions()]);
      SumInsert(x.cells, x.at, c);
    }
    SumUpdate(y.cells, y.at, c, f);
    y := Exclusions(y.cells, y.at[c := Excluded(y.at[c], f)]);
  }

  function NoEvidence(): AgentEvidence {
    AgentEvidence(0, 0, 0, {}, {})
  }

  /** What the loader reports about one agent, from that agent's records. */
  function EvidenceFor(v: View, rs: seq<Record>): AgentEvidence {
    AgentEvidence(Count(v, rs, Current) + Count(v, rs, Historical), Count(v, rs, Current), Count(v, rs, Historical),
                  TasksOf(v, rs, Current), TasksOf(v, rs, Historical))
  }

  predicate AnyCounted(v: View, rs: seq<Record>) {
    Count(v, rs, Current) + Count(v, rs, Historical) > 0
  }

  function CurrentRecords(v: View, rs: seq<Record>): seq<Record> {
    if rs == [] then []
    else CurrentRecords(v, rs[..|rs| - 1]) + if FateOf(v, rs[|rs| - 1]).Current? then [rs[|rs| - 1]] else []
  }

  /** The versions of one cell's records. */
  function VersionsIn(rs: seq<Record>, c: CellKey): set<int> {
    set r | r in rs && CellOf(r) == c :: r.version
  }

  /** The dictionary of versions describes the aggregate: its cells, and each cell's versions. */
  ghost predicate VersionsState(aggregate: seq<Record>, cellVersions: map<CellKey, set<int>>) {
    && (forall c :: c in cellVersions <==> exists r :: r in aggregate && CellOf(r) == c)
    && (forall c :: c in cellVersions ==> cellVersions[c] == VersionsIn(aggregate, c))
  }

  lemma VersionsNext(aggregate: seq<Record>, cellVersions: map<CellKey, set<int>>, r: Record, after: map<CellKey, set<int>>)
    requires VersionsState(aggregate, cellVersions)
    requires var c := CellOf(r);
      after == cellVersions[c := (if c in cellVersions then cellVersions[c] else {}) + {r.version}]
    ensures VersionsState(aggregate + [r], after)
  {
    var longer := aggregate + [r];
    assert r in longer;
    forall c | c in after ensures (exists s :: s in longer && CellOf(s) == c) && after[c] == VersionsIn(longer, c) {
      if c in cellVersions {
        var s :| s in aggregate && CellOf(s) == c;
        assert s in longer;
      }
      VersionsGrow(aggregate, r, c);
    }
  }

  lemma VersionsGrow(aggregate: seq<Record>, r: Record, c: CellKey)
    ensures VersionsIn(aggregate + [r], c) == VersionsIn(aggregate, c) + if CellOf(r) == c then {r.version} else {}
    ensures (forall s :: s in aggregate ==> CellOf(s) != c) ==> VersionsIn(aggregate, c) == {}
  {
    var longer := aggregate + [r];
    forall x: int | x in VersionsIn(longer, c)
      ensures x in VersionsIn(aggregate, c) + if CellOf(r) == c then {r.version} else {}
    {
      var s :| s in longer && CellOf(s) == c && s.version == x;
    }
    forall x: int | x in VersionsIn(aggregate, c) + if CellOf(r) == c then {r.version} else {}
      ensures x in VersionsIn(longer, c)
    {
      if x in VersionsIn(aggregate, c) {
        var s :| s in aggregate && CellOf(s) == c && s.version == x;
        assert s in longer;
      } else {
        assert r in longer;
      }
    }
  }

  lemma {:induction false} OnlyCurrentInAggregate(v: View, rs: seq<Record>)
    ensures forall r :: r in CurrentRecords(v, rs) ==> IsCurrent(v, r)
  {
    if rs != [] { OnlyCurrentInAggregate(v, rs[..|rs| - 1]); }
  }

  /** The loop state after the records `done`. */
  ghost predicate LoadState(v: View, done: seq<Record>, l: Loaded) {
    && l.aggregate == CurrentRecords(v, done)
    && l.excludedSynthetic == Count(v, done, ExcludedSynthetic) && l.excludedConflict == Count(v, done, ExcludedConflict)
    && l.outOfScope == Count(v, done, OutOfScope) && CellsState(v, done, l.excludedCells)
    && SumCells(l.excludedCells.cells, l.excludedCells.at)
       == CellExclusions(l.excludedSynthetic, l.excludedConflict, l.outOfScope)
    && VersionsState(l.aggregate, l.cellVersions)
  }

  /** The agents in this list, and no others, have evidence: exactly that of their own records, if any counts. */
  ghost predicate EvidenceState(v: View, disk: Disk, agents: seq<AgentName>, evidence: map<AgentName, AgentEvidence>)
    requires ValidDisk(disk) && forall a :: a in agents ==> a in disk.loads
  {
    && (forall a: AgentName :: a in evidence ==> a in agents && evidence[a] == EvidenceFor(v, disk.loads[a]))
    && (forall a: AgentName :: a in agents ==> (a in evidence <==> AnyCounted(v, disk.loads[a])))
  }

  /** One record of the inner loop. */
  method LoadRecord(v: View, r: Record, l: Loaded, ghost done: seq<Record>) returns (t: Loaded)
    requires LoadState(v, done, l)
    ensures LoadState(v, done + [r], t) && t.unaccounted == l.unaccounted
    ensures t.evidence == if Counted(v, r) then l.evidence[r.agent := Extended(if r.agent in l.evidence then l.evidence[r.agent] else NoEvidence(), v, r)]
                          else l.evidence
  {
    hide LoadState, FateOf;
    StateHasValidCells(v, done, l);
    t := l;
    if r.agent in v.reserved || !Provenance.InScope(v.scope, r.class_) {
      var cells := Exclude(l.excludedCells, CellOf(r), FateOf(v, r));
      t := t.(excludedCells := cells);
      if r.class_.Synthetic? {
        t := t.(excludedSynthetic := l.excludedSynthetic + 1);
      } else if r.class_.Conflict? {
        t := t.(excludedConflict := l.excludedConflict + 1);
      } else {
        t := t.(outOfScope := l.outOfScope + 1);
      }
      ExcludedNext(v, done, r, l, t);
      return;
    }
    var ev := if r.agent in l.evidence then l.evidence[r.agent] else NoEvidence();
    t := t.(evidence := l.evidence[r.agent := Extended(ev, v, r)]);
    if IsCurrent(v, r) {
      var c := CellOf(r);
      t := t.(cellVersions := l.cellVersions[c := (if c in l.cellVersions then l.cellVersions[c] else {}) + {r.version}],
              aggregate := l.aggregate + [r]);
    }
    CountedNext(v, done, r, l, t);
  }

  lemma StateHasValidCells(v: View, done: seq<Record>, l: Loaded)
    requires LoadState(v, done, l)
    ensures ValidExclusions(l.excludedCells)
  {
    CellsAreValid(v, done, l.excludedCells);
    hide CellsState;
  }

  /** An excluded record: one more of its fate, in its cell and in total. */
  lemma ExcludedNext(v: View, done: seq<Record>, r: Record, l: Loaded, t: Loaded)
    requires LoadState(v, done, l) && !Counted(v, r)
    requires var x, y, f := l.excludedCells, t.excludedCells, FateOf(v, r);
      && ValidExclusions(x) && ValidExclusions(y) && SumCells(y.cells, y.at) == Excluded(SumCells(x.cells, x.at), f)
      && y.at == x.at[CellOf(r) := Excluded(if CellOf(r) in x.at then x.at[CellOf(r)] else NoExclusions(), f)]
    requires t == l.(excludedCells := t.excludedCells,
                     excludedSynthetic := l.excludedSynthetic + if r.class_.Synthetic? then 1 else 0,
                     excludedConflict := l.excludedConflict + if r.class_.Conflict? then 1 else 0,
                     outOfScope := l.outOfScope + if r.class_.Synthetic? || r.class_.Conflict? then 0 else 1)
    ensures LoadState(v, done + [r], t)
  {
    CountNext(v, done, r);
    CurrentNext(v, done, r);
    CellsNext(v, done, r, l.excludedCells, t.excludedCells);
    hide Count, TasksOf, CurrentRecords, CellsState, VersionsState, SumCells, ValidExclusions;
  }

  /** A counted record: in the aggregate when current, excluded nowhere. */
  lemma CountedNext(v: View, done: seq<Record>, r: Record, l: Loaded, t: Loaded)
    requires LoadState(v, done, l) && Counted(v, r)
    requires var c := CellOf(r);
      t == if IsCurrent(v, r)
           then l.(evidence := t.evidence, aggregate := l.aggregate + [r],
                   cellVersions := l.cellVersions[c := (if c in l.cellVersions then l.cellVersions[c] else {}) + {r.version}])
           else l.(evidence := t.evidence)
    ensures LoadState(v, done + [r], t)
  {
    CountNext(v, done, r);
    CurrentNext(v, done, r);
    CellsAreValid(v, done, l.excludedCells);
    CellsNext(v, done, r, l.excludedCells, l.excludedCells);
    if IsCurrent(v, r) { VersionsNext(l.aggregate, l.cellVersions, r, t.cellVersions); }
    hide Count, TasksOf, CurrentRecords, CellsState, VersionsState, SumCells, ValidExclusions;
  }

  lemma CurrentNext(v: View, done: seq<Record>, r: Record)
    ensures CurrentRecords(v, done + [r]) == CurrentRecords(v, done) + if FateOf(v, r).Current? then [r] else []
  {
    assert (done + [r])[..|done|] == done;
  }

  lemma CellsAreValid(v: View, done: seq<Record>, x: Exclusions)
    requires CellsState(v, done, x)
    ensures ValidExclusions(x)
  {
  }

  function Extended(ev: AgentEvidence, v: View, r: Record): AgentEvidence {
    if IsCurrent(v, r)
    then ev.(runs := ev.runs + 1, currentRuns := ev.currentRuns + 1, currentTasks := ev.currentTasks + {r.task})
    else ev.(runs := ev.runs + 1, historicalRuns := ev.historicalRuns + 1, historicalTasks := ev.historicalTasks + {r.task})
  }

  lemma EvidenceNext(v: View, own: seq<Record>, r: Record)
    ensures Counted(v, r) ==> EvidenceFor(v, own + [r]) == Extended(EvidenceFor(v, own), v, r) && AnyCounted(v, own + [r])
    ensures !Counted(v, r) ==> EvidenceFor(v, own + [r]) == EvidenceFor(v, own) && (AnyCounted(v, own + [r]) <==> AnyCounted(v, own))
    ensures !AnyCounted(v, own) ==> EvidenceFor(v, own) == NoEvidence()
  {
    CountNext(v, own, r);
    NothingCounted(v, own);
  }

  lemma {:induction false} NothingCounted(v: View, rs: seq<Record>)
    ensures Count(v, rs, Current) == 0 <==> TasksOf(v, rs, Current) == {}
    ensures Count(v, rs, Historical) == 0 <==> TasksOf(v, rs, Historical) == {}
  {
    if rs != [] {
      NothingCounted(v, rs[..|rs| - 1]);
      var t := rs[|rs| - 1].task;
      assert {t} != {} by { assert t in {t}; }
    }
  }

  /** The inner loop: all records of one agent. */
  method LoadAgent(v: View, agent: AgentName, rs: seq<Record>, l: Loaded, ghost done: seq<Record>) returns (t: Loaded)
    requires LoadState(v, done, l) && agent !in l.evidence && forall r :: r in rs ==> r.agent == agent
    ensures LoadState(v, done + rs, t) && t.unaccounted == l.unaccounted
    ensures t.evidence == if AnyCounted(v, rs) then l.evidence[agent := EvidenceFor(v, rs)] else l.evidence
  {
    hide LoadState;
    t := l;
    assert done + rs[..0] == done;
    for i := 0 to |rs|
      invariant LoadState(v, done + rs[..i], t) && t.unaccounted == l.unaccounted
      invariant t.evidence == if AnyCounted(v, rs[..i]) then l.evidence[agent := EvidenceFor(v, rs[..i])] else l.evidence
    {
      assert rs[..i + 1] == rs[..i] + [rs[i]] && done + rs[..i + 1] == done + rs[..i] + [rs[i]];
      EvidenceNext(v, rs[..i], rs[i]);
      t := LoadRecord(v, rs[i], t, done + rs[..i]);
    }
    assert rs[..|rs|] == rs;
  }

  /** load_stores: the classification loop and its accounting. */
  method LoadStores(v: View, disk: Disk) returns (l: Loaded, refused: bool)
    requires ValidDisk(disk) && Distinct(disk.agents)
    ensures !refused && LoadState(v, AllProjected(disk), l) && EvidenceState(v, disk, disk.agents, l.evidence)
    ensures l.unaccounted == if disk.total > |AllProjected(disk)| then disk.total - |AllProjected(disk)| else 0
    ensures Accounted(v, AllProjected(disk), l)
  {
    hide LoadState, Accounted;
    l := Loaded([], map[], 0, 0, 0, 0, Exclusions([], map[]), map[]);
    NothingLoaded(v, l);
    var projected := 0;
    for n := 0 to |disk.agents|
      invariant LoadState(v, Projected(disk, n), l) && projected == |Projected(disk, n)| && l.unaccounted == 0
      invariant EvidenceState(v, disk, disk.agents[..n], l.evidence)
    {
      var agent := disk.agents[n];
      assert agent in disk.agents && agent !in disk.agents[..n];
      assert disk.agents[..n + 1] == disk.agents[..n] + [agent];
      l := LoadAgent(v, agent, disk.loads[agent], l, Projected(disk, n));
      projected := projected + |disk.loads[agent]|;
    }
    assert disk.agents[..|disk.agents|] == disk.agents;
    refused := exists c :: c in l.cellVersions && |l.cellVersions[c]| > 1;
    NeverRefused(v, AllProjected(disk), l);
    UnaccountedApart(v, AllProjected(disk), l, if disk.total > projected then disk.total - projected else 0);
    l := l.(unaccounted := if disk.total > projected then disk.total - projected else 0);
    StateIsAccounted(v, AllProjected(disk), l);
  }

  // ---- What the loader reports, record by record -------------------------------------------

  /** The agent is not reserved and the scope admits the record's class. */
  ghost predicate Eligible(v: View, r: Record) {
    && r.agent !in v.reserved
    && (v.scope == Everything || (v.scope == RealOnly && r.class_ == Real) || (v.scope == SyntheticOnly && r.class_ == Synthetic)
        || (v.scope == Benchmark && (r.class_ == Real || r.class_ == LegacyClass)))
  }

  /** The record is of the task's current version. */
  ghost predicate UpToDate(v: View, r: Record) {
    r.task in v.currentVersions && r.version == v.currentVersions[r.task]
  }

  lemma FateMeans(v: View, r: Record)
    ensures FateOf(v, r) == Current <==> Eligible(v, r) && UpToDate(v, r)
    ensures FateOf(v, r) == Historical <==> Eligible(v, r) && !UpToDate(v, r)
    ensures FateOf(v, r) == ExcludedSynthetic <==> !Eligible(v, r) && r.class_ == Synthetic
    ensures FateOf(v, r) == ExcludedConflict <==> !Eligible(v, r) && r.class_ == Conflict
    ensures FateOf(v, r) == OutOfScope <==> !Eligible(v, r) && r.class_ != Synthetic && r.class_ != Conflict
  {
  }

  /** The places of the records with this fate. */
  ghost function PlacesOf(v: View, rs: seq<Record>, f: Fate): set<int> {
    set i | 0 <= i < |rs| && FateOf(v, rs[i]) == f
  }

  lemma {:induction false} CountIsPlaces(v: View, rs: seq<Record>, f: Fate)
    ensures Count(v, rs, f) == |PlacesOf(v, rs, f)|
  {
    if rs == [] {
      assert PlacesOf(v, rs, f) == {};
    } else {
      var rest, n := rs[..|rs| - 1], |rs| - 1;
      CountIsPlaces(v, rest, f);
      hide FateOf;
      forall i ensures i in PlacesOf(v, rs, f) <==> i in PlacesOf(v, rest, f) || (i == n && FateOf(v, rs[n]) == f) {
        if 0 <= i < n { assert rest[i] == rs[i]; }
      }
      GrownBy(PlacesOf(v, rest, f), PlacesOf(v, rs, f), n, FateOf(v, rs[n]) == f);
    }
  }

  /** The aggregate holds every eligible up-to-date record as often as the stores do, and no other; the three totals count the
      other records by their class. */
  ghost predicate Accounted(v: View, all: seq<Record>, l: Loaded) {
    && (forall r :: multiset(l.aggregate)[r] == if Eligible(v, r) && UpToDate(v, r) then multiset(all)[r] else 0)
    && l.excludedSynthetic == |set i | 0 <= i < |all| && !Eligible(v, all[i]) && all[i].class_ == Synthetic|
    && l.excludedConflict == |set i | 0 <= i < |all| && !Eligible(v, all[i]) && all[i].class_ == Conflict|
    && l.outOfScope == |set i | 0 <= i < |all| && !Eligible(v, all[i]) && all[i].class_ != Synthetic && all[i].class_ != Conflict|
  }

  lemma {:induction false} CurrentMultiset(v: View, rs: seq<Record>, r: Record)
    ensures multiset(CurrentRecords(v, rs))[r] == if FateOf(v, r) == Current then multiset(rs)[r] else 0
  {
    if rs != [] {
      CurrentMultiset(v, rs[..|rs| - 1], r);
      assert rs == rs[..|rs| - 1] + [rs[|rs| - 1]];
      hide FateOf;
    }
  }

  lemma StateIsAccounted(v: View, all: seq<Record>, l: Loaded)
    requires LoadState(v, all, l)
    ensures Accounted(v, all, l)
  {
    forall r ensures multiset(l.aggregate)[r] == if Eligible(v, r) && UpToDate(v, r) then multiset(all)[r] else 0 {
      FateMeans(v, r);
      CurrentMultiset(v, all, r);
    }
    forall f ensures Count(v, all, f) == |PlacesOf(v, all, f)| { CountIsPlaces(v, all, f); }
    forall i | 0 <= i < |all|
      ensures FateOf(v, all[i]) == ExcludedSynthetic <==> !Eligible(v, all[i]) && all[i].class_ == Synthetic
      ensures FateOf(v, all[i]) == ExcludedConflict <==> !Eligible(v, all[i]) && all[i].class_ == Conflict
      ensures FateOf(v, all[i]) == OutOfScope <==> !Eligible(v, all[i]) && all[i].class_ != Synthetic && all[i].class_ != Conflict
    {
      FateMeans(v, all[i]);
    }
    hide FateOf, Eligible, UpToDate, Count, CurrentRecords, CellsState, VersionsState, SumCells;
    assert PlacesOf(v, all, ExcludedSynthetic) == set i | 0 <= i < |all| && !Eligible(v, all[i]) && all[i].class_ == Synthetic;
    assert PlacesOf(v, all, ExcludedConflict) == set i | 0 <= i < |all| && !Eligible(v, all[i]) && all[i].class_ == Conflict;
    assert PlacesOf(v, all, OutOfScope)
        == set i | 0 <= i < |all| && !Eligible(v, all[i]) && all[i].class_ != Synthetic && all[i].class_ != Conflict;
  }

  /** In the benchmark's scope no synthetic or conflicting run, no outdated one and no reserved agent's is aggregated. */
  lemma BenchmarkIsClean(v: View, all: seq<Record>, l: Loaded, r: Record)
    requires v.scope == Benchmark && LoadState(v, all, l) && r in l.aggregate
    ensures r in all && (r.class_ == Real || r.class_ == LegacyClass) && r.agent !in v.reserved
    ensures r.task in v.currentVersions && r.version == v.currentVersions[r.task]
  {
    StateIsAccounted(v, all, l);
    hide LoadState;
    assert multiset(l.aggregate)[r] > 0;
  }

  lemma NothingLoaded(v: View, l: Loaded)
    requires l == Loaded([], map[], 0, 0, 0, 0, Exclusions([], map[]), map[])
    ensures LoadState(v, [], l)
  {
  }

  /** The refusal to pool two versions of one cell can never fire: the aggregate holds current records only. */
  lemma NeverRefused(v: View, done: seq<Record>, l: Loaded)
    requires LoadState(v, done, l)
    ensures forall c :: c in l.cellVersions ==> |l.cellVersions[c]| == 1
  {
    OnlyCurrentInAggregate(v, done);
    forall c | c in l.cellVersions ensures |l.cellVersions[c]| == 1 {
      var r :| r in l.aggregate && CellOf(r) == c;
      SameVersions(v, l.aggregate, r);
    }
  }

  lemma SameVersions(v: View, aggregate: seq<Record>, r: Record)
    requires r in aggregate && forall s :: s in aggregate ==> IsCurrent(v, s)
    ensures |VersionsIn(aggregate, CellOf(r))| == 1
  {
    var versions := VersionsIn(aggregate, CellOf(r));
    forall x: int | x in versions ensures x == r.version {
      var s :| s in aggregate && CellOf(s) == CellOf(r) && s.version == x;
    }
    assert r.version in versions;
    OneElement(versions, r.version);
  }

  /** The current and the historical runs the loader counted for these agents. */
  function CurrentRunsOf(evidence: map<AgentName, AgentEvidence>, agents: seq<AgentName>): nat {
    if agents == [] then 0
    else
      var last: AgentName := agents[|agents| - 1];
      CurrentRunsOf(evidence, agents[..|agents| - 1]) + if last in evidence then evidence[last].currentRuns else 0
  }

  function HistoricalRunsOf(evidence: map<AgentName, AgentEvidence>, agents: seq<AgentName>): nat {
    if agents == [] then 0
    else
      var last: AgentName := agents[|agents| - 1];
      HistoricalRunsOf(evidence, agents[..|agents| - 1]) + if last in evidence then evidence[last].historicalRuns else 0
  }

  /** The loader's own per-agent counters add up to the records of each fate. */
  lemma {:induction false} EvidenceSums(v: View, disk: Disk, evidence: map<AgentName, AgentEvidence>, n: nat)
    requires ValidDisk(disk) && n <= |disk.agents| && EvidenceState(v, disk, disk.agents, evidence)
    ensures CurrentRunsOf(evidence, disk.agents[..n]) == Count(v, Projected(disk, n), Current)
    ensures HistoricalRunsOf(evidence, disk.agents[..n]) == Count(v, Projected(disk, n), Historical)
  {
    hide EvidenceState;
    if n > 0 {
      EvidenceSums(v, disk, evidence, n - 1);
      ProjectedNext(disk, n - 1);
      var agent: AgentName := disk.agents[n - 1];
      assert agent in disk.agents && disk.agents[..n][..n - 1] == disk.agents[..n - 1];
      CountJoin(v, Projected(disk, n - 1), disk.loads[agent], Current);
      CountJoin(v, Projected(disk, n - 1), disk.loads[agent], Historical);
      OneAgentsRuns(v, disk, evidence, agent);
      hide Count, Projected, TasksOf;
    }
  }

  lemma OneAgentsRuns(v: View, disk: Disk, evidence: map<AgentName, AgentEvidence>, agent: AgentName)
    requires ValidDisk(disk) && agent in disk.agents && EvidenceState(v, disk, disk.agents, evidence)
    ensures agent in disk.loads
    ensures Count(v, disk.loads[agent], Current) == if agent in evidence then evidence[agent].currentRuns else 0
    ensures Count(v, disk.loads[agent], Historical) == if agent in evidence then evidence[agent].historicalRuns else 0
  {
    hide Count, TasksOf;
  }

  lemma UnaccountedApart(v: View, done: seq<Record>, l: Loaded, n: nat)
    requires LoadState(v, done, l)
    ensures LoadState(v, done, l.(unaccounted := n))
  {
  }

  // ---- report_combined.py ----------------------------------------------------------------

  datatype Report = Report(
    models: seq<AgentName>, realCounts: map<AgentName, (nat, nat)>, historical: nat, excluded: nat, store: seq<Record>)

  function Scoped(v: View, rs: seq<Record>): seq<Record> {
    if rs == [] then [] else Scoped(v, rs[..|rs| - 1]) + if Counted(v, rs[|rs| - 1]) then [rs[|rs| - 1]] else []
  }

  function OnlyCurrent(v: View, rs: seq<Record>): seq<Record> {
    if rs == [] then [] else OnlyCurrent(v, rs[..|rs| - 1]) + if IsCurrent(v, rs[|rs| - 1]) then [rs[|rs| - 1]] else []
  }

  function Tasks(rs: seq<Record>): set<TaskId> {
    if rs == [] then {} else Tasks(rs[..|rs| - 1]) + {rs[|rs| - 1].task}
  }

  lemma TasksNext(rs: seq<Record>, r: Record)
    ensures Tasks(rs + [r]) == Tasks(rs) + {r.task}
  {
    assert (rs + [r])[..|rs|] == rs;
  }

  lemma ScopedNext(v: View, rs: seq<Record>, r: Record)
    ensures Scoped(v, rs + [r]) == if Counted(v, r) then Scoped(v, rs) + [r] else Scoped(v, rs)
    ensures OnlyCurrent(v, rs + [r]) == if IsCurrent(v, r) then OnlyCurrent(v, rs) + [r] else OnlyCurrent(v, rs)
    ensures CurrentRecords(v, rs + [r]) == if FateOf(v, r).Current? then CurrentRecords(v, rs) + [r] else CurrentRecords(v, rs)
  {
    assert (rs + [r])[..|rs|] == rs;
  }

  /** The comprehensions of the report count what the loader's counters count. */
  lemma {:induction false} ScopedCounts(v: View, rs: seq<Record>)
    ensures |OnlyCurrent(v, Scoped(v, rs))| == Count(v, rs, Current)
    ensures |Scoped(v, rs)| == Count(v, rs, Current) + Count(v, rs, Historical)
    ensures |rs| - |Scoped(v, rs)| == Count(v, rs, ExcludedSynthetic) + Count(v, rs, ExcludedConflict) + Count(v, rs, OutOfScope)
    ensures Tasks(OnlyCurrent(v, Scoped(v, rs))) == TasksOf(v, rs, Current)
    ensures OnlyCurrent(v, Scoped(v, rs)) == CurrentRecords(v, rs)
  {
    if rs != [] {
      var last, rest := rs[|rs| - 1], rs[..|rs| - 1];
      ScopedCounts(v, rest);
      ScopedCountsNext(v, rest, last);
      assert rs == rest + [last];
    }
  }

  lemma ScopedCountsNext(v: View, rest: seq<Record>, last: Record)
    requires |OnlyCurrent(v, Scoped(v, rest))| == Count(v, rest, Current)
    requires |Scoped(v, rest)| == Count(v, rest, Current) + Count(v, rest, Historical)
    requires |rest| - |Scoped(v, rest)|
             == Count(v, rest, ExcludedSynthetic) + Count(v, rest, ExcludedConflict) + Count(v, rest, OutOfScope)
    requires Tasks(OnlyCurrent(v, Scoped(v, rest))) == TasksOf(v, rest, Current)
    requires OnlyCurrent(v, Scoped(v, rest)) == CurrentRecords(v, rest)
    ensures var rs := rest + [last];
      && |OnlyCurrent(v, Scoped(v, rs))| == Count(v, rs, Current)
      && |Scoped(v, rs)| == Count(v, rs, Current) + Count(v, rs, Historical)
      && |rs| - |Scoped(v, rs)| == Count(v, rs, ExcludedSynthetic) + Count(v, rs, ExcludedConflict) + Count(v, rs, OutOfScope)
      && Tasks(OnlyCurrent(v, Scoped(v, rs))) == TasksOf(v, rs, Current)
      && OnlyCurrent(v, Scoped(v, rs)) == CurrentRecords(v, rs)
  {
    CountNext(v, rest, last);
    ScopedNext(v, rest, last);
    ScopedNext(v, Scoped(v, rest), last);
    TasksNext(OnlyCurrent(v, Scoped(v, rest)), last);
    hide Count, TasksOf, Tasks, Scoped, OnlyCurrent, CurrentRecords;
  }

  /** The second loop: one agent's scoped records go to the store or are historical. */
  method AddScoped(v: View, scoped: seq<Record>, store: seq<Record>, historical: nat) returns (store': seq<Record>, historical': nat)
    ensures store' == store + OnlyCurrent(v, scoped)
    ensures historical' == historical + |scoped| - |OnlyCurrent(v, scoped)|
  {
    store', historical' := store, historical;
    for i := 0 to |scoped|
      invariant store' == store + OnlyCurrent(v, scoped[..i])
      invariant historical' == historical + i - |OnlyCurrent(v, scoped[..i])|
    {
      assert scoped[..i + 1][..i] == scoped[..i];
      if scoped[i].task in v.currentVersions && v.currentVersions[scoped[i].task] == scoped[i].version {
        store' := store' + [scoped[i]];
      } else {
        historical' := historical' + 1;
      }
    }
    assert scoped[..|scoped|] == scoped;
  }

  function CurrentOf(v: View, disk: Disk, a: AgentName): seq<Record>
    requires a in disk.loads
  {
    OnlyCurrent(v, Scoped(v, disk.loads[a]))
  }

  /** What the report's totals are after the records `done`. */
  ghost predicate ReportState(v: View, done: seq<Record>, historical: nat, excluded: nat, store: seq<Record>) {
    && historical == Count(v, done, Historical) && store == CurrentRecords(v, done)
    && excluded == Count(v, done, ExcludedSynthetic) + Count(v, done, ExcludedConflict) + Count(v, done, OutOfScope)
  }

  /** The agents with a counted record, in the order they come in. */
  function CountedAgents(v: View, disk: Disk, n: nat): (agents: seq<AgentName>)
    requires ValidDisk(disk) && n <= |disk.agents|
  {
    if n == 0 then []
    else
      var agent: AgentName := disk.agents[n - 1];
      assert agent in disk.agents;
      CountedAgents(v, disk, n - 1) + if AnyCounted(v, disk.loads[agent]) then [agent] else []
  }

  lemma {:induction false} CountedAgentsAre(v: View, disk: Disk, n: nat)
    requires ValidDisk(disk) && n <= |disk.agents| && Distinct(disk.agents)
    ensures forall a: AgentName :: a in CountedAgents(v, disk, n) <==> a in disk.agents[..n] && a in disk.loads && AnyCounted(v, disk.loads[a])
    ensures Distinct(CountedAgents(v, disk, n))
  {
    if n > 0 {
      CountedAgentsAre(v, disk, n - 1);
      var agent: AgentName := disk.agents[n - 1];
      assert agent in disk.agents && disk.agents[..n] == disk.agents[..n - 1] + [agent];
      assert agent !in disk.agents[..n - 1];
    }
  }

  ghost predicate CountsState(v: View, disk: Disk, agents: seq<AgentName>, counts: map<AgentName, (nat, nat)>)
    requires forall a :: a in agents ==> a in disk.loads
  {
    && (forall a: AgentName :: a in counts ==> a in agents && counts[a] == (|CurrentOf(v, disk, a)|, |Tasks(CurrentOf(v, disk, a))|))
    && (forall a: AgentName :: a in agents ==> (a in counts <==> AnyCounted(v, disk.loads[a])))
  }

  /** One agent of the report's outer loop. */
  method ReportAgent(v: View, everything: seq<Record>, historical: nat, excluded: nat, store: seq<Record>, ghost done: seq<Record>)
    returns (count: Option<(nat, nat)>, historical': nat, excluded': nat, store': seq<Record>)
    requires ReportState(v, done, historical, excluded, store)
    ensures ReportState(v, done + everything, historical', excluded', store')
    ensures count.Some? <==> AnyCounted(v, everything)
    ensures count.Some? ==>
      var current := OnlyCurrent(v, Scoped(v, everything)); count.value == (|current|, |Tasks(current)|)
  {
    ScopedCounts(v, everything);
    JoinAll(v, done, everything);
    hide Count, CurrentRecords, OnlyCurrent, Scoped, Tasks;
    var scoped := Scoped(v, everything);
    count, historical', excluded', store' := None, historical, excluded + (|everything| - |scoped|), store;
    if scoped != [] {
      var current := OnlyCurrent(v, scoped);
      count := Some((|current|, |Tasks(current)|));
      store', historical' := AddScoped(v, scoped, store, historical);
    } else {
      NoneCurrent(v);
      assert store + [] == store;
    }
  }

  lemma NoneCurrent(v: View)
    ensures OnlyCurrent(v, []) == []
  {
  }

  /** build_report, up to the synthetic baselines. */
  method BuildReport(v: View, disk: Disk) returns (r: Report)
    requires ValidDisk(disk) && Distinct(disk.agents)
    ensures CountsState(v, disk, disk.agents, r.realCounts)
    ensures ReportState(v, AllProjected(disk), r.historical, r.excluded, r.store)
    ensures r.models == CountedAgents(v, disk, |disk.agents|)
    ensures Distinct(r.models) && forall a: AgentName :: a in r.models <==> a in r.realCounts
  {
    NoReport(v, disk);
    hide ReportState, CountsState, OnlyCurrent, Scoped, Tasks, Projected, Count;
    var models, historical, excluded, store := [], 0, 0, [];
    var counts: map<AgentName, (nat, nat)> := map[];
    for n := 0 to |disk.agents|
      invariant CountsState(v, disk, disk.agents[..n], counts)
      invariant ReportState(v, Projected(disk, n), historical, excluded, store)
      invariant models == CountedAgents(v, disk, n)
    {
      var agent: AgentName := disk.agents[n];
      ProjectedNext(disk, n);
      var count;
      count, historical, excluded, store := ReportAgent(v, disk.loads[agent], historical, excluded, store, Projected(disk, n));
      CountsNext(v, disk, n, counts, count);
      if count.Some? {
        models := models + [agent];
        counts := counts[agent := count.value];
      }
    }
    assert disk.agents[..|disk.agents|] == disk.agents;
    r := Report(models, counts, historical, excluded, store);
    CountedAgentsAre(v, disk, |disk.agents|);
    CountedKeys(v, disk, counts);
  }

  lemma CountedKeys(v: View, disk: Disk, counts: map<AgentName, (nat, nat)>)
    requires ValidDisk(disk) && CountsState(v, disk, disk.agents, counts)
    ensures forall a: AgentName :: a in counts <==> a in disk.agents && a in disk.loads && AnyCounted(v, disk.loads[a])
  {
  }

  lemma NoReport(v: View, disk: Disk)
    requires ValidDisk(disk)
    ensures ReportState(v, Projected(disk, 0), 0, 0, []) && CountsState(v, disk, [], map[])
  {
  }

  lemma CountsNext(v: View, disk: Disk, n: nat, counts: map<AgentName, (nat, nat)>, count: Option<(nat, nat)>)
    requires ValidDisk(disk) && Distinct(disk.agents) && n < |disk.agents| && disk.agents[n] in disk.loads
    requires CountsState(v, disk, disk.agents[..n], counts)
    requires var current := CurrentOf(v, disk, disk.agents[n]);
      && (count.Some? <==> AnyCounted(v, disk.loads[disk.agents[n]]))
      && (count.Some? ==> count.value == (|current|, |Tasks(current)|))
    ensures CountsState(v, disk, disk.agents[..n + 1],
                        if count.Some? then counts[disk.agents[n] := count.value] else counts)
  {
    hide OnlyCurrent, Scoped, Tasks, AnyCounted;
    var agent: AgentName := disk.agents[n];
    assert disk.agents[..n + 1] == disk.agents[..n] + [agent];
    assert agent in disk.agents && agent !in disk.agents[..n];
  }

  lemma ProjectedNext(disk: Disk, n: nat)
    requires ValidDisk(disk) && n < |disk.agents|
    ensures disk.agents[n] in disk.loads && Projected(disk, n + 1) == Projected(disk, n) + disk.loads[disk.agents[n]]
  {
    var agent: AgentName := disk.agents[n];
    assert agent in disk.agents;
  }

  lemma JoinAll(v: View, rs: seq<Record>, ts: seq<Record>)
    ensures forall f :: Count(v, rs + ts, f) == Count(v, rs, f) + Count(v, ts, f)
    ensures CurrentRecords(v, rs + ts) == CurrentRecords(v, rs) + CurrentRecords(v, ts)
  {
    forall f ensures Count(v, rs + ts, f) == Count(v, rs, f) + Count(v, ts, f) { CountJoin(v, rs, ts, f); }
    CurrentJoin(v, rs, ts);
  }

  lemma {:induction false} CurrentJoin(v: View, rs: seq<Record>, ts: seq<Record>)
    ensures CurrentRecords(v, rs + ts) == CurrentRecords(v, rs) + CurrentRecords(v, ts)
  {
    if ts == [] {
      assert rs + ts == rs;
    } else {
      assert (rs + ts)[..|rs + ts| - 1] == rs + ts[..|ts| - 1];
      CurrentJoin(v, rs, ts[..|ts| - 1]);
    }
  }

  // ---- Conservation and agreement --------------------------------------------------------

  /** load_runs joins each run with its score and its diff. */
  predicate Projectable(db: Db, r: RunId) {
    r in db.runs && db.runs[r].scored && db.runs[r].diffed
  }

  /** The snapshot is one of this database: each agent with runs once, and for it each scored and diffed run once. */
  ghost predicate SnapshotOf(disk: Disk, db: Db) {
    && ValidDisk(disk) && Distinct(disk.agents) && disk.total == |db.runs|
    && (forall a :: a in disk.agents ==> Distinct(disk.loads[a]))
    && (forall a, r :: a in disk.agents && r in disk.loads[a] ==> Projectable(db, r.id) && r == RecordOf(db, r.id, r.class_))
    && (forall a, r, s :: a in disk.agents && r in disk.loads[a] && s in disk.loads[a] && r.id == s.id ==> r == s)
    && (forall r :: Projectable(db, r) ==> Returned(disk, db.runs[r].agent, r))
  }

  predicate Returned(disk: Disk, a: AgentName, r: RunId) {
    a in disk.agents && a in disk.loads && exists record :: record in disk.loads[a] && record.id == r
  }

  function RecordOf(db: Db, r: RunId, class_: Class): Record
    requires r in db.runs
  {
    Record(r, db.runs[r].agent, db.runs[r].task, db.runs[r].version, class_)
  }

  lemma {:induction false} ProjectedDistinct(disk: Disk, db: Db, n: nat)
    requires SnapshotOf(disk, db) && n <= |disk.agents|
    ensures Distinct(Projected(disk, n))
    ensures forall r :: r in Projected(disk, n) ==> r.agent in disk.agents[..n] && r in disk.loads[r.agent]
  {
    if n > 0 {
      ProjectedDistinct(disk, db, n - 1);
      var agent := disk.agents[n - 1];
      assert agent in disk.agents && disk.agents[..n] == disk.agents[..n - 1] + [agent];
      var rest, own := Projected(disk, n - 1), disk.loads[agent];
      forall i, j | 0 <= i < |rest| && 0 <= j < |own| ensures rest[i] != own[j] {
        assert rest[i] in rest && own[j] in own && agent !in disk.agents[..n - 1];
      }
    }
  }

  lemma {:induction false} ProjectedHas(disk: Disk, n: nat, a: AgentName, r: Record)
    requires ValidDisk(disk) && n <= |disk.agents| && a in disk.agents[..n] && a in disk.loads && r in disk.loads[a]
    ensures r in Projected(disk, n)
  {
    if n > 0 {
      assert disk.agents[..n] == disk.agents[..n - 1] + [disk.agents[n - 1]];
      if a in disk.agents[..n - 1] { ProjectedHas(disk, n - 1, a, r); }
    }
  }

  function Ids(rs: seq<Record>): (ids: seq<RunId>)
    ensures |ids| == |rs| && forall i :: 0 <= i < |rs| ==> ids[i] == rs[i].id
  {
    seq(|rs|, i requires 0 <= i < |rs| => rs[i].id)
  }

  /** The projected records are the scored and diffed runs, one each. */
  lemma ProjectedAreProjectable(disk: Disk, db: Db)
    requires SnapshotOf(disk, db)
    ensures Distinct(Ids(AllProjected(disk)))
    ensures forall r: RunId :: r in Ids(AllProjected(disk)) <==> Projectable(db, r)
  {
    var all := AllProjected(disk);
    var ids := Ids(all);
    ProjectedDistinct(disk, db, |disk.agents|);
    assert disk.agents[..|disk.agents|] == disk.agents;
    forall i, j | 0 <= i < j < |ids| ensures ids[i] != ids[j] {
      assert all[i] in all && all[j] in all;
    }
    forall r: RunId | r in ids ensures Projectable(db, r) {
      var i :| 0 <= i < |ids| && ids[i] == r;
      assert all[i] in all;
    }
    forall r: RunId | Projectable(db, r) ensures r in ids {
      var a: AgentName := db.runs[r].agent;
      assert Returned(disk, a, r);
      var record :| record in disk.loads[a] && record.id == r;
      ProjectedHas(disk, |disk.agents|, a, record);
      var i :| 0 <= i < |all| && all[i] == record;
      assert ids[i] == r;
    }
  }

  /** So the records missing from the projection are exactly the run rows without a score or a diff. */
  lemma UnaccountedHaveNoScoreOrDiff(disk: Disk, db: Db)
    requires SnapshotOf(disk, db)
    ensures |AllProjected(disk)| + |set r | r in db.runs && !Projectable(db, r)| == |db.runs|
  {
    var ids := Ids(AllProjected(disk));
    ProjectedAreProjectable(disk, db);
    DistinctSize(ids);
    var rest := set r | r in db.runs && !Projectable(db, r);
    SplitSize(db.runs.Keys, Elements(ids), rest);
  }

  lemma SplitSize<T>(all: set<T>, a: set<T>, b: set<T>)
    requires forall x :: x in all <==> x in a || x in b
    requires forall x :: x in a ==> x !in b
    ensures |all| == |a| + |b|
  {
    assert all == a + b;
  }

  /** Every run row of the database is accounted for exactly once, by the loader's own counters: the runs of each agent, current
      and historical, the excluded ones and the unaccounted ones. */
  lemma EveryRunIsAccountedFor(v: View, disk: Disk, db: Db, l: Loaded)
    requires SnapshotOf(disk, db) && LoadState(v, AllProjected(disk), l) && EvidenceState(v, disk, disk.agents, l.evidence)
    requires l.unaccounted == if disk.total > |AllProjected(disk)| then disk.total - |AllProjected(disk)| else 0
    ensures CurrentRunsOf(l.evidence, disk.agents) + HistoricalRunsOf(l.evidence, disk.agents)
            + l.excludedSynthetic + l.excludedConflict + l.outOfScope + l.unaccounted == |db.runs|
    ensures forall a: AgentName :: a in l.evidence ==> a in disk.agents
    ensures |l.aggregate| == CurrentRunsOf(l.evidence, disk.agents)
    ensures l.unaccounted == |set r | r in db.runs && !Projectable(db, r)|
    ensures SumCells(l.excludedCells.cells, l.excludedCells.at) == CellExclusions(l.excludedSynthetic, l.excludedConflict, l.outOfScope)
  {
    var all := AllProjected(disk);
    UnaccountedHaveNoScoreOrDiff(disk, db);
    FatesPartition(v, all);
    ScopedCounts(v, all);
    EvidenceSums(v, disk, l.evidence, |disk.agents|);
    assert disk.agents[..|disk.agents|] == disk.agents;
    hide Count, Projected, CurrentRecords, CellsState, VersionsState;
  }

  /** Both implementations agree on every snapshot: the same agents with the same current counts, and the same historical and
      excluded totals and aggregates. */
  method CompareLoaders(v: View, disk: Disk) returns (l: Loaded, r: Report)
    requires ValidDisk(disk) && Distinct(disk.agents)
    ensures forall a: AgentName :: a in l.evidence ==> a in disk.agents
    ensures forall a: AgentName :: a in r.realCounts <==> a in l.evidence
    ensures Distinct(r.models) && forall a: AgentName :: a in r.models <==> a in l.evidence
    ensures forall a: AgentName :: a in l.evidence ==>
      a in r.realCounts && r.realCounts[a] == (l.evidence[a].currentRuns, |l.evidence[a].currentTasks|)
    ensures r.historical == HistoricalRunsOf(l.evidence, disk.agents)
    ensures r.excluded == l.excludedSynthetic + l.excludedConflict + l.outOfScope
    ensures r.store == l.aggregate && |r.store| == CurrentRunsOf(l.evidence, disk.agents)
    ensures |r.store| + r.historical + r.excluded == |AllProjected(disk)|
  {
    var refused;
    l, refused := LoadStores(v, disk);
    r := BuildReport(v, disk);
    forall a: AgentName | a in l.evidence
      ensures a in r.realCounts && r.realCounts[a] == (l.evidence[a].currentRuns, |l.evidence[a].currentTasks|)
    {
      ScopedCounts(v, disk.loads[a]);
    }
    FatesPartition(v, AllProjected(disk));
    ScopedCounts(v, AllProjected(disk));
    EvidenceSums(v, disk, l.evidence, |disk.agents|);
    assert disk.agents[..|disk.agents|] == disk.agents;
  }
}
