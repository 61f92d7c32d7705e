/** campaigns/afa_campaign/ledger.py: the ownership record, in memory and as last saved. */
module LedgerStore {
  import opened Wrappers
  import opened Tables
  import opened Campaign

  datatype LedgerError =
    | OwnedTwice | TwoActiveEntries | DisownedTwice | OwnedAndDisowned
    | WrongCampaign | ManifestChanged | AlreadyActive | NoActiveEntry | NotSupersedable | ReasonRequired | IsOwned

  // ---- What every saved ledger satisfies -------------------------------------------------

  predicate OneActivePerCell(entries: seq<Entry>) {
    forall i, j :: 0 <= i < j < |entries| && Active(entries[i]) && Active(entries[j]) ==> !SameCell(entries[i].cell, entries[j].cell)
  }

  predicate IdsOnce(entries: seq<Entry>) {
    forall i, j :: 0 <= i < j < |entries| && entries[i].id.Some? && entries[j].id.Some? ==> entries[i].id != entries[j].id
  }

  predicate NoRepeats(ids: seq<EvalId>) {
    forall i, j :: 0 <= i < j < |ids| ==> ids[i] != ids[j]
  }

  ghost predicate LedgerInv(l: LedgerData) {
    OneActivePerCell(l.entries) && IdsOnce(l.entries) && NoRepeats(l.disowned) && IdsOf(l) !! DisownedIds(l)
  }

  predicate IsActiveFor(l: LedgerData, i: nat, cell: Cell) {
    i < |l.entries| && Active(l.entries[i]) && SameCell(l.entries[i].cell, cell)
  }

  // ---- Ledger changes --------------------------------------------------------------------

  function NoFacts(): Facts {
    Facts(None, None, None, None, false, false, false, false, false)
  }

  function FreshEntry(cell: Cell): Entry {
    Entry(cell, None, Submitting, [], NoFacts(), None, 0)
  }

  function WithEntry(l: LedgerData, entry: Entry): LedgerData {
    l.(entries := l.entries + [entry])
  }

  function WithUpdate(l: LedgerData, i: nat, entry: Entry): LedgerData
    requires i < |l.entries|
  {
    l.(entries := l.entries[i := entry])
  }

  function WithoutEntry(l: LedgerData, i: nat): LedgerData
    requires i < |l.entries|
  {
    l.(entries := l.entries[..i] + l.entries[i + 1..])
  }

  function WithDisowned(l: LedgerData, id: EvalId): LedgerData {
    l.(disowned := l.disowned + [id])
  }

  predicate Supersedable(entry: Entry, refusals: nat) {
    || entry.state.NeedsAttention? || entry.state.EntryFailed? || entry.state.EntryCanceled? || entry.state.Rejected?
    || (entry.state.Accepted? && refusals > 0)
  }

  function SupersededEntry(entry: Entry, refusals: nat): Entry {
    entry.(state := Superseded, refusals := if entry.state.Accepted? then refusals else entry.refusals)
  }

  lemma IdsOfHas(l: LedgerData, i: nat)
    requires i < |l.entries| && l.entries[i].id.Some?
    ensures l.entries[i].id.value in IdsOf(l)
  {
  }

  lemma NewEntryKeeps(l: LedgerData, entry: Entry)
    requires LedgerInv(l) && (forall i :: !IsActiveFor(l, i, entry.cell)) && entry.id.None?
    ensures LedgerInv(WithEntry(l, entry)) && IdsOf(WithEntry(l, entry)) == IdsOf(l)
  {
    var t := WithEntry(l, entry);
    forall i | 0 <= i < |l.entries| && Active(l.entries[i]) ensures !SameCell(l.entries[i].cell, entry.cell) {
      assert !IsActiveFor(l, i, entry.cell);
    }
    assert forall i :: 0 <= i < |l.entries| ==> t.entries[i] == l.entries[i];
    forall e | e in IdsOf(t) ensures e in IdsOf(l) {
      var i :| 0 <= i < |t.entries| && t.entries[i].id == Some(e);
      assert i < |l.entries|;
    }
    forall e | e in IdsOf(l) ensures e in IdsOf(t) {
      var i :| 0 <= i < |l.entries| && l.entries[i].id == Some(e);
      assert t.entries[i].id == Some(e);
    }
  }

  /** An update of one entry that keeps its cell, does not re-activate it, and records no id known already. */
  lemma UpdateKeeps(l: LedgerData, i: nat, entry: Entry)
    requires LedgerInv(l) && i < |l.entries| && entry.cell == l.entries[i].cell && (Active(entry) ==> Active(l.entries[i]))
    requires entry.id == l.entries[i].id || (entry.id.Some? && entry.id.value !in KnownIds(l))
    ensures LedgerInv(WithUpdate(l, i, entry))
    ensures IdsOf(WithUpdate(l, i, entry)) <= IdsOf(l) + if entry.id.Some? then {entry.id.value} else {}
    ensures l.entries[i].id.None? || entry.id == l.entries[i].id ==> IdsOf(l) <= IdsOf(WithUpdate(l, i, entry))
  {
    var t := WithUpdate(l, i, entry);
    forall j | 0 <= j < |l.entries| && l.entries[j].id.Some? ensures l.entries[j].id.value in IdsOf(l) { IdsOfHas(l, j); }
    forall e | e in IdsOf(t) ensures e in IdsOf(l) || entry.id == Some(e) {
      var j :| 0 <= j < |t.entries| && t.entries[j].id == Some(e);
      if j != i { assert l.entries[j].id == Some(e); }
    }
    if l.entries[i].id.None? || entry.id == l.entries[i].id {
      forall e | e in IdsOf(l) ensures e in IdsOf(t) {
        var j :| 0 <= j < |l.entries| && l.entries[j].id == Some(e);
        assert t.entries[j].id == Some(e);
      }
    }
  }

  lemma RemoveKeeps(l: LedgerData, i: nat)
    requires LedgerInv(l) && i < |l.entries| && l.entries[i].id.None?
    ensures LedgerInv(WithoutEntry(l, i)) && IdsOf(WithoutEntry(l, i)) == IdsOf(l)
  {
    var t := WithoutEntry(l, i);
    assert forall j :: 0 <= j < |t.entries| ==> t.entries[j] == l.entries[if j < i then j else j + 1];
    forall e | e in IdsOf(t) ensures e in IdsOf(l) {
      var j :| 0 <= j < |t.entries| && t.entries[j].id == Some(e);
      assert l.entries[if j < i then j else j + 1].id == Some(e);
    }
    forall e | e in IdsOf(l) ensures e in IdsOf(t) {
      var j :| 0 <= j < |l.entries| && l.entries[j].id == Some(e);
      assert t.entries[if j < i then j else j - 1].id == Some(e);
    }
  }

  lemma DisownKeeps(l: LedgerData, id: EvalId)
    requires LedgerInv(l) && id !in KnownIds(l)
    ensures LedgerInv(WithDisowned(l, id)) && IdsOf(WithDisowned(l, id)) == IdsOf(l)
    ensures DisownedIds(WithDisowned(l, id)) == DisownedIds(l) + {id}
  {
    var t := WithDisowned(l, id);
    forall i | 0 <= i < |l.disowned| ensures l.disowned[i] in DisownedIds(l) {}
    forall e | e in DisownedIds(t) ensures e in DisownedIds(l) + {id} {
      var i :| 0 <= i < |t.disowned| && t.disowned[i] == e;
      if i < |l.disowned| { assert l.disowned[i] == e; }
    }
    forall e | e in DisownedIds(l) + {id} ensures e in DisownedIds(t) {
      if e == id {
        assert t.disowned[|l.disowned|] == e;
      } else {
        var i :| 0 <= i < |l.disowned| && l.disowned[i] == e;
        assert t.disowned[i] == e;
      }
    }
  }

  function Key2(e: Entry): (AgentName, TaskId) {
    (e.cell.model, e.cell.task)
  }

  /** Where each evaluation id is owned, up to the first id that is owned twice. */
  ghost predicate Owners(entries: seq<Entry>, owner: map<EvalId, nat>) {
    && (forall id :: id in owner ==> owner[id] < |entries| && entries[owner[id]].id == Some(id))
    && (forall j :: 0 <= j < |entries| && entries[j].id.Some? ==> entries[j].id.value in owner)
  }

  lemma OwnersNext(entries: seq<Entry>, e: Entry, owner: map<EvalId, nat>)
    requires Owners(entries, owner)
    ensures e.id.None? ==> Owners(entries + [e], owner)
    ensures e.id.Some? ==> Owners(entries + [e], owner[e.id.value := |entries|])
    ensures IdsOnce(entries) ==> (IdsOnce(entries + [e]) <==> e.id.None? || e.id.value !in owner)
  {
    var more := entries + [e];
    if e.id.Some? {
      var id: EvalId := e.id.value;
      if id in owner { assert more[owner[id]].id == more[|entries|].id; }
    }
  }

  /** The single pass of _check_invariants over the entries. */
  method ScanEntries(entries: seq<Entry>) returns (ownedTwice: bool, doubled: bool, owner: map<EvalId, nat>)
    ensures ownedTwice <==> !IdsOnce(entries)
    ensures !ownedTwice ==> Owners(entries, owner) && (doubled <==> !OneActivePerCell(entries))
  {
    var seen: set<(AgentName, TaskId)> := {};
    ownedTwice, doubled, owner := false, false, map[];
    for i := 0 to |entries|
      invariant forall c :: c in seen <==> exists j :: 0 <= j < i && Active(entries[j]) && Key2(entries[j]) == c
      invariant doubled <==> !OneActivePerCell(entries[..i])
      invariant Owners(entries[..i], owner) && IdsOnce(entries[..i])
    {
      assert entries[..i + 1] == entries[..i] + [entries[i]];
      var e := entries[i];
      if Active(e) {
        if Key2(e) in seen { doubled := true; }
        seen := seen + {Key2(e)};
      }
      OwnersNext(entries[..i], e, owner);
      hide IdsOnce, Owners;
      if e.id.Some? {
        if e.id.value in owner {
          OwnedTwiceStays(entries, i + 1);
          return true, doubled, owner;
        }
        owner := owner[e.id.value := i];
      }
    }
    assert entries[..|entries|] == entries;
  }

  lemma OwnedTwiceStays(entries: seq<Entry>, n: nat)
    requires n <= |entries| && !IdsOnce(entries[..n])
    ensures !IdsOnce(entries)
  {
    var i, j :| 0 <= i < j < n && entries[i].id.Some? && entries[j].id.Some? && entries[i].id == entries[j].id;
  }

  // ---- The ledger object -----------------------------------------------------------------

  /** Which campaign a document belongs to, and the digest of the plan it was created for. */
  datatype Header = Header(campaign: int, manifest: int)

  class Ledger {
    const header: Header
    var entries: seq<Entry>
    var disowned: seq<EvalId>
    /** The document on disk. */
    var saved: LedgerData

    function Data(): LedgerData
      reads this
    {
      LedgerData(entries, disowned)
    }

    constructor (header: Header)
      ensures this.header == header && Data() == saved == LedgerData([], []) && LedgerInv(Data())
    {
      this.header := header;
      entries, disowned, saved := [], [], LedgerData([], []);
    }

    /** A restarted process reads the document back, unsaved changes are gone; it refuses one that belongs to another campaign,
        was created for another plan, or breaks an invariant. */
    method Load(campaign: Option<int>, manifest: Option<int>) returns (error: Option<LedgerError>)
      modifies `entries, `disowned
      ensures error.None? <==>
        && (campaign.Some? ==> campaign.value == header.campaign) && (manifest.Some? ==> manifest.value == header.manifest)
        && LedgerInv(saved)
      ensures Data() == if error.None? then saved else old(Data())
    {
      if campaign.Some? && campaign.value != header.campaign { return Some(WrongCampaign); }
      if manifest.Some? && manifest.value != header.manifest { return Some(ManifestChanged); }
      var before := Data();
      entries, disowned := saved.entries, saved.disowned;
      error := CheckInvariants();
      if error.Some? { entries, disowned := before.entries, before.disowned; }
    }

    method CheckInvariants() returns (error: Option<LedgerError>)
      ensures error.None? <==> LedgerInv(Data())
    {
      var ownedTwice, doubled, owner := ScanEntries(entries);
      if ownedTwice { return Some(OwnedTwice); }
      if doubled { return Some(TwoActiveEntries); }
      if !NoRepeats(disowned) { return Some(DisownedTwice); }
      for i := 0 to |disowned|
        invariant forall j :: 0 <= j < i ==> disowned[j] !in owner
      {
        if disowned[i] in owner {
          assert disowned[i] in DisownedIds(Data());
          IdsOfHas(Data(), owner[disowned[i]]);
          return Some(OwnedAndDisowned);
        }
      }
      return None;
    }

    /** Refuses to write a document that breaks an invariant. */
    method Save() returns (ok: bool)
      modifies `saved
      ensures ok <==> LedgerInv(Data())
      ensures saved == if ok then Data() else old(saved)
    {
      var error := CheckInvariants();
      ok := error.None?;
      if ok { saved := Data(); }
    }

    method ActiveEntry(cell: Cell) returns (found: Option<nat>)
      ensures found.Some? ==> IsActiveFor(Data(), found.value, cell)
      ensures found.None? ==> forall i :: !IsActiveFor(Data(), i, cell)
    {
      for i := 0 to |entries|
        invariant forall j :: 0 <= j < i ==> !IsActiveFor(Data(), j, cell)
      {
        if Active(entries[i]) && SameCell(entries[i].cell, cell) { return Some(i); }
      }
      return None;
    }

    method NewEntry(cell: Cell) returns (result: Result<nat, LedgerError>)
      modifies `entries
      ensures result.Ok? <==> forall i :: !IsActiveFor(old(Data()), i, cell)
      ensures result.Ok? ==> result.value == |old(entries)| && Data() == WithEntry(old(Data()), FreshEntry(cell))
      ensures result.Err? ==> Data() == old(Data())
      ensures old(LedgerInv(Data())) ==> LedgerInv(Data())
    {
      var active := ActiveEntry(cell);
      if active.Some? { return Err(AlreadyActive); }
      if LedgerInv(Data()) { NewEntryKeeps(Data(), FreshEntry(cell)); }
      entries := entries + [FreshEntry(cell)];
      return Ok(|entries| - 1);
    }

    /** Marks the active entry replaced. An accepted entry only when the acceptance predicate refuses it. */
    method Supersede(cell: Cell, reasonGiven: bool, refusals: nat) returns (result: Result<nat, LedgerError>)
      modifies `entries
      ensures result.Err? ==> Data() == old(Data())
      ensures result.Ok? ==>
        && reasonGiven && IsActiveFor(old(Data()), result.value, cell) && Supersedable(old(entries)[result.value], refusals)
        && Data() == WithUpdate(old(Data()), result.value, SupersededEntry(old(entries)[result.value], refusals))
      ensures result.Ok? ==>
        && var was := old(entries)[result.value];
        && (was.state == Accepted ==> refusals > 0)
        && was.state in {NeedsAttention, EntryFailed, EntryCanceled, Rejected, Accepted}
        && entries == old(entries)[result.value := was.(state := EntryState.Superseded,
                                                        refusals := if was.state == Accepted then refusals else was.refusals)]
      ensures result.Err? ==>
        !reasonGiven || forall i: nat :: IsActiveFor(old(Data()), i, cell) ==> !old(LedgerInv(Data())) || !Supersedable(old(entries)[i], refusals)
      ensures old(LedgerInv(Data())) ==> LedgerInv(Data())
    {
      var active := ActiveEntry(cell);
      if active.None? { return Err(NoActiveEntry); }
      var i := active.value;
      if !Supersedable(entries[i], refusals) { return Err(NotSupersedable); }
      if !reasonGiven { return Err(ReasonRequired); }
      if LedgerInv(Data()) { UpdateKeeps(Data(), i, SupersededEntry(entries[i], refusals)); }
      entries := entries[i := SupersededEntry(entries[i], refusals)];
      return Ok(i);
    }

    method Disown(id: EvalId, reasonGiven: bool) returns (result: Result<EvalId, LedgerError>)
      modifies `disowned
      ensures result.Ok? <==> reasonGiven && id !in KnownIds(old(Data()))
      ensures result.Ok? ==> Data() == WithDisowned(old(Data()), id)
      ensures result.Err? ==> Data() == old(Data())
      ensures old(LedgerInv(Data())) ==> LedgerInv(Data())
    {
      if !reasonGiven { return Err(ReasonRequired); }
      if id in IdsOf(Data()) { return Err(IsOwned); }
      if id in DisownedIds(Data()) { return Err(DisownedTwice); }
      if LedgerInv(Data()) { DisownKeeps(Data(), id); }
      disowned := disowned + [id];
      return Ok(id);
    }
  }
}
