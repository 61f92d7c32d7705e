/**
 Launcher._settle_resumes: resume records whose outcome is unknown are matched to the application's own
 job_resumed events, first free event in the window first.
 */
module Settlement {
  import opened Wrappers
  import opened Tables
  import opened Campaign

  /** The two passes: resumes known to have run claim theirs first, with no end to their window. */
  datatype Pass = KnownToHaveRun | Ambiguous

  const WINDOW: int := 300

  predicate Claims(pass: Pass, r: Resume) {
    if pass.Ambiguous? then Unsettled(r) else r.outcome.Agreed? || r.outcome.Ran?
  }

  predicate InWindow(pass: Pass, r: Resume, event: Option<Time>) {
    event.Some? && (r.at.Some? ==>
      r.at.value - 1 <= event.value && (pass.Ambiguous? ==> event.value <= r.at.value + WINDOW))
  }

  /** Indices of the events whose time could be read. */
  function Readable(events: seq<Option<Time>>, n: nat): (free: seq<nat>)
    requires n <= |events|
    ensures forall i :: i in free <==> 0 <= i < n && events[i].Some?
    ensures Increasing(free) && forall j :: 0 <= j < |free| ==> free[j] < n
  {
    if n == 0 then [] else Readable(events, n - 1) + if events[n - 1].Some? then [n - 1] else []
  }

  predicate Increasing(free: seq<nat>) {
    forall i, j :: 0 <= i < j < |free| ==> free[i] < free[j]
  }

  predicate Indexes(free: seq<nat>, events: seq<Option<Time>>) {
    Increasing(free) && forall i :: 0 <= i < |free| ==> free[i] < |events| && events[free[i]].Some?
  }

  // ---- The first free event in a record's window -----------------------------------------

  /** Position in free of the event the record claims. */
  function FirstIn(pass: Pass, r: Resume, events: seq<Option<Time>>, free: seq<nat>): (p: Option<nat>)
    requires Indexes(free, events)
    ensures p.Some? ==> p.value < |free| && InWindow(pass, r, events[free[p.value]])
    ensures p.Some? ==> forall q :: 0 <= q < p.value ==> !InWindow(pass, r, events[free[q]])
    ensures p.None? ==> forall q :: 0 <= q < |free| ==> !InWindow(pass, r, events[free[q]])
  {
    FirstFrom(pass, r, events, free, 0)
  }

  function FirstFrom(pass: Pass, r: Resume, events: seq<Option<Time>>, free: seq<nat>, n: nat): (p: Option<nat>)
    requires Indexes(free, events) && n <= |free|
    ensures p.Some? ==> n <= p.value < |free| && InWindow(pass, r, events[free[p.value]])
    ensures p.Some? ==> forall q :: n <= q < p.value ==> !InWindow(pass, r, events[free[q]])
    ensures p.None? ==> forall q :: n <= q < |free| ==> !InWindow(pass, r, events[free[q]])
    decreases |free| - n
  {
    if n == |free| then None
    else if InWindow(pass, r, events[free[n]]) then Some(n)
    else FirstFrom(pass, r, events, free, n + 1)
  }

  function Without(free: seq<nat>, p: nat): (rest: seq<nat>)
    requires p < |free|
    ensures |rest| == |free| - 1
    ensures forall i :: 0 <= i < |rest| ==> rest[i] == free[if i < p then i else i + 1]
    ensures Increasing(free) ==> Increasing(rest) && forall x :: x in rest <==> x in free && x != free[p]
  {
    assert Increasing(free) ==> forall x :: x in free && x != free[p] ==> x in free[..p] + free[p + 1..];
    free[..p] + free[p + 1..]
  }

  // ---- One pass --------------------------------------------------------------------------

  /** What the pass claims for each record, and the events it leaves free. */
  datatype PassResult = PassResult(claims: seq<Option<nat>>, left: seq<nat>)

  function RunPass(pass: Pass, records: seq<Resume>, events: seq<Option<Time>>, free: seq<nat>): (c: PassResult)
    requires Indexes(free, events)
    ensures |c.claims| == |records| && Indexes(c.left, events)
    decreases |records|
  {
    if records == [] then PassResult([], free)
    else
      var p := if Claims(pass, records[0]) then FirstIn(pass, records[0], events, free) else None;
      if p.Some? then
        var rest := RunPass(pass, records[1..], events, Without(free, p.value));
        PassResult([Some(free[p.value])] + rest.claims, rest.left)
      else
        var rest := RunPass(pass, records[1..], events, free);
        PassResult([None] + rest.claims, rest.left)
  }

  /** An assignment of events to this pass's records: each in its record's window, no event twice. */
  predicate Matching(pass: Pass, records: seq<Resume>, events: seq<Option<Time>>, free: seq<nat>, a: seq<Option<nat>>) {
    && |a| == |records|
    && (forall k :: 0 <= k < |a| && a[k].Some? ==>
         Claims(pass, records[k]) && a[k].value in free && a[k].value < |events| && InWindow(pass, records[k], events[a[k].value]))
    && (forall k, j :: 0 <= k < j < |a| && a[k].Some? && a[j].Some? ==> a[k] != a[j])
  }

  function Size(a: seq<Option<nat>>): nat {
    if a == [] then 0 else (if a[0].Some? then 1 else 0) + Size(a[1..])
  }

  lemma MatchingExtends(pass: Pass, records: seq<Resume>, events: seq<Option<Time>>, free: seq<nat>, p: Option<nat>, tail: seq<Option<nat>>)
    requires records != [] && Indexes(free, events)
    requires p == if Claims(pass, records[0]) then FirstIn(pass, records[0], events, free) else None
    requires Matching(pass, records[1..], events, if p.Some? then Without(free, p.value) else free, tail)
    ensures Matching(pass, records, events, free, [if p.Some? then Some(free[p.value]) else None] + tail)
  {
    hide InWindow, Unsettled;
    var a := [if p.Some? then Some(free[p.value]) else None] + tail;
    forall k | 0 <= k < |a| && a[k].Some?
      ensures Claims(pass, records[k]) && a[k].value in free && a[k].value < |events| && InWindow(pass, records[k], events[a[k].value])
    {
      if k > 0 { assert a[k] == tail[k - 1] && records[k] == records[1..][k - 1]; }
    }
  }

  /** The pass assigns each claimed event once, from the free ones, and leaves exactly the others. */
  lemma {:induction false} PassIsMatching(pass: Pass, records: seq<Resume>, events: seq<Option<Time>>, free: seq<nat>)
    requires Indexes(free, events)
    ensures Matching(pass, records, events, free, RunPass(pass, records, events, free).claims)
  {
    if records != [] {
      var p := if Claims(pass, records[0]) then FirstIn(pass, records[0], events, free) else None;
      var rest := if p.Some? then Without(free, p.value) else free;
      PassIsMatching(pass, records[1..], events, rest);
      MatchingExtends(pass, records, events, free, p, RunPass(pass, records[1..], events, rest).claims);
      hide Matching;
    }
  }

  lemma {:induction false} PassLeavesTheRest(pass: Pass, records: seq<Resume>, events: seq<Option<Time>>, free: seq<nat>)
    requires Indexes(free, events)
    ensures var c := RunPass(pass, records, events, free);
            forall x :: x in c.left <==> x in free && Some(x) !in c.claims
  {
    if records != [] {
      var p := if Claims(pass, records[0]) then FirstIn(pass, records[0], events, free) else None;
      var rest := if p.Some? then Without(free, p.value) else free;
      PassLeavesTheRest(pass, records[1..], events, rest);
      var head := if p.Some? then Some(free[p.value]) else None;
      assert RunPass(pass, records, events, free).claims == [head] + RunPass(pass, records[1..], events, rest).claims;
    }
  }

  /** Event x is claimed by one of the first n records. */
  predicate TakenBefore(claims: seq<Option<nat>>, n: nat, x: nat)
    requires n <= |claims|
  {
    exists j :: 0 <= j < n && claims[j] == Some(x)
  }

  lemma FirstTakesTheFirst(pass: Pass, r: Resume, events: seq<Option<Time>>, free: seq<nat>, x: nat)
    requires Indexes(free, events) && x in free && InWindow(pass, r, events[x])
    ensures var p := FirstIn(pass, r, events, free); p.Some? && free[p.value] <= x
  {
    hide InWindow, FirstIn;
    var q :| 0 <= q < |free| && free[q] == x;
    var p := FirstIn(pass, r, events, free);
    assert p.Some? && p.value <= q;
  }

  lemma TakenInTail(head: Option<nat>, tail: seq<Option<nat>>, k: nat, x: nat)
    requires 0 < k <= |tail| + 1 && (head == Some(x) || TakenBefore(tail, k - 1, x))
    ensures TakenBefore([head] + tail, k, x)
  {
    var c := [head] + tail;
    if head == Some(x) {
      assert c[0] == Some(x);
    } else {
      var j :| 0 <= j < k - 1 && tail[j] == Some(x);
      assert c[j + 1] == Some(x);
    }
  }

  /** Whatever a record could have had before its own claim, an earlier record has. */
  lemma {:induction false} PassTakesTheFirst(pass: Pass, records: seq<Resume>, events: seq<Option<Time>>, free: seq<nat>, k: nat, x: nat)
    requires Indexes(free, events) && k < |records| && Claims(pass, records[k]) && x in free && InWindow(pass, records[k], events[x])
    ensures var c := RunPass(pass, records, events, free).claims;
      (c[k].None? || x < c[k].value) ==> TakenBefore(c, k, x)
    decreases |records|, 1
  {
    PassStep(pass, records, events, free);
    hide RunPass, InWindow, Claims, FirstIn, TakenBefore, Indexes;
    var p := if Claims(pass, records[0]) then FirstIn(pass, records[0], events, free) else None;
    if k == 0 {
      FirstTakesTheFirst(pass, records[0], events, free, x);
    } else if p.Some? {
      RestIs(events, free, p.value);
      TailTakesTheFirst(pass, records, events, free, Without(free, p.value), Some(free[p.value]), k, x);
    } else {
      TailTakesTheFirst(pass, records, events, free, free, None, k, x);
    }
  }

  lemma RestIs(events: seq<Option<Time>>, free: seq<nat>, p: nat)
    requires Indexes(free, events) && p < |free|
    ensures Indexes(Without(free, p), events) && forall y :: y in free && Some(y) != Some(free[p]) ==> y in Without(free, p)
  {
  }

  lemma {:induction false} TailTakesTheFirst(pass: Pass, records: seq<Resume>, events: seq<Option<Time>>, free: seq<nat>, rest: seq<nat>,
                                             head: Option<nat>, k: nat, x: nat)
    requires Indexes(free, events) && 0 < k < |records| && Claims(pass, records[k]) && x in free && InWindow(pass, records[k], events[x])
    requires Indexes(rest, events) && (forall y :: y in free && Some(y) != head ==> y in rest)
    requires RunPass(pass, records, events, free).claims == [head] + RunPass(pass, records[1..], events, rest).claims
    ensures var c := RunPass(pass, records, events, free).claims;
      (c[k].None? || x < c[k].value) ==> TakenBefore(c, k, x)
    decreases |records|, 0
  {
    hide RunPass, InWindow, Claims, TakenBefore, Indexes;
    var tail := RunPass(pass, records[1..], events, rest).claims;
    assert records[1..][k - 1] == records[k] && ([head] + tail)[k] == tail[k - 1];
    if head != Some(x) {
      assert x in rest;
      PassTakesTheFirst(pass, records[1..], events, rest, k - 1, x);
    }
    if tail[k - 1].None? || x < tail[k - 1].value { TakenInTail(head, tail, k, x); }
  }

  // ---- Greedy is maximum -----------------------------------------------------------------

  /** Request times of the ambiguous records and event times do not decrease. */
  predicate InOrder(records: seq<Resume>, events: seq<Option<Time>>, free: seq<nat>) {
    && Indexes(free, events)
    && (forall k :: 0 <= k < |records| && Unsettled(records[k]) ==> records[k].at.Some?)
    && (forall k, j :: 0 <= k < j < |records| && Unsettled(records[k]) && Unsettled(records[j]) ==>
         records[k].at.value <= records[j].at.value)
    && (forall i, j :: 0 <= i < j < |free| ==> events[free[i]].value <= events[free[j]].value)
  }

  lemma {:induction false} SizeUpdate(a: seq<Option<nat>>, k: nat, x: Option<nat>)
    requires k < |a|
    ensures Size(a[k := x]) == Size(a) - (if a[k].Some? then 1 else 0) + (if x.Some? then 1 else 0)
  {
    var b := a[k := x];
    if k == 0 {
      assert b[1..] == a[1..];
    } else {
      assert b[1..] == a[1..][k - 1 := x];
      SizeUpdate(a[1..], k - 1, x);
    }
  }

  /** After the first record took its first event, any assignment loses at most one pair: if another record wanted that
      event, it can take the one the first record had. */
  lemma Exchange(records: seq<Resume>, events: seq<Option<Time>>, free: seq<nat>, p: nat, a: seq<Option<nat>>)
    returns (b: seq<Option<nat>>)
    requires records != [] && InOrder(records, events, free) && Unsettled(records[0])
    requires FirstIn(Ambiguous, records[0], events, free) == Some(p) && Matching(Ambiguous, records, events, free, a)
    ensures Matching(Ambiguous, records[1..], events, Without(free, p), b) && Size(b) >= Size(a) - 1
  {
    var tail := a[1..];
    TailMatches(records, events, free, a);
    if k: nat :| k < |tail| && tail[k] == Some(free[p]) {
      b := tail[k := a[0]];
      SizeUpdate(tail, k, a[0]);
      if a[0].Some? { CanSwap(records, events, free, p, a, k); }
      assert records[1..][k] == records[k + 1];
      SwapMatches(records[1..], events, free, p, tail, k, a[0]);
    } else {
      b := tail;
      StillMatches(records[1..], events, free, p, tail);
    }
    hide InWindow, Matching, InOrder;
  }

  lemma TailMatches(records: seq<Resume>, events: seq<Option<Time>>, free: seq<nat>, a: seq<Option<nat>>)
    requires records != [] && Matching(Ambiguous, records, events, free, a)
    ensures Matching(Ambiguous, records[1..], events, free, a[1..]) && (a[0].Some? ==> a[0] !in a[1..])
  {
    assert forall k :: 0 <= k < |a| - 1 ==> a[1..][k] == a[k + 1] && records[1..][k] == records[k + 1];
  }

  /** An assignment that does not use free[p] needs only the other events. */
  lemma StillMatches(records: seq<Resume>, events: seq<Option<Time>>, free: seq<nat>, p: nat, a: seq<Option<nat>>)
    requires Indexes(free, events) && p < |free| && Matching(Ambiguous, records, events, free, a)
    requires forall k :: 0 <= k < |a| ==> a[k] != Some(free[p])
    ensures Matching(Ambiguous, records, events, Without(free, p), a)
  {
    hide InWindow;
  }

  lemma SwapMatches(records: seq<Resume>, events: seq<Option<Time>>, free: seq<nat>, p: nat, a: seq<Option<nat>>, k: nat, x: Option<nat>)
    requires Indexes(free, events) && p < |free| && Matching(Ambiguous, records, events, free, a)
    requires k < |a| && a[k] == Some(free[p]) && (x.Some? ==> x !in a)
    requires x.Some? ==> Claims(Ambiguous, records[k]) && x.value in free && x.value != free[p] && x.value < |events|
                         && InWindow(Ambiguous, records[k], events[x.value])
    ensures Matching(Ambiguous, records, events, Without(free, p), a[k := x])
  {
    hide InWindow, Claims;
    var b := a[k := x];
    assert forall j :: 0 <= j < |b| && j != k ==> b[j] == a[j];
    assert forall j :: 0 <= j < |b| && j != k && b[j].Some? ==> b[j] != x && b[j] != Some(free[p]);
  }

  /** The record that wanted the first record's event can take that record's instead. */
  lemma CanSwap(records: seq<Resume>, events: seq<Option<Time>>, free: seq<nat>, p: nat, a: seq<Option<nat>>, k: nat)
    requires records != [] && InOrder(records, events, free) && Unsettled(records[0])
    requires FirstIn(Ambiguous, records[0], events, free) == Some(p) && Matching(Ambiguous, records, events, free, a)
    requires k + 1 < |a| && a[k + 1] == Some(free[p]) && a[0].Some?
    ensures Claims(Ambiguous, records[k + 1]) && a[0].value != free[p] && a[0].value in free && a[0].value < |events|
    ensures InWindow(Ambiguous, records[k + 1], events[a[0].value])
  {
    hide FirstFrom, FirstIn;
    var g := a[0].value;
    assert g in free && g != free[p] && InWindow(Ambiguous, records[0], events[g]);
    var q :| 0 <= q < |free| && free[q] == g;
    assert q > p;
  }

  lemma {:induction false} GreedyIsMaximum(records: seq<Resume>, events: seq<Option<Time>>, free: seq<nat>, a: seq<Option<nat>>)
    requires InOrder(records, events, free) && Matching(Ambiguous, records, events, free, a)
    ensures Size(a) <= Size(RunPass(Ambiguous, records, events, free).claims)
  {
    if records != [] {
      var p := if Unsettled(records[0]) then FirstIn(Ambiguous, records[0], events, free) else None;
      var c := RunPass(Ambiguous, records, events, free);
      assert forall k :: 0 <= k < |a| - 1 ==> a[1..][k] == a[k + 1] && records[1..][k] == records[k + 1];
      if p.Some? {
        var b := Exchange(records, events, free, p.value, a);
        GreedyIsMaximum(records[1..], events, Without(free, p.value), b);
        assert c.claims[1..] == RunPass(Ambiguous, records[1..], events, Without(free, p.value)).claims;
      } else {
        assert a[0].None?;
        GreedyIsMaximum(records[1..], events, free, a[1..]);
        assert c.claims[1..] == RunPass(Ambiguous, records[1..], events, free).claims;
      }
    }
  }

  // ---- Settling ----------------------------------------------------------------------------

  function FirstPass(records: seq<Resume>, events: seq<Option<Time>>): (c: PassResult)
    ensures |c.claims| == |records| && Indexes(c.left, events)
  {
    RunPass(KnownToHaveRun, records, events, Readable(events, |events|))
  }

  function SecondPass(records: seq<Resume>, events: seq<Option<Time>>): (c: PassResult)
    ensures |c.claims| == |records| && Indexes(c.left, events)
  {
    RunPass(Ambiguous, records, events, FirstPass(records, events).left)
  }

  function SettledRecord(r: Resume, claim: Option<nat>): Resume {
    if Unsettled(r) then r.(outcome := if claim.Some? then Ran else NotRan) else r
  }

  function Settled(records: seq<Resume>, events: seq<Option<Time>>): (settled: seq<Resume>)
    ensures |settled| == |records|
    ensures forall k :: 0 <= k < |records| ==> settled[k] == SettledRecord(records[k], SecondPass(records, events).claims[k])
  {
    seq(|records|, k requires 0 <= k < |records| => SettledRecord(records[k], SecondPass(records, events).claims[k]))
  }

  /** One record looks for its event and, if it finds one, takes it off the free list. */
  method Claim(pass: Pass, r: Resume, events: seq<Option<Time>>, free: seq<nat>) returns (found: bool, left: seq<nat>)
    requires Indexes(free, events)
    ensures found == FirstIn(pass, r, events, free).Some?
    ensures left == if found then Without(free, FirstIn(pass, r, events, free).value) else free
    ensures Indexes(left, events)
  {
    for i := 0 to |free|
      invariant forall q :: 0 <= q < i ==> !InWindow(pass, r, events[free[q]])
    {
      if InWindow(pass, r, events[free[i]]) {
        assert FirstIn(pass, r, events, free) == Some(i);
        return true, free[..i] + free[i + 1..];
      }
    }
    return false, free;
  }

  lemma PassStep(pass: Pass, records: seq<Resume>, events: seq<Option<Time>>, free: seq<nat>)
    requires records != [] && Indexes(free, events)
    ensures var p := if Claims(pass, records[0]) then FirstIn(pass, records[0], events, free) else None;
      var rest := RunPass(pass, records[1..], events, if p.Some? then Without(free, p.value) else free);
      && RunPass(pass, records, events, free).left == rest.left
      && RunPass(pass, records, events, free).claims == [if p.Some? then Some(free[p.value]) else None] + rest.claims
  {
  }

  /** The records are updated in place. */
  method SettleResumes(records: array<Resume>, events: seq<Option<Time>>)
    modifies records
    ensures records[..] == Settled(old(records[..]), events)
    ensures Fair(old(records[..]), events, records[..])
  {
    hide RunPass, Fair, Unsettled, InWindow, FirstIn, Without, Readable;
    ghost var was := records[..];
    var free := Readable(events, |events|);
    for n := 0 to records.Length
      invariant records[..] == was && Indexes(free, events)
      invariant FirstPass(was, events).left == RunPass(KnownToHaveRun, was[n..], events, free).left
    {
      PassStep(KnownToHaveRun, was[n..], events, free);
      assert was[n..][1..] == was[n + 1..];
      if records[n].outcome.Agreed? || records[n].outcome.Ran? {
        var found;
        found, free := Claim(KnownToHaveRun, records[n], events, free);
      }
    }
    EmptyPass(KnownToHaveRun, events, free);
    assert was[records.Length..] == [];
    ghost var c := SecondPass(was, events).claims;
    assert was[0..] == was && c[0..] == c;
    for n := 0 to records.Length
      invariant Indexes(free, events)
      invariant forall k :: 0 <= k < n ==> records[k] == SettledRecord(was[k], c[k])
      invariant forall k :: n <= k < records.Length ==> records[k] == was[k]
      invariant RunPass(Ambiguous, was[n..], events, free).claims == c[n..]
    {
      PassStep(Ambiguous, was[n..], events, free);
      assert was[n..][1..] == was[n + 1..] && c[n..][1..] == c[n + 1..];
      if Unsettled(records[n]) {
        var found;
        found, free := Claim(Ambiguous, records[n], events, free);
        assert c[n] == c[n..][0];
        records[n] := records[n].(outcome := if found then Ran else NotRan);
      }
    }
    assert forall k :: 0 <= k < records.Length ==> records[k] == Settled(was, events)[k];
    assert records[..] == Settled(was, events);
    SettlementIsFair(was, events);
  }

  lemma EmptyPass(pass: Pass, events: seq<Option<Time>>, free: seq<nat>)
    requires Indexes(free, events)
    ensures RunPass(pass, [], events, free) == PassResult([], free)
  {
  }

  // ---- What settlement guarantees ------------------------------------------------------------

  /** The records this settlement marks executed hold distinct events, each in its record's window and none of them claimed
      by a resume already known to have run. */
  lemma SettlementIsInjective(records: seq<Resume>, events: seq<Option<Time>>)
    ensures var known, c, settled := FirstPass(records, events).claims, SecondPass(records, events).claims, Settled(records, events);
      && (forall k :: 0 <= k < |records| && Unsettled(records[k]) ==>
           (settled[k].outcome.Ran? <==> c[k].Some?) && (settled[k].outcome.NotRan? <==> c[k].None?))
      && (forall k :: 0 <= k < |records| && c[k].Some? ==>
           c[k].value < |events| && InWindow(Ambiguous, records[k], events[c[k].value]) && Unsettled(records[k]))
      && (forall k, j :: 0 <= k < j < |records| && c[k].Some? && c[j].Some? ==> c[k] != c[j])
      && (forall k, j :: 0 <= k < |records| && 0 <= j < |records| && known[k].Some? && c[j].Some? ==> known[k] != c[j])
  {
    var free := Readable(events, |events|);
    PassIsMatching(Ambiguous, records, events, FirstPass(records, events).left);
    PassLeavesTheRest(KnownToHaveRun, records, events, free);
  }

  /** Event x was logged no more than a second before the request, and, if a limit is given, no more than that long after it; a
      request without a readable time takes any event. */
  predicate Fits(r: Resume, events: seq<Option<Time>>, x: nat, limit: Option<int>) {
    && x < |events| && events[x].Some?
    && (r.at.Some? ==> r.at.value <= events[x].value + 1 && (limit.Some? ==> events[x].value <= r.at.value + limit.value))
  }

  ghost predicate Open(r: Resume) {
    r.outcome == Requested || r.outcome == Unknown
  }

  /** A fair settlement: known[k] and mine[k] are the events the records known to have run and the open ones were given. Events are
      given to fitting records, each once; a record is passed over for an earlier fitting event, or for any, only in favour of the
      records known to have run and of those before it; and the open records that got one have run, the others have not. */
  ghost predicate FairlySettled(was: seq<Resume>, events: seq<Option<Time>>, known: seq<Option<nat>>, mine: seq<Option<nat>>, now: seq<Resume>) {
    && |known| == |mine| == |now| == |was|
    && (forall k :: 0 <= k < |was| ==> now[k] == if Open(was[k]) then was[k].(outcome := if mine[k].Some? then Ran else NotRan) else was[k])
    && EachOnce(was, events, known, mine) && NobodyPassedOver(was, events, known, mine)
  }

  ghost predicate Fair(was: seq<Resume>, events: seq<Option<Time>>, now: seq<Resume>) {
    exists known, mine :: FairlySettled(was, events, known, mine, now)
  }

  ghost predicate EachOnce(was: seq<Resume>, events: seq<Option<Time>>, known: seq<Option<nat>>, mine: seq<Option<nat>>)
    requires |known| == |mine| == |was|
  {
    AllFit(was, events, known, mine) && NoneTwice(known, mine)
  }

  ghost predicate AllFit(was: seq<Resume>, events: seq<Option<Time>>, known: seq<Option<nat>>, mine: seq<Option<nat>>)
    requires |known| == |mine| == |was|
  {
    && (forall k :: 0 <= k < |was| && mine[k].Some? ==> Open(was[k]) && Fits(was[k], events, mine[k].value, Some(300)))
    && (forall k :: 0 <= k < |was| && known[k].Some? ==>
         (was[k].outcome == Agreed || was[k].outcome == Ran) && Fits(was[k], events, known[k].value, None))
  }

  ghost predicate NoneTwice(known: seq<Option<nat>>, mine: seq<Option<nat>>) {
    && (forall k, j :: 0 <= k < j < |mine| && mine[k].Some? ==> mine[k] != mine[j])
    && (forall k, j :: 0 <= k < j < |known| && known[k].Some? ==> known[k] != known[j])
    && (forall k, j :: 0 <= k < |known| && 0 <= j < |mine| && known[k].Some? ==> known[k] != mine[j])
  }

  ghost predicate NobodyPassedOver(was: seq<Resume>, events: seq<Option<Time>>, known: seq<Option<nat>>, mine: seq<Option<nat>>)
    requires |known| == |mine| == |was|
  {
    && (forall k :: 0 <= k < |was| && (was[k].outcome == Agreed || was[k].outcome == Ran) ==>
         NothingEarlier(was[k], events, None, known[k], known, k, [], 0))
    && (forall k :: 0 <= k < |was| && Open(was[k]) ==> NothingEarlier(was[k], events, Some(300), mine[k], known, |was|, mine, k))
  }

  /** Every event the record could have had instead of its claim is claimed by known[..n] or by mine[..m]. */
  ghost predicate NothingEarlier(r: Resume, events: seq<Option<Time>>, limit: Option<int>, claim: Option<nat>,
                                 known: seq<Option<nat>>, n: nat, mine: seq<Option<nat>>, m: nat)
    requires n <= |known| && m <= |mine|
  {
    forall x: nat | Fits(r, events, x, limit) && (claim.None? || x < claim.value) :: TakenBefore(known, n, x) || TakenBefore(mine, m, x)
  }

  lemma FitsIsTheWindow(pass: Pass, r: Resume, events: seq<Option<Time>>, x: nat)
    ensures x < |events| ==> (InWindow(pass, r, events[x]) <==> Fits(r, events, x, if pass.Ambiguous? then Some(300) else None))
    ensures Fits(r, events, x, None) || Fits(r, events, x, Some(300)) ==> x in Readable(events, |events|)
  {
  }

  lemma MatchedFit(pass: Pass, records: seq<Resume>, events: seq<Option<Time>>, free: seq<nat>, a: seq<Option<nat>>)
    requires Matching(pass, records, events, free, a)
    ensures forall k :: 0 <= k < |a| && a[k].Some? ==>
      Claims(pass, records[k]) && Fits(records[k], events, a[k].value, if pass.Ambiguous? then Some(300) else None)
    ensures forall k, j :: 0 <= k < j < |a| && a[k].Some? ==> a[k] != a[j]
  {
    hide InWindow, Fits, Claims;
    forall k | 0 <= k < |a| && a[k].Some? ensures Fits(records[k], events, a[k].value, if pass.Ambiguous? then Some(300) else None) {
      FitsIsTheWindow(pass, records[k], events, a[k].value);
    }
  }

  lemma BothFit(records: seq<Resume>, events: seq<Option<Time>>, free: seq<nat>, left: seq<nat>, known: seq<Option<nat>>, mine: seq<Option<nat>>)
    requires Matching(KnownToHaveRun, records, events, free, known) && Matching(Ambiguous, records, events, left, mine)
    ensures AllFit(records, events, known, mine)
  {
    MatchedFit(KnownToHaveRun, records, events, free, known);
    MatchedFit(Ambiguous, records, events, left, mine);
    hide InWindow, Fits, Matching;
  }

  lemma NoneIsGivenTwice(records: seq<Resume>, events: seq<Option<Time>>, free: seq<nat>, left: seq<nat>, known: seq<Option<nat>>, mine: seq<Option<nat>>)
    requires Matching(KnownToHaveRun, records, events, free, known) && Matching(Ambiguous, records, events, left, mine)
    requires forall x :: x in left ==> Some(x) !in known
    ensures NoneTwice(known, mine)
  {
    hide InWindow, Claims;
    forall k, j | 0 <= k < |known| && 0 <= j < |mine| && known[k].Some? ensures known[k] != mine[j] {
      if mine[j].Some? { assert mine[j].value in left; }
    }
  }

  lemma EachIsGivenOnce(records: seq<Resume>, events: seq<Option<Time>>)
    ensures EachOnce(records, events, FirstPass(records, events).claims, SecondPass(records, events).claims)
  {
    var free, left := Readable(events, |events|), FirstPass(records, events).left;
    var known, mine := FirstPass(records, events).claims, SecondPass(records, events).claims;
    PassIsMatching(KnownToHaveRun, records, events, free);
    PassIsMatching(Ambiguous, records, events, left);
    PassLeavesTheRest(KnownToHaveRun, records, events, free);
    hide Readable, RunPass, Matching, AllFit, NoneTwice;
    BothFit(records, events, free, left, known, mine);
    NoneIsGivenTwice(records, events, free, left, known, mine);
  }

  lemma NobodyIsPassedOver(records: seq<Resume>, events: seq<Option<Time>>)
    ensures NobodyPassedOver(records, events, FirstPass(records, events).claims, SecondPass(records, events).claims)
  {
    var known, mine := FirstPass(records, events).claims, SecondPass(records, events).claims;
    hide FirstPass, SecondPass, NothingEarlier;
    forall k | 0 <= k < |records| && Claims(KnownToHaveRun, records[k])
      ensures NothingEarlier(records[k], events, None, known[k], known, k, [], 0)
    {
      KnownMissNothing(records, events, k);
    }
    forall k | 0 <= k < |records| && Open(records[k])
      ensures NothingEarlier(records[k], events, Some(300), mine[k], known, |records|, mine, k)
    {
      OpenMissNothing(records, events, k);
    }
  }

  /** What this settlement does is fair. */
  lemma SettlementIsFair(records: seq<Resume>, events: seq<Option<Time>>)
    ensures Fair(records, events, Settled(records, events))
  {
    EachIsGivenOnce(records, events);
    NobodyIsPassedOver(records, events);
    hide FirstPass, SecondPass, EachOnce, NobodyPassedOver;
    assert FairlySettled(records, events, FirstPass(records, events).claims, SecondPass(records, events).claims, Settled(records, events));
  }

  lemma KnownMissNothing(records: seq<Resume>, events: seq<Option<Time>>, k: nat)
    requires k < |records| && Claims(KnownToHaveRun, records[k])
    ensures var known := FirstPass(records, events).claims; NothingEarlier(records[k], events, None, known[k], known, k, [], 0)
  {
    var known, free := FirstPass(records, events).claims, Readable(events, |events|);
    hide RunPass, Readable, InWindow, Fits, TakenBefore, Claims;
    forall x: nat | Fits(records[k], events, x, None) && (known[k].None? || x < known[k].value) ensures TakenBefore(known, k, x) {
      FitsIsTheWindow(KnownToHaveRun, records[k], events, x);
      PassTakesTheFirst(KnownToHaveRun, records, events, free, k, x);
    }
  }

  lemma OpenMissNothing(records: seq<Resume>, events: seq<Option<Time>>, k: nat)
    requires k < |records| && Open(records[k])
    ensures var known, mine := FirstPass(records, events).claims, SecondPass(records, events).claims;
      NothingEarlier(records[k], events, Some(300), mine[k], known, |records|, mine, k)
  {
    var known, mine := FirstPass(records, events).claims, SecondPass(records, events).claims;
    var left := FirstPass(records, events).left;
    PassLeavesTheRest(KnownToHaveRun, records, events, Readable(events, |events|));
    assert Claims(Ambiguous, records[k]);
    hide RunPass, Readable, InWindow, Fits, Claims;
    forall x: nat | Fits(records[k], events, x, Some(300)) && (mine[k].None? || x < mine[k].value)
      ensures TakenBefore(known, |records|, x) || TakenBefore(mine, k, x)
    {
      FitsIsTheWindow(Ambiguous, records[k], events, x);
      if x in left { PassTakesTheFirst(Ambiguous, records, events, left, k, x); } else { assert Some(x) in known; }
    }
  }

  /** No assignment of the events left by the first pass could mark more ambiguous records executed. */
  lemma SettlementIsMaximum(records: seq<Resume>, events: seq<Option<Time>>, a: seq<Option<nat>>)
    requires InOrder(records, events, FirstPass(records, events).left)
    requires Matching(Ambiguous, records, events, FirstPass(records, events).left, a)
    ensures Size(a) <= Size(SecondPass(records, events).claims) == NewlyExecuted(records, Settled(records, events))
  {
    GreedyIsMaximum(records, events, FirstPass(records, events).left, a);
    SettlementIsInjective(records, events);
    ExecutedAreClaimed(records, Settled(records, events), SecondPass(records, events).claims);
  }

  /** How many records a settlement turned from ambiguous to executed. */
  function NewlyExecuted(before: seq<Resume>, after: seq<Resume>): nat
    requires |before| == |after|
  {
    if before == [] then 0
    else (if Unsettled(before[0]) && after[0].outcome.Ran? then 1 else 0) + NewlyExecuted(before[1..], after[1..])
  }

  lemma {:induction false} ExecutedAreClaimed(before: seq<Resume>, after: seq<Resume>, claims: seq<Option<nat>>)
    requires |before| == |after| == |claims|
    requires forall k :: 0 <= k < |before| ==> after[k] == SettledRecord(before[k], claims[k]) && (claims[k].Some? ==> Unsettled(before[k]))
    ensures NewlyExecuted(before, after) == Size(claims)
  {
    if before != [] { ExecutedAreClaimed(before[1..], after[1..], claims[1..]); }
  }

  /** Nothing stays ambiguous, settled records are untouched, and a second settlement changes nothing, whatever the
      application has logged since. */
  lemma SettledOnce(records: seq<Resume>, events: seq<Option<Time>>, later: seq<Option<Time>>)
    ensures var settled := Settled(records, events);
      && (forall k :: 0 <= k < |settled| ==> !Unsettled(settled[k]))
      && (forall k :: 0 <= k < |records| && !Unsettled(records[k]) ==> settled[k] == records[k])
      && Settled(settled, later) == settled
  {
    var settled := Settled(records, events);
    forall k | 0 <= k < |settled| ensures !Unsettled(settled[k]) {}
    assert Settled(settled, later) == settled;
  }
}
