/**
 Evaluation events: append_event and events_since of afa_api/jobs.py over a table keyed by (job_id, seq), and the
 event stream of afa_api/routes_jobs.py that delivers them.
 */
module Events {
  import opened Wrappers
  import opened Tables

  type Event = int

  const ATTEMPTS: nat := 8
  const PAGE: nat := 1000

  /** An event with its sequence number, which is also its SSE id. */
  datatype Numbered = Numbered(num: nat, event: Event)

  // ---- The event table -------------------------------------------------------------------

  datatype EventKey = EventKey(job: EvalId, num: nat)

  /** The rows of job e are numbered exactly 1, 2, ..., |log| and hold the log in order. */
  ghost predicate HoldsLog(rows: map<EventKey, Event>, e: EvalId, log: seq<Event>) {
    && (forall n: nat :: EventKey(e, n) in rows <==> 1 <= n <= |log|)
    && (forall n: nat :: 1 <= n <= |log| ==> rows[EventKey(e, n)] == log[n - 1])
  }

  function Flatten(groups: seq<seq<Event>>): seq<Event> {
    if groups == [] then [] else Flatten(groups[..|groups| - 1]) + groups[|groups| - 1]
  }

  lemma FlattenNext(groups: seq<seq<Event>>, k: nat)
    requires k < |groups|
    ensures Flatten(groups[..k + 1]) == Flatten(groups[..k]) + groups[k]
  {
    assert groups[..k + 1][..k] == groups[..k];
  }

  ghost predicate OtherLogsSame(before: map<EvalId, seq<Event>>, after: map<EvalId, seq<Event>>, e: EvalId) {
    forall f :: f != e ==> (f in after <==> f in before) && (f in after ==> after[f] == before[f])
  }

  /** How many attempts fail before the first one that nobody interrupts. */
  function Interruptions(others: seq<seq<Event>>): (k: nat)
    ensures k <= |others| && (forall j :: 0 <= j < k ==> others[j] != []) && (k < |others| ==> others[k] == [])
  {
    if others == [] || others[0] == [] then 0 else 1 + Interruptions(others[1..])
  }

  /** The first attempt that nobody interrupts succeeds, with the number after everything committed by then; when all eight are
      interrupted, the IntegrityError escapes and the event is not logged. */
  ghost predicate Appended(before: seq<Event>, after: seq<Event>, event: Event, others: seq<seq<Event>>, num: Option<nat>) {
    var k := Interruptions(others);
    if k < |others|
    then after == before + Flatten(others[..k]) + [event] && num == Some(|after|)
    else after == before + Flatten(others) && num.None?
  }

  /** The first k attempts were interrupted. */
  ghost predicate Interrupted(before: seq<Event>, now: seq<Event>, others: seq<seq<Event>>, k: nat) {
    k <= |others| && now == before + Flatten(others[..k]) && forall j :: 0 <= j < k ==> others[j] != []
  }

  lemma NothingAppended(logs: map<EvalId, seq<Event>>, log: seq<Event>, e: EvalId, others: seq<seq<Event>>)
    ensures OtherLogsSame(logs, logs, e) && Interrupted(log, log, others, 0)
  {
    assert log + Flatten(others[..0]) == log;
  }

  lemma AttemptMade(before: seq<Event>, mid: seq<Event>, event: Event, others: seq<seq<Event>>, k: nat, num: Option<nat>)
    requires k < |others| && Interrupted(before, mid, others, k) && (num.Some? <==> others[k] == [])
    ensures num.None? ==> Interrupted(before, mid + others[k], others, k + 1)
    ensures num.Some? && num.value == |mid + [event]| ==> Appended(before, mid + [event], event, others, num)
  {
    FlattenNext(others, k);
    assert before + Flatten(others[..k]) + others[k] == before + Flatten(others[..k + 1]);
    if num.Some? { assert Interruptions(others) == k; }
  }

  lemma NeverAppended(before: seq<Event>, after: seq<Event>, event: Event, others: seq<seq<Event>>)
    requires Interrupted(before, after, others, |others|)
    ensures Appended(before, after, event, others, None)
  {
    assert others[..|others|] == others;
  }

  lemma OtherLogsStillSame(a: map<EvalId, seq<Event>>, b: map<EvalId, seq<Event>>, c: map<EvalId, seq<Event>>, e: EvalId)
    requires OtherLogsSame(a, b, e) && OtherLogsSame(b, c, e)
    ensures OtherLogsSame(a, c, e)
  {
  }

  class EventLog {
    var rows: map<EventKey, Event>
    ghost var logs: map<EvalId, seq<Event>>

    ghost predicate Valid()
      reads this
    {
      && (forall e :: e in logs ==> HoldsLog(rows, e, logs[e]))
      && (forall k :: k in rows ==> k.job in logs)
    }

    ghost function Log(e: EvalId): seq<Event>
      reads this
    {
      if e in logs then logs[e] else []
    }

    constructor ()
      ensures Valid() && logs == map[]
    {
      rows, logs := map[], map[];
    }

    /** COALESCE(MAX(seq), 0) */
    method MaxSeq(e: EvalId) returns (m: nat)
      requires Valid()
      ensures m == |Log(e)|
    {
      ghost var log := Log(e);
      assert HoldsLog(rows, e, log) || e !in logs;
      m := 0;
      while EventKey(e, m + 1) in rows
        invariant 0 <= m <= |log|
        invariant e !in logs ==> log == []
        decreases |log| - m
      {
        assert e in logs && HoldsLog(rows, e, log);
        m := m + 1;
      }
      assert EventKey(e, m + 1) !in rows;
    }

    /** INSERT with this seq: refused by the unique key when the row exists. */
    method Insert(e: EvalId, num: nat, event: Event) returns (inserted: bool)
      requires Valid() && 1 <= num <= |Log(e)| + 1
      modifies this
      ensures Valid() && inserted == (num == |old(Log(e))| + 1)
      ensures !inserted ==> rows == old(rows) && logs == old(logs)
      ensures inserted ==> logs == old(logs)[e := old(Log(e)) + [event]]
    {
      ghost var log := Log(e);
      inserted := EventKey(e, num) !in rows;
      assert inserted <==> num == |log| + 1 by {
        if e in logs { assert HoldsLog(rows, e, logs[e]); }
      }
      if inserted {
        ghost var before := rows;
        rows, logs := rows[EventKey(e, num) := event], logs[e := log + [event]];
        forall f | f in logs ensures HoldsLog(rows, f, logs[f]) {
          if f != e { assert HoldsLog(before, f, logs[f]); }
        }
      }
    }

    /** Other writers commit these events for the same job, one after the other. */
    method OthersAppend(e: EvalId, events: seq<Event>)
      requires Valid()
      modifies this
      ensures Valid() && Log(e) == old(Log(e)) + events
      ensures OtherLogsSame(old(logs), logs, e)
    {
      assert Log(e) + events[..0] == Log(e);
      for i := 0 to |events|
        invariant Valid() && Log(e) == old(Log(e)) + events[..i]
        invariant OtherLogsSame(old(logs), logs, e)
      {
        var m := MaxSeq(e);
        var inserted := Insert(e, m + 1, events[i]);
        assert events[..i + 1] == events[..i] + [events[i]];
      }
      assert events[..|events|] == events;
    }

    /** One attempt: MAX, whatever other writers commit meanwhile, INSERT. */
    method TryAppend(e: EvalId, event: Event, others: seq<Event>) returns (num: Option<nat>)
      requires Valid()
      modifies this
      ensures Valid() && (num.Some? <==> others == [])
      ensures Log(e) == old(Log(e)) + if num.Some? then [event] else others
      ensures num.Some? ==> num.value == |Log(e)|
      ensures OtherLogsSame(old(logs), logs, e)
    {
      var m := MaxSeq(e);
      OthersAppend(e, others);
      var inserted := Insert(e, m + 1, event);
      num := if inserted then Some(m + 1) else None;
    }

    /** append_event. others[k] is what other writers commit between the MAX and the INSERT of attempt k. */
    method AppendEvent(e: EvalId, event: Event, others: seq<seq<Event>>) returns (num: Option<nat>)
      requires Valid() && |others| == 8
      modifies this
      ensures Valid() && OtherLogsSame(old(logs), logs, e)
      ensures Appended(old(Log(e)), Log(e), event, others, num)
    {
      ghost var before, log := logs, Log(e);
      hide Valid, Log, OtherLogsSame, Appended, Interrupted;
      NothingAppended(before, log, e, others);
      for k := 0 to ATTEMPTS
        invariant Valid() && OtherLogsSame(before, logs, e) && Interrupted(log, Log(e), others, k)
      {
        ghost var mid, midLog := logs, Log(e);
        num := TryAppend(e, event, others[k]);
        OtherLogsStillSame(before, mid, logs, e);
        AttemptMade(log, midLog, event, others, k, num);
        if num.Some? { return; }
      }
      NeverAppended(log, Log(e), event, others);
      return None;
    }

    /** SELECT ... WHERE seq > since ORDER BY seq LIMIT limit */
    method EventsSince(e: EvalId, since: nat, limit: nat) returns (page: seq<Numbered>)
      requires Valid()
      ensures page == Page(Log(e), since, limit)
      ensures |page| == if since >= |Log(e)| then 0 else if |Log(e)| - since > limit then limit else |Log(e)| - since
      ensures forall i :: 0 <= i < |page| ==> page[i].num == since + 1 + i && page[i].event == Log(e)[since + i]
    {
      var m := MaxSeq(e);
      page := [];
      var n := since + 1;
      while n <= m && |page| < limit
        invariant since + 1 <= n && |page| == n - 1 - since <= limit && (n - 1 <= m || page == [])
        invariant n - 1 <= m ==> page == Slice(Log(e), since, n - 1)
        decreases m - n
      {
        assert e in logs && HoldsLog(rows, e, logs[e]);
        SliceJoin(Log(e), since, n - 1, n);
        page := page + [Numbered(n, rows[EventKey(e, n)])];
        n := n + 1;
      }
    }
  }

  /** Events from + 1 .. to of the log, numbered. */
  function Slice(log: seq<Event>, from: nat, to: nat): (s: seq<Numbered>)
    requires from <= to <= |log|
    ensures |s| == to - from && forall i :: 0 <= i < |s| ==> s[i] == Numbered(from + i + 1, log[from + i])
  {
    seq(to - from, i requires 0 <= i < to - from => Numbered(from + i + 1, log[from + i]))
  }

  lemma SliceOfLonger(log: seq<Event>, longer: seq<Event>, from: nat, to: nat)
    requires from <= to <= |log| && log <= longer
    ensures Slice(longer, from, to) == Slice(log, from, to)
  {
  }

  lemma SliceJoin(log: seq<Event>, from: nat, mid: nat, to: nat)
    requires from <= mid <= to <= |log|
    ensures Slice(log, from, mid) + Slice(log, mid, to) == Slice(log, from, to)
  {
    var s, t, u := Slice(log, from, mid), Slice(log, mid, to), Slice(log, from, to);
    forall i | 0 <= i < |u| ensures (s + t)[i] == u[i] {
      if i >= |s| { assert t[i - |s|] == Numbered(mid + (i - |s|) + 1, log[mid + (i - |s|)]); }
    }
  }

  /** The events after `since`, at most `limit` of them. */
  function Page(log: seq<Event>, since: nat, limit: nat): seq<Numbered> {
    if since >= |log| then []
    else if |log| - since > limit then Slice(log, since, since + limit)
    else Slice(log, since, |log|)
  }

  // ---- The stream ------------------------------------------------------------------------

  /** One poll: the log when the events are read, the log a moment later when the status is read, and that status. */
  datatype Poll = Poll(atEvents: seq<Event>, atStatus: seq<Event>, terminal: bool)

  /** Logs only ever grow, also within a poll. */
  ghost predicate Growing(polls: seq<Poll>) {
    && (forall i :: 0 <= i < |polls| ==> polls[i].atEvents <= polls[i].atStatus)
    && (forall i, j :: 0 <= i < j < |polls| ==> polls[i].atStatus <= polls[j].atEvents)
  }

  /** These deliveries are the events after `from` up to `to`, each once, in order. */
  ghost predicate Delivers(log: seq<Event>, from: nat, to: nat, delivered: seq<Numbered>) {
    if from == to then delivered == [] else from < to <= |log| && delivered == Slice(log, from, to)
  }

  /** event_stream over the polls of one connection; it ends by closing, or when the client has gone. */
  method EventStream(cursor: nat, polls: seq<Poll>) returns (delivered: seq<Numbered>, cursor': nat, closedAt: Option<nat>)
    requires Growing(polls)
    ensures polls != [] ==> Delivers(polls[|polls| - 1].atStatus, cursor, cursor', delivered)
    ensures polls == [] ==> delivered == [] && cursor' == cursor && closedAt.None?
    ensures closedAt.None? ==> forall i :: 0 <= i < |polls| && polls[i].terminal ==> |polls[i].atEvents| > cursor
    ensures closedAt.Some? ==>
      && closedAt.value < |polls| && polls[closedAt.value].terminal && |polls[closedAt.value].atEvents| <= cursor'
      && Delivers(polls[closedAt.value].atEvents, cursor, cursor', delivered)
    ensures closedAt.Some? ==> var poll := polls[closedAt.value];
      delivered == After(poll.atStatus, cursor) <==> poll.atEvents == poll.atStatus || |poll.atStatus| <= cursor
  {
    hide Delivers, After;
    NothingDelivered([], cursor);
    delivered, cursor', closedAt := [], cursor, None;
    for i := 0 to |polls|
      invariant i == 0 ==> delivered == [] && cursor' == cursor
      invariant i > 0 ==> Delivers(polls[i - 1].atStatus, cursor, cursor', delivered)
      invariant forall j :: 0 <= j < i && polls[j].terminal ==> |polls[j].atEvents| > cursor
    {
      var events := Page(polls[i].atEvents, cursor', PAGE);
      DeliverMore(if i > 0 then polls[i - 1].atStatus else [], polls[i].atEvents, cursor, cursor', delivered, events);
      delivered := delivered + events;
      cursor' := cursor' + |events|;
      LongerLog(polls[i].atEvents, polls[i].atStatus, cursor, cursor', delivered);
      if polls[i].terminal && events == [] {
        LongerLog(polls[i].atStatus, polls[|polls| - 1].atStatus, cursor, cursor', delivered);
        DrainedExactlyWhenReadsAgree(cursor, cursor', polls[i], delivered);
        return delivered, cursor', Some(i);
      }
    }
  }

  lemma NothingDelivered(log: seq<Event>, cursor: nat)
    ensures Delivers(log, cursor, cursor, [])
  {
  }

  lemma LongerLog(log: seq<Event>, longer: seq<Event>, from: nat, to: nat, delivered: seq<Numbered>)
    requires Delivers(log, from, to, delivered)
    ensures log <= longer ==> Delivers(longer, from, to, delivered)
  {
    if log <= longer && from < to { SliceOfLonger(log, longer, from, to); }
  }

  lemma DeliverMore(seen: seq<Event>, log: seq<Event>, from: nat, to: nat, delivered: seq<Numbered>, events: seq<Numbered>)
    requires Delivers(seen, from, to, delivered) && seen <= log && events == Page(log, to, PAGE)
    ensures Delivers(log, from, to + |events|, delivered + events)
  {
    LongerLog(seen, log, from, to, delivered);
    DeliveriesJoin(log, from, to, to + |events|, delivered, events);
  }

  /** A client that reconnects with the last id it received: over all its connections it gets a gap-free, duplicate-free prefix
      of the log. */
  method Reconnecting(connections: seq<seq<Poll>>, final: seq<Event>) returns (delivered: seq<Numbered>, last: nat)
    requires forall c :: 0 <= c < |connections| ==> Growing(connections[c])
    requires forall c, i :: 0 <= c < |connections| && 0 <= i < |connections[c]| ==> connections[c][i].atStatus <= final
    ensures Delivers(final, 0, last, delivered)
  {
    delivered, last := [], 0;
    for c := 0 to |connections|
      invariant Delivers(final, 0, last, delivered)
    {
      var more, cursor, closed := EventStream(last, connections[c]);
      if connections[c] != [] {
        var seen := connections[c][|connections[c]| - 1].atStatus;
        LongerLog(seen, final, last, cursor, more);
      }
      DeliveriesJoin(final, 0, last, cursor, delivered, more);
      delivered, last := delivered + more, cursor;
    }
  }

  lemma DeliveriesJoin(log: seq<Event>, from: nat, mid: nat, to: nat, first: seq<Numbered>, second: seq<Numbered>)
    requires Delivers(log, from, mid, first) && Delivers(log, mid, to, second)
    ensures Delivers(log, from, to, first + second)
  {
    if from < mid < to { SliceJoin(log, from, mid, to); }
    assert first + [] == first && [] + second == second;
  }

  // ---- Drained at close ------------------------------------------------------------------

  /** Everything logged after this cursor. */
  function After(log: seq<Event>, cursor: nat): seq<Numbered> {
    if cursor >= |log| then [] else Slice(log, cursor, |log|)
  }

  /** A stream that closes at this poll has delivered everything logged when the status was read exactly when nothing was logged
      between the poll's two reads, or the client's cursor already lay at or beyond the end of the log. */
  lemma DrainedExactlyWhenReadsAgree(cursor: nat, cursor': nat, poll: Poll, delivered: seq<Numbered>)
    requires poll.atEvents <= poll.atStatus
    requires Delivers(poll.atEvents, cursor, cursor', delivered) && |poll.atEvents| <= cursor'
    ensures delivered == After(poll.atStatus, cursor) <==> poll.atEvents == poll.atStatus || |poll.atStatus| <= cursor
  {
    if poll.atEvents != poll.atStatus { assert |poll.atEvents| < |poll.atStatus|; }
  }

  /** The two reads are separate: a final event logged between them, with the status turning terminal, is never delivered. */
  method CanCloseUndrained() returns (polls: seq<Poll>, delivered: seq<Numbered>, closedAt: Option<nat>)
    ensures |polls| == 1 && Growing(polls) && closedAt == Some(0) && delivered == [] && polls[0].atStatus == [7]
  {
    polls := [Poll([], [7], true)];
    var cursor;
    delivered, cursor, closedAt := EventStream(0, polls);
    assert polls[0].terminal && closedAt == Some(0);
  }
}
