/** The event store over its tables, proved against the append-only log. */
module Store {
  import opened Events
  import opened Sequences
  import opened EventLog
  import opened Upcasting

  // ---- the two read queries ----

  function Clamp(x: int, lo: int, hi: int): int
    requires lo <= hi
  {
    if x < lo then lo else if x > hi then hi else x
  }

  /** The rows of a stream between two inclusive positions; no upper bound means all. */
  function Slice(rows: seq<StoredEvent>, from: int, to: Option<int>): seq<StoredEvent>
  {
    var lo := Clamp(from - 1, 0, |rows|);
    var hi := if to.Some? then Clamp(to.value, 0, |rows|) else |rows|;
    if lo < hi then rows[lo..hi] else []
  }

  /** WHERE global_position >= from AND event_type = ANY(types); an empty list of types means no filter. */
  function Wanted(from: int, types: seq<EventType>): StoredEvent -> bool
  {
    (e: StoredEvent) => e.globalPosition >= from && (types == [] || e.eventType in types)
  }

  function Take<A>(xs: seq<A>, n: nat): seq<A>
  {
    if |xs| <= n then xs else xs[..n]
  }

  function Matching(log: seq<StoredEvent>, from: int, types: seq<EventType>): seq<StoredEvent>
  {
    Filter(log, Wanted(from, types))
  }

  /** Everything up to an event lies below the next cursor, everything after it at or above. */
  lemma CursorSplits(head: seq<StoredEvent>, e: StoredEvent, tail: seq<StoredEvent>, from: int, types: seq<EventType>)
    requires Ascending(head + [e] + tail) && from <= e.globalPosition
    ensures Matching(head + [e] + tail, e.globalPosition + 1, types) == Matching(tail, from, types)
  {
    var log := head + [e] + tail;
    var next := e.globalPosition + 1;
    forall x | x in head + [e] ensures !Wanted(next, types)(x) {
      var i :| 0 <= i < |head + [e]| && x == (head + [e])[i];
      assert log[i] == x && log[|head|] == e;
    }
    forall x | x in tail ensures Wanted(next, types)(x) == Wanted(from, types)(x) {
      var i :| 0 <= i < |tail| && x == tail[i];
      assert log[|head| + 1 + i] == x && log[|head|] == e;
    }
    FilterAppend(head + [e], tail, Wanted(next, types));
    FilterNone(head + [e], Wanted(next, types));
    FilterAgree(tail, Wanted(from, types), Wanted(next, types));
  }

  /** The n-th match splits the log: what lies behind it holds exactly the later matches. */
  lemma AroundMatch(log: seq<StoredEvent>, from: int, types: seq<EventType>, n: nat) returns (m: nat)
    requires 0 < n <= |Matching(log, from, types)|
    ensures m < |log| && log[m] == Matching(log, from, types)[n - 1] && Wanted(from, types)(log[m])
    ensures Matching(log, from, types)[n..] == Matching(log[m + 1..], from, types)
  {
    var rows := Matching(log, from, types);
    m := FilterIndex(log, Wanted(from, types), n - 1);
    var head, tail := log[..m], log[m + 1..];
    assert log == head + [log[m]] + tail;
    FilterSnoc(head, log[m], Wanted(from, types));
    FilterAppend(head + [log[m]], tail, Wanted(from, types));
    assert rows == rows[..n - 1] + [log[m]] + Matching(tail, from, types);
  }

  /** Paging past the n-th match leaves exactly the later matches. */
  lemma PageBoundary(log: seq<StoredEvent>, from: int, types: seq<EventType>, n: nat)
    requires Ascending(log)
    requires 0 < n <= |Matching(log, from, types)|
    ensures var rows := Matching(log, from, types);
      && rows[n - 1] in log
      && rows[n - 1].globalPosition >= from
      && Matching(log, rows[n - 1].globalPosition + 1, types) == rows[n..]
  {
    var m := AroundMatch(log, from, types, n);
    assert log == log[..m] + [log[m]] + log[m + 1..];
    CursorSplits(log[..m], log[m], log[m + 1..], from, types);
  }

  /** Events appended after a page was read do not disturb the pages already read. */
  lemma GrowthIsLater(log: seq<StoredEvent>, log': seq<StoredEvent>, from: int, last: StoredEvent,
                      types: seq<EventType>)
    returns (later: seq<StoredEvent>)
    requires Ascending(log') && log <= log'
    requires last in log && from <= last.globalPosition + 1
    ensures Matching(log', from, types) == Matching(log, from, types) + later
    ensures Matching(log', last.globalPosition + 1, types) == Matching(log, last.globalPosition + 1, types) + later
  {
    var cursor := last.globalPosition + 1;
    var ext := log'[|log|..];
    assert log' == log + ext;
    later := Matching(ext, from, types);
    FilterAppend(log, ext, Wanted(from, types));
    FilterAppend(log, ext, Wanted(cursor, types));
    forall x | x in ext ensures Wanted(from, types)(x) == Wanted(cursor, types)(x) {
      var i :| 0 <= i < |ext| && x == ext[i];
      var j :| 0 <= j < |log| && last == log[j];
      assert log'[|log| + i] == x && log'[j] == last;
    }
    FilterAgree(ext, Wanted(from, types), Wanted(cursor, types));
  }

  /** Each full page leaves fewer matches in any log that extends the one it was read from. */
  lemma ScanShrinks(log: seq<StoredEvent>, final: seq<StoredEvent>, cursor: int, n: nat, types: seq<EventType>)
    requires Ascending(final) && log <= final
    requires 0 < n <= |Matching(log, cursor, types)|
    ensures var next := Matching(log, cursor, types)[n - 1].globalPosition + 1;
      |Matching(final, next, types)| < |Matching(final, cursor, types)|
  {
    var ext := final[|log|..];
    assert final == log + ext;
    FilterAppend(log, ext, Wanted(cursor, types));
    assert Matching(final, cursor, types)[n - 1] == Matching(log, cursor, types)[n - 1];
    PageBoundary(final, cursor, types, n);
  }

  /** One full page, then growth: what was yielded plus what the next cursor will match is still
      exactly what the whole scan should yield, and a bounded log has fewer matches left. */
  lemma PageStep(log: seq<StoredEvent>, log': seq<StoredEvent>, final: seq<StoredEvent>,
                 from: int, cursor: int, n: nat, types: seq<EventType>, rows: seq<StoredEvent>)
    requires Ascending(final) && log <= log' <= final && from <= cursor
    requires 0 < n <= |Matching(log, cursor, types)|
    requires Matching(log, from, types) == rows + Matching(log, cursor, types)
    ensures var page := Matching(log, cursor, types)[..n];
      var next := page[n - 1].globalPosition + 1;
      && cursor < next
      && Matching(log', from, types) == rows + page + Matching(log', next, types)
      && |Matching(final, next, types)| < |Matching(final, cursor, types)|
  {
    assert Ascending(log) && Ascending(log');
    var matches := Matching(log, cursor, types);
    PageBoundary(log, cursor, types, n);
    ScanShrinks(log, final, cursor, n, types);
    var later := GrowthIsLater(log, log', from, matches[n - 1], types);
    assert matches == matches[..n] + matches[n..];
  }

  lemma AscendingSnoc(es: seq<StoredEvent>, e: StoredEvent)
    requires Ascending(es) && e.globalPosition >= 1
    requires forall x | x in es :: x.globalPosition < e.globalPosition
    ensures Ascending(es + [e])
  {
  }

  /** A filtered log is still in log order without repeats. */
  lemma {:induction false} MatchesStayAscending(log: seq<StoredEvent>, keep: StoredEvent -> bool)
    requires Ascending(log)
    ensures Ascending(Filter(log, keep))
  {
    if log != [] {
      var front, last := log[..|log| - 1], log[|log| - 1];
      assert Ascending(front);
      MatchesStayAscending(front, keep);
      FilterMembers(front, keep);
      if keep(last) {
        AscendingSnoc(Filter(front, keep), last);
      }
    }
  }

  lemma MatchesGrow(log: seq<StoredEvent>, log': seq<StoredEvent>, from: int, types: seq<EventType>)
    requires log <= log'
    ensures Matching(log, from, types) <= Matching(log', from, types)
  {
    assert log' == log + log'[|log|..];
    FilterAppend(log, log'[|log|..], Wanted(from, types));
  }

  lemma SliceWhole(rows: seq<StoredEvent>, from: int)
    ensures from <= 1 ==> Slice(rows, from, None) == rows
  {
    assert rows[0..|rows|] == rows;
  }

  lemma RowPosition(log: seq<StoredEvent>, i: nat, sid: string)
    requires i < |log| && Numbered(Filter(log, OnStream(sid))) && log[i].streamId == sid
    ensures log[i].streamPosition == |Filter(log[..i], OnStream(sid))| + 1
  {
    var seen := Filter(log[..i], OnStream(sid));
    assert log[..i + 1] == log[..i] + [log[i]];
    FilterSnoc(log[..i], log[i], OnStream(sid));
    StreamPrefix(log[..i + 1], log, sid);
    assert Filter(log, OnStream(sid))[|seen|] == (seen + [log[i]])[|seen|];
  }

  lemma ScanRow(log: seq<StoredEvent>, i: nat, sid: string)
    requires i < |log| && Numbered(Filter(log, OnStream(sid)))
    ensures log[i].streamId != sid ==> Filter(log[..i + 1], OnStream(sid)) == Filter(log[..i], OnStream(sid))
    ensures log[i].streamId == sid ==> Filter(log[..i + 1], OnStream(sid)) == Filter(log[..i], OnStream(sid)) + [log[i]]
    ensures log[i].streamId == sid ==> log[i].streamPosition == |Filter(log[..i], OnStream(sid))| + 1
  {
    assert log[..i + 1] == log[..i] + [log[i]];
    FilterSnoc(log[..i], log[i], OnStream(sid));
    if log[i].streamId == sid {
      RowPosition(log, i, sid);
    }
  }

  lemma ScanResult(log: seq<StoredEvent>, log': seq<StoredEvent>, final: seq<StoredEvent>,
                   from: int, types: seq<EventType>)
    requires Ascending(final) && log <= log' <= final
    ensures Ascending(Matching(log', from, types))
    ensures Matching(log, from, types) <= Matching(log', from, types)
  {
    MatchesStayAscending(log', Wanted(from, types));
    MatchesGrow(log, log', from, types);
  }

  /** Extending a numbered stream by its next row extends the slice when that row is in range. */
  lemma SliceSnoc(rows: seq<StoredEvent>, e: StoredEvent, from: int, to: Option<int>)
    requires e.streamPosition == |rows| + 1
    ensures Slice(rows + [e], from, to) == Slice(rows, from, to) +
      (if from <= e.streamPosition && (to == None || e.streamPosition <= to.value) then [e] else [])
  {
    var n := |rows|;
    var lo := Clamp(from - 1, 0, n);
    var hi := if to.Some? then Clamp(to.value, 0, n) else n;
    if from <= n + 1 && (to == None || n + 1 <= to.value) {
      assert hi == n;
      assert (rows + [e])[lo..n + 1] == rows[lo..n] + [e];
    } else if from > n + 1 {
      assert lo == n;
    } else {
      assert Clamp(to.value, 0, n + 1) == hi;
      if lo < hi {
        assert (rows + [e])[lo..hi] == rows[lo..hi];
      }
    }
  }

  /** An id of the caller, unless it is empty. */
  predicate Kept(kept: Option<string>, given: Option<string>)
  {
    kept == if given.Some? && given.value != "" then given else None
  }

  /** What an append leaves in the tables: one event row per event handed in, in order, each with what was handed in,
      and one message per row. */
  ghost predicate Arrived(before: Ledger, after: Ledger, sid: string, inserts: seq<Insert>, correlation: Option<string>,
                          causation: Option<string>)
  {
    var n, m := |before.events|, |before.outbox|;
    && |after.events| == n + |inserts| && |after.outbox| == m + |inserts|
    && before.events <= after.events && before.outbox <= after.outbox
    && forall i | 0 <= i < |inserts| ::
         var e := after.events[n + i];
         && e.streamId == sid && e.streamPosition == Version(before, sid) + 1 + i
         && e.eventType == inserts[i].event.eventType && e.version == inserts[i].event.version
         && e.payload == inserts[i].event.payload
         && e.eventId == inserts[i].stamp.eventId && e.globalPosition == inserts[i].stamp.globalPosition
         && e.recordedAt == inserts[i].stamp.recordedAt
         && Kept(e.metadata.correlationId, correlation) && Kept(e.metadata.causationId, causation)
         && Announces(after.outbox[m + i], e)
  }

  lemma AppendArrives(l: Ledger, sid: string, inserts: seq<Insert>, expected: int, correlation: Option<string>,
                      causation: Option<string>)
    ensures var (l', r) := EventLog.Append(l, sid, inserts, expected, MakeMetadata(correlation, causation));
      r.Appended? ==> Arrived(l, l', sid, inserts, correlation, causation)
  {
    var meta := MakeMetadata(correlation, causation);
    var (l', r) := EventLog.Append(l, sid, inserts, expected, meta);
    if r.Appended? && inserts != [] {
      var rows := Rows(sid, Version(l, sid), inserts, meta);
      assert l'.events == l.events + rows && l'.outbox == l.outbox + Map(Announce, rows);
      OutboxTellsLog(Ledger(rows, map[], Map(Announce, rows)));
    }
  }

  class EventStore {
    var events: seq<StoredEvent>
    var streams: map<string, StreamRow>
    var outbox: seq<OutboxEntry>
    var upcasters: Registry

    ghost function State(): Ledger
      reads this
    {
      Ledger(events, streams, outbox)
    }

    ghost predicate Valid()
      reads this
    {
      Sound(State())
    }

    constructor (registry: Registry)
      ensures Valid() && State() == EmptyLedger && upcasters == registry
    {
      events, streams, outbox := [], map[], [];
      upcasters := registry;
    }

    method Append(sid: string, inserts: seq<Insert>, expected: int,
                  correlation: Option<string>, causation: Option<string>) returns (r: AppendResult)
      requires Valid()
      modifies this`events, this`streams, this`outbox
      ensures (State(), r) == EventLog.Append(old(State()), sid, inserts, expected,
                                              MakeMetadata(correlation, causation))
      ensures Valid() && Extends(old(State()), State())
      ensures r.Appended? ==> Arrived(old(State()), State(), sid, inserts, correlation, causation)
    {
      AppendKeepsSound(State(), sid, inserts, expected, MakeMetadata(correlation, causation));
      AppendArrives(State(), sid, inserts, expected, correlation, causation);
      if inserts == [] {
        var v := StreamVersion(sid);
        return Appended(v);
      }
      var current: nat;
      var kind := AggregateType(sid);
      if sid !in streams {
        if expected != -1 && expected != 0 {
          return Conflict(expected, 0);
        }
        current := 0;
      } else {
        if streams[sid].archived {
          return StreamArchived;
        }
        current := streams[sid].version;
        if expected != -1 && expected != current {
          return Conflict(expected, current);
        }
        kind := streams[sid].aggregateType;
      }
      var meta := MakeMetadata(correlation, causation);
      var inserted := InsertRows(sid, current, inserts, meta);
      var newVersion := current + |inserts|;
      streams := streams[sid := StreamRow(kind, newVersion, false)];
      QueueRows(inserted);
      r := Appended(newVersion);
    }

    /** The insertion loop: one row per event at consecutive positions. */
    method InsertRows(sid: string, current: nat, inserts: seq<Insert>,
                      meta: Metadata) returns (inserted: seq<StoredEvent>)
      modifies this`events
      ensures inserted == Rows(sid, current, inserts, meta)
      ensures events == old(events) + inserted
    {
      inserted := [];
      var newVersion := current;
      for i := 0 to |inserts|
        invariant newVersion == current + i
        invariant inserted == Rows(sid, current, inserts, meta)[..i]
        invariant events == old(events) + inserted
      {
        newVersion := newVersion + 1;
        var row := Row(sid, newVersion, inserts[i], meta);
        events := events + [row];
        inserted := inserted + [row];
      }
    }

    /** The outbox loop of the same transaction. */
    method QueueRows(inserted: seq<StoredEvent>)
      modifies this`outbox
      ensures outbox == old(outbox) + Map(Announce, inserted)
    {
      for i := 0 to |inserted|
        invariant outbox == old(outbox) + Map(Announce, inserted)[..i]
      {
        outbox := outbox + [Announce(inserted[i])];
      }
    }

    method StreamVersion(sid: string) returns (v: nat)
      ensures v == Version(State(), sid)
    {
      v := if sid in streams then streams[sid].version else 0;
    }

    /** False stands for StreamNotFoundError, which also answers a second archive of the same stream. */
    method ArchiveStream(sid: string) returns (found: bool)
      requires Valid()
      modifies this`streams
      ensures (State(), found) == Archive(old(State()), sid)
      ensures Valid() && Extends(old(State()), State())
      ensures Archived(State(), sid) <==> found || old(Archived(State(), sid))
    {
      ArchiveKeepsSound(State(), sid);
      if sid in streams && !streams[sid].archived {
        streams := streams[sid := streams[sid].(archived := true)];
        return true;
      }
      return false;
    }

    /** The rows of a stream between two positions, in stream order, each upcast. */
    method LoadStream(sid: string, from: int, to: Option<int>) returns (out: seq<StoredEvent>)
      requires Valid()
      ensures out == MigratedAll(upcasters, Slice(Stream(State(), sid), from, to))
      ensures from <= 1 && to == None ==> out == MigratedAll(upcasters, Stream(State(), sid))
    {
      var picked: seq<StoredEvent> := [];
      assert StreamSound(State(), sid);
      for i := 0 to |events|
        invariant picked == Slice(Filter(events[..i], OnStream(sid)), from, to)
      {
        ScanRow(events, i, sid);
        if events[i].streamId == sid {
          SliceSnoc(Filter(events[..i], OnStream(sid)), events[i], from, to);
          if from <= events[i].streamPosition && (to == None || events[i].streamPosition <= to.value) {
            picked := picked + [events[i]];
          }
        }
      }
      assert events[..|events|] == events;
      SliceWhole(Stream(State(), sid), from);
      out := MigratedAll(upcasters, picked);
    }

    /** The paged scan. logAt(k) is the events table at the k-th fetch; writers may append between
        fetches, up to the final log. What is yielded is one filter of the table as the last fetch saw
        it: with a fixed log every matching event once and in order, with a growing one all that was
        there at the start followed by later arrivals, nothing twice. */
    method LoadAll(from: int, types: seq<EventType>, batchSize: nat, logAt: nat -> seq<StoredEvent>,
                   ghost final: seq<StoredEvent>)
      returns (out: seq<StoredEvent>, fetches: nat)
      requires Ascending(final)
      requires forall i: nat, j: nat | i <= j :: logAt(i) <= logAt(j)
      requires forall k: nat :: logAt(k) <= final
      ensures batchSize == 0 ==> out == []
      ensures batchSize > 0 ==> out == MigratedAll(upcasters, Matching(logAt(fetches), from, types))
      ensures batchSize > 0 ==> MigratedAll(upcasters, Matching(logAt(0), from, types)) <= out
      ensures forall e :: e in Matching(logAt(fetches), from, types) <==>
        e in logAt(fetches) && e.globalPosition >= from && (types == [] || e.eventType in types)
      ensures Ascending(Matching(logAt(fetches), from, types))
    {
      var rows: seq<StoredEvent> := [];
      fetches := 0;
      var cursor := from;
      while true
        invariant batchSize > 0 ==>
          Matching(logAt(fetches), from, types) == rows + Matching(logAt(fetches), cursor, types)
        invariant from <= cursor
        invariant batchSize == 0 ==> rows == []
        decreases |Matching(final, cursor, types)|
      {
        var log := logAt(fetches);
        var matches := Matching(log, cursor, types);
        var page := Take(matches, batchSize);
        if page == [] {
          break;
        }
        ghost var before := rows;
        rows := rows + page;
        if |page| < batchSize {
          break;
        }
        assert logAt(fetches) <= logAt(fetches + 1);
        PageStep(log, logAt(fetches + 1), final, from, cursor, batchSize, types, before);
        var next := page[|page| - 1].globalPosition + 1;
        cursor := next;
        fetches := fetches + 1;
      }
      assert logAt(0) <= logAt(fetches) && logAt(fetches) <= final;
      ScanResult(logAt(0), logAt(fetches), final, from, types);
      FilterMembers(logAt(fetches), Wanted(from, types));
      out := MigratedAll(upcasters, rows);
    }
  }

  /** What other writers may do at an await: this method promises its callers only that. */
  method Interfere(store: EventStore)
    requires store.Valid()
    modifies store`events, store`streams, store`outbox
    ensures store.Valid() && Extends(old(store.State()), store.State())
  {
  }
}
