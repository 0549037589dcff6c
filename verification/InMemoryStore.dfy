/** The in-memory event store: zero-based positions, strict versions, one list per stream beside the global one. */
module InMemoryStore {
  import opened Events
  import opened Sequences
  import EventLog

  datatype Entry = Entry(eventId: string, streamId: string, position: int, globalPosition: nat, event: NewEvent)

  datatype Memory = Memory(streams: map<string, seq<Entry>>, versions: map<string, int>, log: seq<Entry>)

  const EmptyMemory := Memory(map[], map[], [])

  function OnStream(sid: string): Entry -> bool
  {
    (e: Entry) => e.streamId == sid
  }

  function Rows(m: Memory, sid: string): seq<Entry>
  {
    if sid in m.streams then m.streams[sid] else []
  }

  /** The position of the last event, -1 for an empty or unknown stream. */
  function Version(m: Memory, sid: string): int
  {
    if sid in m.versions then m.versions[sid] else -1
  }

  /** The entries an append creates; ids are supplied by the uuid generator. */
  function NewEntries(sid: string, current: int, next: nat, events: seq<NewEvent>, ids: nat -> string): (r: seq<Entry>)
    ensures |r| == |events|
    ensures forall i | 0 <= i < |events| :: r[i] == Entry(ids(next + i), sid, current + 1 + i, next + i, events[i])
  {
    seq(|events|, i requires 0 <= i < |events| => Entry(ids(next + i), sid, current + 1 + i, next + i, events[i]))
  }

  /** An event as a caller hands it in; None stands for a dictionary without an event type. */
  type Draft = Option<NewEvent>

  /** The events before the first draft without a type. */
  function Typed(drafts: seq<Draft>): (r: seq<NewEvent>)
    ensures |r| <= |drafts|
    ensures forall i | 0 <= i < |r| :: drafts[i] == Some(r[i])
    ensures |r| < |drafts| ==> drafts[|r|].None?
  {
    if drafts == [] || drafts[0].None? then [] else [drafts[0].value] + Typed(drafts[1..])
  }

  predicate AllTyped(drafts: seq<Draft>)
  {
    |Typed(drafts)| == |drafts|
  }

  datatype Appended = Positions(positions: seq<int>) | Conflict(expected: int, actual: int) | MissingType

  /** The per-stream lists with entries added to one of them. */
  function WithRows(m: Memory, sid: string, entries: seq<Entry>): map<string, seq<Entry>>
  {
    if entries == [] then m.streams else m.streams[sid := Rows(m, sid) + entries]
  }

  lemma RowsNext(m: Memory, sid: string, entries: seq<Entry>, i: nat)
    requires i < |entries|
    ensures var streams := WithRows(m, sid, entries[..i]);
      WithRows(m, sid, entries[..i + 1]) ==
        streams[sid := (if sid in streams then streams[sid] else []) + [entries[i]]]
    ensures entries[..i + 1] == entries[..i] + [entries[i]]
  {
    var rows := Rows(m, sid);
    assert entries[..i + 1] == entries[..i] + [entries[i]];
    assert rows + [] == rows && (rows + entries[..i]) + [entries[i]] == rows + entries[..i + 1];
  }

  /** What one append does, as a value. An empty batch on a new stream still records version -1. A draft without a type
      raises in the loop: the drafts before it are stored, and the version is not moved. */
  function Append(m: Memory, sid: string, drafts: seq<Draft>, expected: int, ids: nat -> string): (Memory, Appended)
  {
    var current := Version(m, sid);
    if current != expected then (m, Conflict(expected, current))
    else
      var events := Typed(drafts);
      var entries := NewEntries(sid, current, |m.log|, events, ids);
      var streams := WithRows(m, sid, entries);
      if |events| < |drafts| then (Memory(streams, m.versions, m.log + entries), MissingType)
      else
        (Memory(streams, m.versions[sid := current + |events|], m.log + entries),
         Positions(seq(|events|, i => current + 1 + i)))
  }

  /** A stream's list is the global list taken apart. */
  ghost predicate StreamSplit(m: Memory, sid: string)
  {
    Rows(m, sid) == Filter(m.log, OnStream(sid))
  }

  /** The stream is numbered from zero up to its version. */
  ghost predicate StreamNumbered(m: Memory, sid: string)
  {
    && Version(m, sid) == |Rows(m, sid)| - 1
    && forall i | 0 <= i < |Rows(m, sid)| :: Rows(m, sid)[i].position == i
  }

  ghost predicate StreamAgrees(m: Memory, sid: string)
  {
    StreamSplit(m, sid) && StreamNumbered(m, sid)
  }

  ghost predicate LogNumbered(log: seq<Entry>)
  {
    forall i | 0 <= i < |log| :: log[i].globalPosition == i
  }

  /** The per-stream lists are the global list taken apart, and global positions are list positions. */
  ghost predicate Split(m: Memory)
  {
    (forall sid :: StreamSplit(m, sid)) && LogNumbered(m.log)
  }

  /** And each stream is numbered from zero up to its version. */
  ghost predicate Agrees(m: Memory)
  {
    (forall sid :: StreamAgrees(m, sid)) && LogNumbered(m.log)
  }

  class InMemoryEventStore {
    var streams: map<string, seq<Entry>>
    var versions: map<string, int>
    var log: seq<Entry>
    var checkpoints: map<string, nat>

    ghost function State(): Memory
      reads this
    {
      Memory(streams, versions, log)
    }

    constructor ()
      ensures State() == EmptyMemory && checkpoints == map[]
    {
      streams, versions, log, checkpoints := map[], map[], [], map[];
    }

    method StreamVersion(sid: string) returns (v: int)
      ensures v == Version(State(), sid)
    {
      v := if sid in versions then versions[sid] else -1;
    }

    /** One turn of the loop. */
    method StoreEntry(stored: Entry)
      modifies this`streams, this`log
      ensures streams == old(streams)[stored.streamId := old(Rows(State(), stored.streamId)) + [stored]]
      ensures log == old(log) + [stored]
    {
      var sid := stored.streamId;
      streams := streams[sid := (if sid in streams then streams[sid] else []) + [stored]];
      log := log + [stored];
    }

    /** The loop fills both lists event by event, up to the first draft without a type. */
    method FillLists(sid: string, drafts: seq<Draft>, current: int, ids: nat -> string)
      returns (ok: bool, positions: seq<int>)
      modifies this`streams, this`log
      ensures ok == AllTyped(drafts)
      ensures var entries := NewEntries(sid, current, old(|log|), Typed(drafts), ids);
        streams == WithRows(old(State()), sid, entries) && log == old(log) + entries
      ensures ok ==> positions == seq(|drafts|, k => current + 1 + k)
    {
      ghost var before := State();
      ghost var entries := NewEntries(sid, current, |log|, Typed(drafts), ids);
      positions := [];
      for i := 0 to |drafts|
        invariant i <= |entries|
        invariant log == before.log + entries[..i]
        invariant streams == WithRows(before, sid, entries[..i])
        invariant positions == seq(i, k => current + 1 + k)
      {
        if drafts[i].None? {
          assert entries[..i] == entries;
          return false, positions;
        }
        var stored := Entry(ids(|log|), sid, current + 1 + i, |log|, drafts[i].value);
        assert stored == entries[i];
        RowsNext(before, sid, entries, i);
        StoreEntry(stored);
        positions := positions + [current + 1 + i];
      }
      assert entries[..|drafts|] == entries;
      ok := true;
    }

    /** The version test, the loop and the new version; the lock of the stream is held throughout. */
    method AppendEvents(sid: string, drafts: seq<Draft>, expected: int, ids: nat -> string) returns (r: Appended)
      modifies this`streams, this`versions, this`log
      ensures (State(), r) == Append(old(State()), sid, drafts, expected, ids)
    {
      var current := if sid in versions then versions[sid] else -1;
      if current != expected {
        return Conflict(expected, current);
      }
      var ok, positions := FillLists(sid, drafts, current, ids);
      if !ok {
        return MissingType;
      }
      versions := versions[sid := current + |drafts|];
      r := Positions(positions);
    }

    /** A scan of one stream between two positions, sorted; no upper bound means all. Entries with the same position,
        which a broken-off batch leaves behind, stay in the order they were stored in. */
    method LoadStream(sid: string, from: int, to: Option<int>) returns (out: seq<Entry>)
      ensures NeverFalls(out)
      ensures var picked := Filter(Rows(State(), sid), InRange(from, to));
        forall p :: Filter(out, AtPosition(p)) == Filter(picked, AtPosition(p))
      ensures StreamAgrees(State(), sid) ==> out == Filter(Filter(log, OnStream(sid)), InRange(from, to))
      ensures StreamAgrees(State(), sid) ==> forall i, j | 0 <= i < j < |out| :: out[i].position < out[j].position
    {
      var rows := if sid in streams then streams[sid] else [];
      var picked: seq<Entry> := [];
      for k := 0 to |rows|
        invariant picked == Filter(rows[..k], InRange(from, to))
      {
        assert rows[..k + 1] == rows[..k] + [rows[k]];
        FilterSnoc(rows[..k], rows[k], InRange(from, to));
        if rows[k].position >= from && (to == None || rows[k].position <= to.value) {
          picked := picked + [rows[k]];
        } else {
          assert Filter(rows[..k], InRange(from, to)) + [] == Filter(rows[..k], InRange(from, to));
        }
      }
      assert rows[..|rows|] == rows;
      out := Sorted(picked);
      SortIsStable(picked);
      if StreamAgrees(State(), sid) {
        FilterStaysNumbered(rows, InRange(from, to));
        SortKeepsSorted(picked);
      }
    }

    /** Every entry from a global position on; the batch size is ignored. This is a generator: logAt(k) is the global
        list when the caller resumes it the k-th time, so entries appended while it iterates are yielded too. */
    method LoadAll(from: int, logAt: nat -> seq<Entry>, ghost final: seq<Entry>) returns (out: seq<Entry>, n: nat)
      requires logAt(0) == log
      requires forall i: nat, j: nat | i <= j :: logAt(i) <= logAt(j)
      requires forall k: nat :: logAt(k) <= final
      ensures n == |logAt(n)| && out == Filter(logAt(n), FromPosition(from))
      ensures Filter(log, FromPosition(from)) <= out
    {
      out, n := [], 0;
      while n < |logAt(n)|
        invariant n <= |logAt(n)| && out == Filter(logAt(n)[..n], FromPosition(from))
        decreases |final| - n
      {
        var e := logAt(n)[n];
        assert logAt(n) <= logAt(n + 1) && logAt(n) <= final;
        assert logAt(n + 1)[..n + 1] == logAt(n)[..n] + [e];
        FilterSnoc(logAt(n)[..n], e, FromPosition(from));
        if e.globalPosition >= from {
          out := out + [e];
        } else {
          assert out + [] == out;
        }
        n := n + 1;
      }
      assert logAt(n)[..n] == logAt(n) && logAt(0) <= logAt(n);
      assert logAt(n) == log + logAt(n)[|log|..];
      FilterAppend(log, logAt(n)[|log|..], FromPosition(from));
    }
  }

  // ---- sorted() by position ----

  /** An entry put behind all that do not lie past it. */
  function Place(sorted: seq<Entry>, e: Entry): seq<Entry>
  {
    if sorted == [] || sorted[|sorted| - 1].position <= e.position then sorted + [e]
    else Place(sorted[..|sorted| - 1], e) + [sorted[|sorted| - 1]]
  }

  function SortByPosition(xs: seq<Entry>): seq<Entry>
  {
    Fold(Place, [], xs)
  }

  ghost predicate NeverFalls(xs: seq<Entry>)
  {
    forall i, j | 0 <= i < j < |xs| :: xs[i].position <= xs[j].position
  }

  function AtPosition(p: int): Entry -> bool
  {
    (e: Entry) => e.position == p
  }

  lemma {:induction false} PlaceKeepsOrder(sorted: seq<Entry>, e: Entry)
    requires NeverFalls(sorted)
    ensures NeverFalls(Place(sorted, e))
    ensures forall x | x in Place(sorted, e) :: x == e || x in sorted
  {
    if sorted != [] && sorted[|sorted| - 1].position > e.position {
      var front, last := sorted[..|sorted| - 1], sorted[|sorted| - 1];
      PlaceKeepsOrder(front, e);
      forall i | 0 <= i < |Place(front, e)| ensures Place(front, e)[i].position <= last.position {
        assert Place(front, e)[i] in Place(front, e);
      }
    }
  }

  lemma SwapEmpty(a: seq<Entry>, b: seq<Entry>, c: seq<Entry>)
    requires b == [] || c == []
    ensures a + b + c == a + c + b
  {
    assert a + b + c == a + (b + c) && a + c + b == a + (c + b);
  }

  function IfAt(e: Entry, p: int): seq<Entry>
  {
    if e.position == p then [e] else []
  }

  lemma {:induction false} PlaceIsStable(sorted: seq<Entry>, e: Entry, p: int)
    ensures Filter(Place(sorted, e), AtPosition(p)) == Filter(sorted, AtPosition(p)) + IfAt(e, p)
  {
    if sorted == [] || sorted[|sorted| - 1].position <= e.position {
      FilterSnoc(sorted, e, AtPosition(p));
    } else {
      var front, last := sorted[..|sorted| - 1], sorted[|sorted| - 1];
      PlaceIsStable(front, e, p);
      FilterSnoc(Place(front, e), last, AtPosition(p));
      FilterSnoc(front, last, AtPosition(p));
      assert sorted == front + [last];
      SwapEmpty(Filter(front, AtPosition(p)), IfAt(e, p), IfAt(last, p));
    }
  }

  /** The sorted list never falls, and entries with one position stay in their order. So it is a permutation too. */
  lemma {:induction false} SortIsStable(xs: seq<Entry>)
    ensures NeverFalls(SortByPosition(xs))
    ensures forall p :: Filter(SortByPosition(xs), AtPosition(p)) == Filter(xs, AtPosition(p))
  {
    if xs != [] {
      var front, last := xs[..|xs| - 1], xs[|xs| - 1];
      SortIsStable(front);
      PlaceKeepsOrder(SortByPosition(front), last);
      assert xs == front + [last];
      forall p ensures Filter(SortByPosition(xs), AtPosition(p)) == Filter(xs, AtPosition(p)) {
        PlaceIsStable(SortByPosition(front), last, p);
        FilterSnoc(front, last, AtPosition(p));
      }
    }
  }

  lemma {:induction false} SortKeepsSorted(xs: seq<Entry>)
    requires NeverFalls(xs)
    ensures SortByPosition(xs) == xs
  {
    if xs != [] {
      SortKeepsSorted(xs[..|xs| - 1]);
    }
  }

  method Sorted(xs: seq<Entry>) returns (out: seq<Entry>)
    ensures out == SortByPosition(xs)
  {
    out := [];
    for i := 0 to |xs|
      invariant out == SortByPosition(xs[..i])
    {
      assert xs[..i + 1] == xs[..i] + [xs[i]];
      FoldSnoc(Place, [], xs[..i], xs[i]);
      out := Place(out, xs[i]);
    }
    assert xs[..|xs|] == xs;
  }

  function FromPosition(from: int): Entry -> bool
  {
    (e: Entry) => e.globalPosition >= from
  }

  function InRange(from: int, to: Option<int>): Entry -> bool
  {
    (e: Entry) => e.position >= from && (to == None || e.position <= to.value)
  }

  lemma {:induction false} FilterStaysNumbered(rows: seq<Entry>, keep: Entry -> bool)
    requires forall i | 0 <= i < |rows| :: rows[i].position == i
    ensures forall i, j | 0 <= i < j < |Filter(rows, keep)| ::
      Filter(rows, keep)[i].position < Filter(rows, keep)[j].position
    ensures forall i | 0 <= i < |Filter(rows, keep)| :: Filter(rows, keep)[i].position < |rows|
  {
    if rows != [] {
      FilterStaysNumbered(rows[..|rows| - 1], keep);
    }
  }

  // ---- what every run keeps ----

  lemma NewEntriesOnStream(log: seq<Entry>, sid: string, current: int, events: seq<NewEvent>, ids: nat -> string,
                           other: string)
    ensures var entries := NewEntries(sid, current, |log|, events, ids);
      Filter(log + entries, OnStream(other)) == Filter(log, OnStream(other)) + if other == sid then entries else []
  {
    var entries := NewEntries(sid, current, |log|, events, ids);
    FilterAppend(log, entries, OnStream(other));
    if other == sid {
      FilterAll(entries, OnStream(other));
    } else {
      FilterNone(entries, OnStream(other));
    }
  }

  lemma RowsAfter(m: Memory, sid: string, entries: seq<Entry>, versions: map<string, int>, log: seq<Entry>,
                  other: string)
    ensures Rows(Memory(WithRows(m, sid, entries), versions, log), other) ==
      Rows(m, other) + if other == sid then entries else []
  {
    assert Rows(m, other) + [] == Rows(m, other);
  }

  lemma AppendKeepsStreamSplit(m: Memory, sid: string, drafts: seq<Draft>, expected: int, ids: nat -> string,
                               other: string)
    requires StreamSplit(m, sid) && StreamSplit(m, other)
    ensures StreamSplit(Append(m, sid, drafts, expected, ids).0, other)
  {
    var m' := Append(m, sid, drafts, expected, ids).0;
    if Version(m, sid) == expected {
      var entries := NewEntries(sid, expected, |m.log|, Typed(drafts), ids);
      assert m'.streams == WithRows(m, sid, entries) && m'.log == m.log + entries;
      RowsAfter(m, sid, entries, m'.versions, m'.log, other);
      NewEntriesOnStream(m.log, sid, expected, Typed(drafts), ids, other);
    }
  }

  lemma AppendKeepsSplit(m: Memory, sid: string, drafts: seq<Draft>, expected: int, ids: nat -> string)
    requires Split(m)
    ensures Split(Append(m, sid, drafts, expected, ids).0)
  {
    var m' := Append(m, sid, drafts, expected, ids).0;
    assert StreamSplit(m, sid);
    forall other ensures StreamSplit(m', other) {
      assert StreamSplit(m, other);
      AppendKeepsStreamSplit(m, sid, drafts, expected, ids, other);
    }
  }

  /** The batch is refused by the version test, or every draft of it has a type, or already its first has none. */
  predicate Clean(m: Memory, sid: string, drafts: seq<Draft>, expected: int)
  {
    Version(m, sid) != expected || AllTyped(drafts) || Typed(drafts) == []
  }

  lemma AppendNumbersExactly(m: Memory, sid: string, drafts: seq<Draft>, expected: int, ids: nat -> string,
                             other: string)
    requires StreamNumbered(m, other)
    ensures StreamNumbered(Append(m, sid, drafts, expected, ids).0, other) <==>
      other != sid || Clean(m, sid, drafts, expected)
  {
    if other == sid && Version(m, sid) == expected {
      var m' := Append(m, sid, drafts, expected, ids).0;
      var entries := NewEntries(sid, expected, |m.log|, Typed(drafts), ids);
      assert Rows(m', sid) == Rows(m, sid) + entries;
    }
  }

  /** One append, exactly: the store still agrees with itself unless a draft without a type stands behind one with a
      type. Then the first events of the batch are stored and the version is not moved. */
  lemma AppendAgreesExactly(m: Memory, sid: string, drafts: seq<Draft>, expected: int, ids: nat -> string)
    requires Agrees(m)
    ensures Agrees(Append(m, sid, drafts, expected, ids).0) <==> Clean(m, sid, drafts, expected)
  {
    var m' := Append(m, sid, drafts, expected, ids).0;
    forall other ensures StreamSplit(m, other) {
      assert StreamAgrees(m, other);
    }
    AppendKeepsSplit(m, sid, drafts, expected, ids);
    forall other ensures StreamNumbered(m', other) <==> other != sid || Clean(m, sid, drafts, expected) {
      assert StreamAgrees(m, other);
      AppendNumbersExactly(m, sid, drafts, expected, ids, other);
    }
    if Clean(m, sid, drafts, expected) {
      forall other ensures StreamAgrees(m', other) {
        assert StreamSplit(m', other) && StreamNumbered(m', other);
      }
    } else {
      assert !StreamAgrees(m', sid);
    }
  }

  /** After such a batch the next accepted event gets the position of one that is already stored. */
  lemma PositionRepeats(m: Memory, sid: string, drafts: seq<Draft>, expected: int, event: NewEvent, ids: nat -> string)
    requires Agrees(m) && !Clean(m, sid, drafts, expected)
    ensures var m' := Append(m, sid, drafts, expected, ids).0;
      var m'' := Append(m', sid, [Some(event)], expected, ids).0;
      var n := |Rows(m, sid)|;
      && n + 1 < |Rows(m'', sid)|
      && Rows(m'', sid)[n].position == Rows(m'', sid)[|Rows(m'', sid)| - 1].position == expected + 1
  {
    assert StreamAgrees(m, sid);
    var m' := Append(m, sid, drafts, expected, ids).0;
    assert Rows(m', sid) == Rows(m, sid) + NewEntries(sid, expected, |m.log|, Typed(drafts), ids);
    assert Typed([Some(event)]) == [event] by {
      assert [Some(event)][1..] == [];
    }
    var m'' := Append(m', sid, [Some(event)], expected, ids).0;
    assert Rows(m'', sid) == Rows(m', sid) + NewEntries(sid, expected, |m'.log|, [event], ids);
  }

  datatype Call = Call(sid: string, drafts: seq<Draft>, expected: int)

  /** The store before the n-th call of a run. */
  function Before(m: Memory, calls: seq<Call>, ids: nat -> string, n: nat): Memory
    requires n <= |calls|
  {
    if n == 0 then m
    else
      var c := calls[n - 1];
      Append(Before(m, calls, ids, n - 1), c.sid, c.drafts, c.expected, ids).0
  }

  predicate Succeeds(m: Memory, calls: seq<Call>, ids: nat -> string, n: nat)
    requires n < |calls|
  {
    Version(Before(m, calls, ids, n), calls[n].sid) == calls[n].expected && AllTyped(calls[n].drafts)
  }

  /** Over every run of appends, accepted, refused or broken off, the lists are the global one taken apart. */
  lemma {:induction false} RunKeepsSplit(m: Memory, calls: seq<Call>, ids: nat -> string, n: nat)
    requires Split(m) && n <= |calls|
    ensures Split(Before(m, calls, ids, n))
  {
    if n > 0 {
      RunKeepsSplit(m, calls, ids, n - 1);
      AppendKeepsSplit(Before(m, calls, ids, n - 1), calls[n - 1].sid, calls[n - 1].drafts, calls[n - 1].expected, ids);
    }
  }

  /** How many stored events of a stream its version does not count. */
  function Surplus(m: Memory, sid: string): int
  {
    |Rows(m, sid)| - 1 - Version(m, sid)
  }

  /** A broken-off batch leaves events the version does not count, and nothing ever takes them away. */
  lemma SurplusOnlyGrows(m: Memory, sid: string, drafts: seq<Draft>, expected: int, ids: nat -> string, other: string)
    ensures var m' := Append(m, sid, drafts, expected, ids).0;
      && Surplus(m, other) <= Surplus(m', other)
      && (!Clean(m, sid, drafts, expected) ==> Surplus(m, sid) < Surplus(m', sid))
  {
    var m' := Append(m, sid, drafts, expected, ids).0;
    if Version(m, sid) == expected {
      var entries := NewEntries(sid, expected, |m.log|, Typed(drafts), ids);
      RowsAfter(m, sid, entries, m'.versions, m'.log, other);
      RowsAfter(m, sid, entries, m'.versions, m'.log, sid);
    }
  }

  lemma {:induction false} SurplusStays(m: Memory, calls: seq<Call>, ids: nat -> string, i: nat, j: nat, sid: string)
    requires i <= j <= |calls|
    ensures Surplus(Before(m, calls, ids, i), sid) <= Surplus(Before(m, calls, ids, j), sid)
    decreases j
  {
    if i < j {
      SurplusStays(m, calls, ids, i, j - 1, sid);
      var c := calls[j - 1];
      SurplusOnlyGrows(Before(m, calls, ids, j - 1), c.sid, c.drafts, c.expected, ids, sid);
    }
  }

  predicate CleanCall(m: Memory, calls: seq<Call>, ids: nat -> string, k: nat)
    requires k < |calls|
  {
    Clean(Before(m, calls, ids, k), calls[k].sid, calls[k].drafts, calls[k].expected)
  }

  lemma {:induction false} CleanRunAgrees(m: Memory, calls: seq<Call>, ids: nat -> string, n: nat)
    requires Agrees(m) && n <= |calls|
    requires forall k: nat | k < n :: CleanCall(m, calls, ids, k)
    ensures Agrees(Before(m, calls, ids, n))
  {
    if n > 0 {
      CleanRunAgrees(m, calls, ids, n - 1);
      assert CleanCall(m, calls, ids, n - 1);
      var c := calls[n - 1];
      AppendAgreesExactly(Before(m, calls, ids, n - 1), c.sid, c.drafts, c.expected, ids);
    }
  }

  lemma BrokenRunDisagrees(m: Memory, calls: seq<Call>, ids: nat -> string, n: nat, k: nat)
    requires Agrees(m) && k < n <= |calls| && !CleanCall(m, calls, ids, k)
    ensures !StreamAgrees(Before(m, calls, ids, n), calls[k].sid)
  {
    var c := calls[k];
    assert StreamAgrees(m, c.sid);
    SurplusStays(m, calls, ids, 0, k, c.sid);
    SurplusOnlyGrows(Before(m, calls, ids, k), c.sid, c.drafts, c.expected, ids, c.sid);
    SurplusStays(m, calls, ids, k + 1, n, c.sid);
  }

  /** Over every run of appends, exactly: each stream is numbered from zero up to its version at the end if and only
      if no batch of the run was broken off behind its first event. */
  lemma RunAgreesExactly(m: Memory, calls: seq<Call>, ids: nat -> string, n: nat)
    requires Agrees(m) && n <= |calls|
    ensures Agrees(Before(m, calls, ids, n)) <==> forall k: nat | k < n :: CleanCall(m, calls, ids, k)
  {
    if forall k: nat | k < n :: CleanCall(m, calls, ids, k) {
      CleanRunAgrees(m, calls, ids, n);
    } else {
      var k: nat :| k < n && !CleanCall(m, calls, ids, k);
      BrokenRunDisagrees(m, calls, ids, n, k);
    }
  }

  /** Old entries never change: the log before an earlier call is a prefix of the log before a later one. */
  lemma {:induction false} LogOnlyGrows(m: Memory, calls: seq<Call>, ids: nat -> string, i: nat, j: nat)
    requires i <= j <= |calls|
    ensures Before(m, calls, ids, i).log <= Before(m, calls, ids, j).log
    decreases j
  {
    if i < j {
      LogOnlyGrows(m, calls, ids, i, j - 1);
    }
  }

  lemma {:induction false} VersionsOnlyRise(m: Memory, calls: seq<Call>, ids: nat -> string, i: nat, j: nat,
                                            sid: string)
    requires i <= j <= |calls|
    ensures Version(Before(m, calls, ids, i), sid) <= Version(Before(m, calls, ids, j), sid)
    decreases j
  {
    if i < j {
      VersionsOnlyRise(m, calls, ids, i, j - 1, sid);
    }
  }

  /** Of all the non-empty appends of a run with the same stream and expected version, -1 included, at most one
      succeeds. */
  lemma OneWinnerPerVersion(m: Memory, calls: seq<Call>, ids: nat -> string, i: nat, j: nat)
    requires i < j < |calls|
    requires calls[i].sid == calls[j].sid && calls[i].expected == calls[j].expected && calls[i].drafts != []
    requires Succeeds(m, calls, ids, i)
    ensures !Succeeds(m, calls, ids, j)
  {
    assert Version(Before(m, calls, ids, i + 1), calls[i].sid) == calls[i].expected + |calls[i].drafts|;
    VersionsOnlyRise(m, calls, ids, i + 1, j, calls[i].sid);
  }

  // ---- against the database store ----

  /** The two stores hold equally many events of a stream that is not archived. */
  ghost predicate SameLength(m: Memory, l: EventLog.Ledger, sid: string)
  {
    && Agrees(m) && EventLog.Sound(l) && !EventLog.Archived(l, sid)
    && |Rows(m, sid)| == EventLog.Version(l, sid)
  }

  /** The stores do not stand in for one another. On a stream with n events they give the same answer to an expected
      version exactly when it is none of -1, n - 1 and n, or the stream is empty and it is not 0. So nothing can be
      appended to a non-empty stream with one expected version that both accept. */
  lemma StoresAnswerAlikeExactly(m: Memory, l: EventLog.Ledger, sid: string, drafts: seq<Draft>, expected: int,
                                 ids: nat -> string)
    requires SameLength(m, l, sid) && AllTyped(drafts)
    ensures var n := EventLog.Version(l, sid);
      var alike := Append(m, sid, drafts, expected, ids).1.Positions? == EventLog.Admit(l, sid, expected).Appended?;
      alike <==> (if n == 0 then expected != 0 else expected !in {-1, n - 1, n})
  {
    assert StreamAgrees(m, sid);
  }
}
