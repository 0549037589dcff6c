/** The append-only log as a value: what one committed append or archive does to the
    events, event_streams and outbox tables, and what every run of them keeps. */
module EventLog {
  import opened Events
  import opened Sequences

  const OUTBOX_DESTINATION := "kafka-week-10"

  datatype StreamRow = StreamRow(aggregateType: string, version: nat, archived: bool)

  datatype OutboxEntry = OutboxEntry(eventId: string, destination: string, message: Payload)

  datatype Ledger = Ledger(
    events: seq<StoredEvent>,
    streams: map<string, StreamRow>,
    outbox: seq<OutboxEntry>)

  datatype AppendResult =
    | Appended(version: nat)
    | Conflict(expected: int, actual: nat)
    | StreamArchived

  const EmptyLedger := Ledger([], map[], [])

  // ---- reading ----

  function OnStream(sid: string): StoredEvent -> bool
  {
    (e: StoredEvent) => e.streamId == sid
  }

  /** The rows of one stream in log order. */
  function Stream(l: Ledger, sid: string): seq<StoredEvent>
  {
    Filter(l.events, OnStream(sid))
  }

  function Version(l: Ledger, sid: string): nat
  {
    if sid in l.streams then l.streams[sid].version else 0
  }

  predicate Archived(l: Ledger, sid: string)
  {
    sid in l.streams && l.streams[sid].archived
  }

  /** The stream is no longer as it was at a version. */
  ghost predicate Moved(l: Ledger, sid: string, version: nat)
  {
    Archived(l, sid) || Version(l, sid) != version
  }

  /** The last event of a type. */
  function Latest(es: seq<StoredEvent>, t: EventType): Option<StoredEvent>
  {
    if es == [] then None
    else if es[|es| - 1].eventType == t then Some(es[|es| - 1])
    else Latest(es[..|es| - 1], t)
  }

  /** A payload value of the last event of a type, or a default when there is no such event. */
  function LatestValue(es: seq<StoredEvent>, t: EventType, k: Key, d: Value): Value
  {
    if Latest(es, t).Some? then Get(Latest(es, t).value.payload, k) else d
  }

  /** As dict.get with a default: also when the last event of the type lacks the key. */
  function LatestOr(es: seq<StoredEvent>, t: EventType, k: Key, d: Value): Value
  {
    if Latest(es, t).Some? then GetOr(Latest(es, t).value.payload, k, d) else d
  }

  /** What latest means: the event is in the list, and no later one has its type. */
  lemma {:induction false} LatestIsLast(es: seq<StoredEvent>, t: EventType) returns (n: nat)
    ensures n <= |es| && forall j | n <= j < |es| :: es[j].eventType != t
    ensures match Latest(es, t)
      case None => n == 0
      case Some(e) => n > 0 && es[n - 1] == e && e.eventType == t
  {
    if es == [] || es[|es| - 1].eventType == t {
      n := |es|;
    } else {
      n := LatestIsLast(es[..|es| - 1], t);
    }
  }

  lemma LatestSnoc(es: seq<StoredEvent>, e: StoredEvent, t: EventType)
    ensures Latest(es + [e], t) == if e.eventType == t then Some(e) else Latest(es, t)
  {
    assert (es + [e])[..|es|] == es;
  }

  lemma LatestValueSnoc(es: seq<StoredEvent>, e: StoredEvent, t: EventType, k: Key, d: Value)
    ensures LatestValue(es + [e], t, k, d) == if e.eventType == t then Get(e.payload, k) else LatestValue(es, t, k, d)
  {
    LatestSnoc(es, e, t);
  }

  lemma LatestOrSnoc(es: seq<StoredEvent>, e: StoredEvent, t: EventType, k: Key, d: Value)
    ensures LatestOr(es + [e], t, k, d) == if e.eventType == t then GetOr(e.payload, k, d) else LatestOr(es, t, k, d)
  {
    LatestSnoc(es, e, t);
  }

  lemma LatestSnocAll(es: seq<StoredEvent>, e: StoredEvent)
    ensures forall t :: Latest(es + [e], t) == if e.eventType == t then Some(e) else Latest(es, t)
  {
    forall t ensures Latest(es + [e], t) == if e.eventType == t then Some(e) else Latest(es, t) {
      LatestSnoc(es, e, t);
    }
  }

  // ---- one append ----

  /** stream_id.split("-")[0] */
  function AggregateType(sid: string): string
  {
    if sid == "" || sid[0] == '-' then "" else [sid[0]] + AggregateType(sid[1..])
  }

  /** The version checks; success carries the version the append builds on. */
  function Admit(l: Ledger, sid: string, expected: int): AppendResult
  {
    if sid !in l.streams then
      if expected != -1 && expected != 0 then Conflict(expected, 0) else Appended(0)
    else if l.streams[sid].archived then StreamArchived
    else if expected != -1 && expected != l.streams[sid].version
    then Conflict(expected, l.streams[sid].version)
    else Appended(l.streams[sid].version)
  }

  function Row(sid: string, position: nat, ins: Insert, meta: Metadata): StoredEvent
  {
    StoredEvent(ins.stamp.eventId, sid, position, ins.stamp.globalPosition,
                ins.event.eventType, ins.event.version, ins.event.payload, meta, ins.stamp.recordedAt)
  }

  function Rows(sid: string, version: nat, inserts: seq<Insert>, meta: Metadata): (r: seq<StoredEvent>)
    ensures |r| == |inserts|
    ensures forall i | 0 <= i < |inserts| :: r[i] == Row(sid, version + 1 + i, inserts[i], meta)
  {
    seq(|inserts|, i requires 0 <= i < |inserts| => Row(sid, version + 1 + i, inserts[i], meta))
  }

  /** The payload is merged over the two routing keys, so a payload key of the same name wins. */
  function Announce(e: StoredEvent): OutboxEntry
  {
    OutboxEntry(e.eventId, OUTBOX_DESTINATION,
      map[EventTypeName := TypeName(e.eventType), StreamName := Text(e.streamId)] + e.payload)
  }

  function Append(l: Ledger, sid: string, inserts: seq<Insert>, expected: int, meta: Metadata): (Ledger, AppendResult)
  {
    if inserts == [] then (l, Appended(Version(l, sid)))
    else
      match Admit(l, sid, expected)
      case Appended(v) =>
        var kind := if sid in l.streams then l.streams[sid].aggregateType else AggregateType(sid);
        var rows := Rows(sid, v, inserts, meta);
        (Ledger(l.events + rows,
                l.streams[sid := StreamRow(kind, v + |inserts|, false)],
                l.outbox + Map(Announce, rows)),
         Appended(v + |inserts|))
      case refusal => (l, refusal)
  }

  /** UPDATE ... WHERE archived_at IS NULL; false when no row was touched. */
  function Archive(l: Ledger, sid: string): (Ledger, bool)
  {
    if sid in l.streams && !l.streams[sid].archived then
      (l.(streams := l.streams[sid := l.streams[sid].(archived := true)]), true)
    else (l, false)
  }

  // ---- invariants ----

  ghost predicate Numbered(es: seq<StoredEvent>)
  {
    forall i | 0 <= i < |es| :: es[i].streamPosition == i + 1
  }

  ghost predicate StreamSound(l: Ledger, sid: string)
  {
    Numbered(Stream(l, sid)) && |Stream(l, sid)| == Version(l, sid)
  }

  /** Holds whatever the database stamps are: streams are numbered 1..current_version,
      every event has its stream row, and outbox rows match events one to one in order. */
  ghost predicate Sound(l: Ledger)
  {
    && (forall sid :: StreamSound(l, sid))
    && (forall e | e in l.events :: e.streamId in l.streams)
    && l.outbox == Map(Announce, l.events)
  }

  /** What a message says: the event's own payload, and its type and stream under their keys unless the payload has
      values of its own there. */
  predicate Announces(o: OutboxEntry, e: StoredEvent)
  {
    && o.eventId == e.eventId && o.destination == "kafka-week-10"
    && o.message.Keys == e.payload.Keys + {EventTypeName, StreamName}
    && (forall k | k in e.payload :: o.message[k] == e.payload[k])
    && (EventTypeName !in e.payload ==> o.message[EventTypeName] == TypeName(e.eventType))
    && (StreamName !in e.payload ==> o.message[StreamName] == Text(e.streamId))
  }

  /** The outbox tells the log, message by message. */
  lemma OutboxTellsLog(l: Ledger)
    requires l.outbox == Map(Announce, l.events)
    ensures |l.outbox| == |l.events| && forall i | 0 <= i < |l.events| :: Announces(l.outbox[i], l.events[i])
  {
    forall i | 0 <= i < |l.events| ensures Announces(l.outbox[i], l.events[i]) {
      assert l.outbox[i] == Announce(l.events[i]);
    }
  }

  /** Identity positions ascend from 1. */
  ghost predicate Ascending(es: seq<StoredEvent>)
  {
    && (forall i | 0 <= i < |es| :: es[i].globalPosition >= 1)
    && (forall i, j | 0 <= i < j < |es| :: es[i].globalPosition < es[j].globalPosition)
  }

  /** Identity positions ascend and primary keys are distinct. */
  ghost predicate Ordered(es: seq<StoredEvent>)
  {
    Ascending(es) && forall i, j | 0 <= i < j < |es| :: es[i].eventId != es[j].eventId
  }

  /** The database's promise about the stamps of one insertion. */
  ghost predicate Fresh(l: Ledger, inserts: seq<Insert>)
  {
    && (forall i | 0 <= i < |inserts| :: inserts[i].stamp.globalPosition >= 1)
    && (forall i, j | 0 <= i < |l.events| && 0 <= j < |inserts| ::
          && l.events[i].globalPosition < inserts[j].stamp.globalPosition
          && l.events[i].eventId != inserts[j].stamp.eventId)
    && (forall i, j | 0 <= i < j < |inserts| ::
          && inserts[i].stamp.globalPosition < inserts[j].stamp.globalPosition
          && inserts[i].stamp.eventId != inserts[j].stamp.eventId)
  }

  /** Old events stay, and an archived stream stays archived with its contents. */
  ghost predicate Extends(l: Ledger, l': Ledger)
  {
    && l.events <= l'.events
    && l.outbox <= l'.outbox
    && (forall sid :: Version(l, sid) <= Version(l', sid))
    && (forall sid | Archived(l, sid) :: Archived(l', sid) && Stream(l', sid) == Stream(l, sid))
  }

  /** The position of the last row, 0 without rows: what an aggregate's version is after its load. */
  function LastPosition(es: seq<StoredEvent>): nat
  {
    if es == [] then 0 else es[|es| - 1].streamPosition
  }

  /** A loaded version is the stream's current_version at the load. */
  lemma LoadedVersionIsStreamVersion(l: Ledger, sid: string)
    requires Sound(l)
    ensures LastPosition(Stream(l, sid)) == Version(l, sid)
  {
    assert StreamSound(l, sid);
  }

  lemma ExtendsReflexive(l: Ledger)
    ensures Extends(l, l)
  {
  }

  lemma ExtendsTransitive(a: Ledger, b: Ledger, c: Ledger)
    requires Extends(a, b) && Extends(b, c)
    ensures Extends(a, c)
  {
    forall sid ensures Version(a, sid) <= Version(c, sid) {
      assert Version(a, sid) <= Version(b, sid) <= Version(c, sid);
    }
  }

  /** A later ledger's stream starts with the earlier one's. */
  lemma StreamPrefix(es: seq<StoredEvent>, es': seq<StoredEvent>, sid: string)
    requires es <= es'
    ensures Filter(es, OnStream(sid)) <= Filter(es', OnStream(sid))
  {
    assert es' == es + es'[|es|..];
    FilterAppend(es, es'[|es|..], OnStream(sid));
  }

  /** What one append does to a stream: it grows by the new rows if it is the target, else nothing. */
  lemma AppendStream(l: Ledger, sid: string, inserts: seq<Insert>, expected: int, meta: Metadata, other: string)
    requires inserts != [] && Admit(l, sid, expected).Appended?
    ensures var l' := Append(l, sid, inserts, expected, meta).0;
      Stream(l', other) == Stream(l, other) +
        (if other == sid then Rows(sid, Admit(l, sid, expected).version, inserts, meta) else [])
  {
    var rows := Rows(sid, Admit(l, sid, expected).version, inserts, meta);
    FilterAppend(l.events, rows, OnStream(other));
    if other == sid {
      FilterAll(rows, OnStream(other));
    } else {
      FilterNone(rows, OnStream(other));
    }
  }

  lemma MapAppend(xs: seq<StoredEvent>, ys: seq<StoredEvent>)
    ensures Map(Announce, xs + ys) == Map(Announce, xs) + Map(Announce, ys)
  {
  }

  lemma AppendKeepsStream(l: Ledger, sid: string, inserts: seq<Insert>, expected: int, meta: Metadata, other: string)
    requires StreamSound(l, sid) && StreamSound(l, other)
    ensures var l' := Append(l, sid, inserts, expected, meta).0;
      && StreamSound(l', other)
      && Version(l, other) <= Version(l', other)
      && (Archived(l, other) ==> Archived(l', other) && Stream(l', other) == Stream(l, other))
  {
    if inserts != [] && Admit(l, sid, expected).Appended? {
      AppendStream(l, sid, inserts, expected, meta, other);
    }
  }

  lemma AppendKeepsSound(l: Ledger, sid: string, inserts: seq<Insert>, expected: int, meta: Metadata)
    requires Sound(l)
    ensures Sound(Append(l, sid, inserts, expected, meta).0)
    ensures Extends(l, Append(l, sid, inserts, expected, meta).0)
  {
    var l' := Append(l, sid, inserts, expected, meta).0;
    assert StreamSound(l, sid);
    forall other
      ensures StreamSound(l', other) && Version(l, other) <= Version(l', other)
      ensures Archived(l, other) ==> Archived(l', other) && Stream(l', other) == Stream(l, other)
    {
      assert StreamSound(l, other);
      AppendKeepsStream(l, sid, inserts, expected, meta, other);
    }
    AppendKeepsTables(l, sid, inserts, expected, meta);
  }

  lemma AppendKeepsTables(l: Ledger, sid: string, inserts: seq<Insert>, expected: int, meta: Metadata)
    requires forall e | e in l.events :: e.streamId in l.streams
    requires l.outbox == Map(Announce, l.events)
    ensures var l' := Append(l, sid, inserts, expected, meta).0;
      && (forall e | e in l'.events :: e.streamId in l'.streams)
      && l'.outbox == Map(Announce, l'.events)
      && l.events <= l'.events && l.outbox <= l'.outbox
  {
    if inserts != [] && Admit(l, sid, expected).Appended? {
      var rows := Rows(sid, Admit(l, sid, expected).version, inserts, meta);
      MapAppend(l.events, rows);
      forall e | e in l.events + rows ensures e.streamId == sid || e.streamId in l.streams {
        if e !in l.events {
          assert e in rows;
        }
      }
    }
  }

  lemma ArchiveKeepsSound(l: Ledger, sid: string)
    requires Sound(l)
    ensures Sound(Archive(l, sid).0)
    ensures Extends(l, Archive(l, sid).0)
  {
    var l' := Archive(l, sid).0;
    forall other ensures StreamSound(l', other) {
      assert StreamSound(l, other);
    }
  }

  lemma AppendKeepsOrdered(l: Ledger, sid: string, inserts: seq<Insert>, expected: int, meta: Metadata)
    requires Ordered(l.events) && Fresh(l, inserts)
    ensures Ordered(Append(l, sid, inserts, expected, meta).0.events)
  {
  }

  // ---- the kinds of streams ----

  /** The part of a stream name before its first hyphen. */
  predicate FirstPart(kind: string, sid: string)
  {
    '-' !in kind && kind <= sid && (kind == sid || sid[|kind|] == '-')
  }

  lemma {:induction false} AggregateTypeIsFirstPart(sid: string)
    ensures FirstPart(AggregateType(sid), sid)
  {
    if sid != "" && sid[0] != '-' {
      AggregateTypeIsFirstPart(sid[1..]);
      assert sid == [sid[0]] + sid[1..];
    }
  }

  ghost predicate KindsFollow(l: Ledger)
  {
    forall sid | sid in l.streams :: FirstPart(l.streams[sid].aggregateType, sid)
  }

  /** Every stream row is created with the first part of the stream's name as its aggregate type, and keeps it. */
  lemma {:induction false} RunKeepsKinds(l: Ledger, ops: seq<Op>)
    requires KindsFollow(l)
    ensures KindsFollow(Run(l, ops))
  {
    if ops != [] {
      var op := ops[|ops| - 1];
      RunKeepsKinds(l, ops[..|ops| - 1]);
      if op.AppendOp? {
        AggregateTypeIsFirstPart(op.sid);
      }
    }
  }

  // ---- runs ----

  datatype Op =
    | AppendOp(sid: string, inserts: seq<Insert>, expected: int, meta: Metadata)
    | ArchiveOp(sid: string)

  function Step(l: Ledger, op: Op): Ledger
  {
    match op
    case AppendOp(sid, inserts, expected, meta) => Append(l, sid, inserts, expected, meta).0
    case ArchiveOp(sid) => Archive(l, sid).0
  }

  function Run(l: Ledger, ops: seq<Op>): Ledger
  {
    Fold(Step, l, ops)
  }

  /** Every append of the run got fresh stamps from the database. */
  ghost predicate Stamped(l: Ledger, ops: seq<Op>)
  {
    forall k | 0 <= k < |ops| && ops[k].AppendOp? :: Fresh(Run(l, ops[..k]), ops[k].inserts)
  }

  lemma StepKeepsSound(l: Ledger, op: Op)
    requires Sound(l)
    ensures Sound(Step(l, op)) && Extends(l, Step(l, op))
  {
    match op
    case AppendOp(sid, inserts, expected, meta) => AppendKeepsSound(l, sid, inserts, expected, meta);
    case ArchiveOp(sid) => ArchiveKeepsSound(l, sid);
  }

  lemma {:induction false} RunKeepsSound(l: Ledger, ops: seq<Op>)
    requires Sound(l)
    ensures Sound(Run(l, ops)) && Extends(l, Run(l, ops))
  {
    if ops != [] {
      var front := ops[..|ops| - 1];
      RunKeepsSound(l, front);
      StepKeepsSound(Run(l, front), ops[|ops| - 1]);
      ExtendsTransitive(l, Run(l, front), Run(l, ops));
    }
  }

  /** The store invariant over every run of appends and archives, successful or refused. */
  lemma {:induction false} RunKeepsStoreInvariant(l: Ledger, ops: seq<Op>)
    requires Sound(l) && Ordered(l.events) && Stamped(l, ops)
    ensures var l' := Run(l, ops);
      && Sound(l') && Ordered(l'.events) && Extends(l, l')
  {
    RunKeepsSound(l, ops);
    if ops != [] {
      var front := ops[..|ops| - 1];
      forall k | 0 <= k < |front| && front[k].AppendOp? ensures Fresh(Run(l, front[..k]), front[k].inserts) {
        assert front[..k] == ops[..k];
      }
      RunKeepsStoreInvariant(l, front);
      var op := ops[|ops| - 1];
      if op.AppendOp? {
        assert Fresh(Run(l, ops[..|ops| - 1]), op.inserts);
        AppendKeepsOrdered(Run(l, front), op.sid, op.inserts, op.expected, op.meta);
      }
    }
  }

  lemma RunSplit(l: Ledger, ops: seq<Op>, k: nat)
    requires k <= |ops|
    ensures Run(l, ops) == Run(Run(l, ops[..k]), ops[k..])
  {
    assert ops == ops[..k] + ops[k..];
    FoldAppend(Step, l, ops[..k], ops[k..]);
  }

  predicate Succeeds(l: Ledger, op: Op)
  {
    op.AppendOp? && op.inserts != [] && Admit(l, op.sid, op.expected).Appended?
  }

  /** Of all appends of a run that name the same stream and the same exact version,
      at most one non-empty one succeeds. */
  lemma OneWinnerPerVersion(l: Ledger, ops: seq<Op>, i: nat, j: nat)
    requires Sound(l)
    requires i < j < |ops|
    requires Succeeds(Run(l, ops[..i]), ops[i])
    requires ops[j].AppendOp? && ops[j].inserts != []
    requires ops[i].sid == ops[j].sid && ops[i].expected == ops[j].expected >= 0
    ensures !Succeeds(Run(l, ops[..j]), ops[j])
  {
    var before := Run(l, ops[..i]);
    var after := Run(l, ops[..i + 1]);
    var sid := ops[i].sid;
    assert ops[..i + 1][..i] == ops[..i];
    assert after == Step(before, ops[i]);
    assert Version(after, sid) > ops[i].expected;
    RunKeepsSound(l, ops[..i + 1]);
    RunSplit(l, ops[..j], i + 1);
    assert ops[..j][..i + 1] == ops[..i + 1];
    RunKeepsSound(after, ops[..j][i + 1..]);
    assert Version(after, sid) <= Version(Run(l, ops[..j]), sid);
  }

  /** Once archived, a stream never changes again, whatever is attempted on it. */
  lemma ArchivedIsFrozen(l: Ledger, ops: seq<Op>, sid: string)
    requires Sound(l) && Archived(l, sid)
    ensures Archived(Run(l, ops), sid)
    ensures Stream(Run(l, ops), sid) == Stream(l, sid) && Version(Run(l, ops), sid) == Version(l, sid)
  {
    RunKeepsSound(l, ops);
    assert StreamSound(l, sid) && StreamSound(Run(l, ops), sid);
  }

  /** An exact-version append that succeeds finds the stream exactly as it was
      when that version was read, however much else happened in between. */
  lemma ExactVersionMeansUnchanged(seen: Ledger, now: Ledger, sid: string)
    requires Sound(seen) && Sound(now) && Extends(seen, now)
    requires Admit(now, sid, Version(seen, sid)).Appended?
    ensures Stream(now, sid) == Stream(seen, sid)
    ensures Admit(now, sid, Version(seen, sid)).version == Version(seen, sid)
  {
    assert StreamSound(seen, sid) && StreamSound(now, sid);
    StreamPrefix(seen.events, now.events, sid);
    assert Version(seen, sid) <= Version(now, sid);
  }

  // ---- the transaction that first finds no stream row ----

  /** The append transaction as written: a first look at seen, then, when the row was missing, the row is
      inserted unless another writer got there first, locked, and looked at again in now. */
  function AppendInTwoLooks(seen: Ledger, now: Ledger, sid: string, inserts: seq<Insert>, expected: int, meta: Metadata)
    : (Ledger, AppendResult)
  {
    if inserts == [] then (now, Appended(Version(now, sid)))
    else if sid !in seen.streams then
      if expected != -1 && expected != 0 then (now, Conflict(expected, 0))
      else
        var row := if sid in now.streams then now.streams[sid] else StreamRow(AggregateType(sid), 0, false);
        if row.archived then (now, StreamArchived)
        else if expected != -1 && expected != row.version then (now, Conflict(expected, row.version))
        else
          var rows := Rows(sid, row.version, inserts, meta);
          (Ledger(now.events + rows,
                  now.streams[sid := row.(version := row.version + |inserts|)],
                  now.outbox + Map(Announce, rows)),
           Appended(row.version + |inserts|))
    else Append(now, sid, inserts, expected, meta)
  }

  /** The two looks behave as one atomic append: at the second look when they get that far, and
      otherwise as the refusal an atomic append would have given at the first look. */
  lemma TwoLooksAreAtomic(seen: Ledger, now: Ledger, sid: string, inserts: seq<Insert>, expected: int, meta: Metadata)
    ensures var (l, r) := AppendInTwoLooks(seen, now, sid, inserts, expected, meta);
      || (l, r) == Append(now, sid, inserts, expected, meta)
      || (l == now && Append(seen, sid, inserts, expected, meta) == (seen, r))
  {
  }
}
