/** The compliance audit view behind the running daemon, in small steps: batches in flight, retries and skips, crashes
    and rebuilds between any two statements. When the temporal query answers what a full replay answers. */
module ComplianceAuditRuns {
  import opened Events
  import opened Sequences
  import opened EventLog
  import opened Like
  import opened Daemon
  import opened LogSegments
  import opened ComplianceAudit
  import opened OwedVerdicts

  // ---- the machine ----

  /** How far the handler has got with the first pending event: not begun, upserted and counted with a snapshot due,
      the snapshot's rows read, or done but not yet checkpointed. */
  datatype Stage = Waiting | Reading | Holding(rows: map<string, AuditRow>) | Handled

  /** The events table, the projection's tables and checkpoint, the loaded events still to deliver, and the clock. */
  datatype World = World(
    log: seq<StoredEvent>,
    audit: Audit,
    checkpoint: nat,
    pending: seq<StoredEvent>,
    stage: Stage,
    now: int)

  datatype Move =
    | AppendRows(rows: seq<StoredEvent>)
    | Tick(later: int)
    | Fetch(min: nat)
    | Begin
    | ReadRows
    | InsertSnapshot
    | SaveCheckpoint
    | Retry
    | GiveUp
    | Stop(newProcess: bool)
    | RebuildAll

  function AppOf(e: StoredEvent): string
  {
    if Get(e.payload, ApplicationId).Text? then e.payload[ApplicationId].s else ""
  }

  predicate SnapshotDue(a: Audit, app: string)
  {
    Count(a.eventCounts, app) % SNAPSHOT_EVENT_COUNT_TRIGGER == 0
  }

  /** The upsert and the count, up to the next await. */
  function Begun(w: World): World
    requires w.pending != [] && !Raises(w.pending[0])
  {
    var e := w.pending[0];
    var v := Upsert(w.audit.view, e);
    if Counted(e) then
      var n := Count(w.audit.eventCounts, AppOf(e)) + 1;
      w.(audit := w.audit.(view := v, eventCounts := w.audit.eventCounts[AppOf(e) := n]),
         stage := if n % SNAPSHOT_EVENT_COUNT_TRIGGER == 0 then Reading else Handled)
    else w.(audit := w.audit.(view := v), stage := Handled)
  }

  function Written(w: World): World
    requires w.pending != [] && w.stage.Holding?
  {
    var e := w.pending[0];
    w.(audit := w.audit.(snapshots := w.audit.snapshots + [Snapshot(AppOf(e), e.globalPosition, w.stage.rows, w.now)]),
       stage := Handled)
  }

  /** What the events table lets in: rows behind all others, recorded by now, verdicts on their stream, with keys of
      their own and the next positions of their streams. */
  ghost predicate Fits(w: World, rows: seq<StoredEvent>)
  {
    && Ascending(w.log + rows) && Routed(w.log + rows) && RecordedBy(rows, w.now)
    && Keyed(w.log + rows)
  }

  /** The primary key, and the numbering behind UNIQUE (stream_id, stream_position). */
  ghost predicate Keyed(log: seq<StoredEvent>)
  {
    && (forall i, j | 0 <= i < j < |log| :: log[i].eventId != log[j].eventId)
    && (forall sid :: Numbered(Filter(log, OnStream(sid))))
  }

  function Saved(w: World): World
    requires w.pending != []
  {
    w.(checkpoint := w.pending[0].globalPosition, pending := w.pending[1..], stage := Waiting)
  }

  /** One step; a step whose guard fails changes nothing. Stop abandons the batch, in this process or
      with it; a rebuild empties tables, counters and checkpoint whatever is in flight. */
  ghost function Do(w: World, m: Move): World
  {
    match m
    case AppendRows(rows) => if Fits(w, rows) then w.(log := w.log + rows) else w
    case Tick(later) => if later >= w.now then w.(now := later) else w
    case Fetch(min) => if w.pending == [] && min <= NextPosition(w.checkpoint)
                       then w.(pending := Relevant(Fetched(w.log, min), w.checkpoint), stage := Waiting) else w
    case Begin => if w.pending != [] && w.stage.Waiting? && !Raises(w.pending[0]) then Begun(w) else w
    case ReadRows => if w.pending != [] && w.stage.Reading?
                     then w.(stage := Holding(RowsOf(w.audit.view, AppOf(w.pending[0])))) else w
    case InsertSnapshot => if w.pending != [] && w.stage.Holding? then Written(w) else w
    case SaveCheckpoint => if w.pending != [] && w.stage.Handled? then Saved(w) else w
    case Retry => if w.stage.Handled? then w else w.(stage := Waiting)
    case GiveUp => if w.pending == [] || w.stage.Handled? then w
                   else w.(pending := w.pending[1..], stage := Waiting)
    case Stop(newProcess) => w.(pending := [], stage := Waiting,
                                audit := if newProcess then w.audit.(eventCounts := map[]) else w.audit)
    case RebuildAll => w.(audit := EmptyAudit, checkpoint := 0)
  }

  ghost function Reach(w: World, moves: seq<Move>): World
    decreases |moves|
  {
    if moves == [] then w else Reach(Do(w, moves[0]), moves[1..])
  }

  lemma ReachFirst(w: World, m: Move, rest: seq<Move>)
    ensures Reach(w, [m] + rest) == Reach(Do(w, m), rest)
  {
    assert ([m] + rest)[1..] == rest;
  }

  lemma {:induction false} ReachAppend(w: World, xs: seq<Move>, ys: seq<Move>)
    ensures Reach(w, xs + ys) == Reach(Reach(w, xs), ys)
    decreases |xs|
  {
    if xs == [] {
      assert xs + ys == ys;
    } else {
      assert xs + ys == [xs[0]] + (xs[1..] + ys);
      ReachFirst(w, xs[0], xs[1..] + ys);
      ReachAppend(Do(w, xs[0]), xs[1..], ys);
    }
  }

  lemma SnapshotStepsAreHandle(w: World)
    requires w.pending != [] && w.stage.Waiting? && !Raises(w.pending[0])
    ensures var begun := Begun(w);
      Do(Do(begun, ReadRows), InsertSnapshot) == w.(audit := Handle(w.audit, w.pending[0], w.now), stage := Handled)
  {
    var begun := Begun(w);
    if begun.stage.Reading? {
      var held := begun.(stage := Holding(RowsOf(begun.audit.view, AppOf(w.pending[0]))));
      assert Do(begun, ReadRows) == held;
      assert Do(held, InsertSnapshot) == Written(held);
    } else {
      assert Do(begun, ReadRows) == begun && Do(begun, InsertSnapshot) == begun;
    }
  }

  /** Undisturbed, the small steps of one delivery do what the handler of the class does. */
  lemma StepsAreHandle(w: World)
    requires w.pending != [] && w.stage.Waiting? && !Raises(w.pending[0])
    ensures Reach(w, [Begin, ReadRows, InsertSnapshot]) ==
      w.(audit := Handle(w.audit, w.pending[0], w.now), stage := Handled)
  {
    ReachFirst(w, Begin, [ReadRows, InsertSnapshot]);
    ReachFirst(Begun(w), ReadRows, [InsertSnapshot]);
    ReachFirst(Do(Begun(w), ReadRows), InsertSnapshot, []);
    SnapshotStepsAreHandle(w);
  }

  // ---- what every run keeps of the queue ----

  ghost predicate RecordedBy(log: seq<StoredEvent>, now: int)
  {
    forall j | 0 <= j < |log| :: log[j].recordedAt <= now
  }

  /** The pending events are a run of the log past the checkpoint. */
  ghost predicate Queue(log: seq<StoredEvent>, checkpoint: nat, pending: seq<StoredEvent>)
  {
    pending != [] ==>
      var m := Rank(log, pending[0].globalPosition);
      && m + |pending| <= |log| && checkpoint < pending[0].globalPosition
      && forall i | 0 <= i < |pending| :: pending[i] == log[m + i]
  }

  ghost predicate AtEvent(log: seq<StoredEvent>, position: nat)
  {
    exists j :: 0 <= j < |log| && log[j].globalPosition == position
  }

  ghost predicate Solid(w: World)
  {
    match w
    case World(log, audit, checkpoint, pending, stage, now) =>
      && Ascending(log) && Routed(log) && RecordedBy(log, now)
      && (checkpoint == 0 || AtEvent(log, checkpoint))
      && Queue(log, checkpoint, pending)
      && (!stage.Waiting? ==> pending != [] && !Raises(pending[0]))
      && (stage.Reading? || stage.Holding? ==> Counted(pending[0]) && SnapshotDue(audit, AppOf(pending[0])))
      && forall s | s in audit.snapshots :: s.applicationId != ""
  }

  lemma QueueHead(log: seq<StoredEvent>, checkpoint: nat, pending: seq<StoredEvent>)
    requires Queue(log, checkpoint, pending) && pending != []
    ensures var m := Rank(log, pending[0].globalPosition);
      m < |log| && log[m] == pending[0]
  {
    var m := Rank(log, pending[0].globalPosition);
    assert pending[0] == log[m + 0];
  }

  lemma RankBehind(log: seq<StoredEvent>, m: nat, e: StoredEvent)
    requires Ascending(log) && m < |log| && log[m] == e
    ensures Rank(log, e.globalPosition + 1) == m + 1
  {
    RankIs(log, log[m].globalPosition + 1, m + 1);
  }

  lemma QueuePops(log: seq<StoredEvent>, checkpoint: nat, pending: seq<StoredEvent>)
    requires Ascending(log) && Queue(log, checkpoint, pending) && |pending| > 1
    ensures Queue(log, pending[0].globalPosition, pending[1..]) && Queue(log, checkpoint, pending[1..])
    ensures Rank(log, pending[1].globalPosition) == Rank(log, pending[0].globalPosition) + 1
  {
    var m := Rank(log, pending[0].globalPosition);
    assert pending[0] == log[m] && pending[1] == log[m + 1];
    RankIs(log, log[m + 1].globalPosition, m + 1);
  }

  lemma QueueGrows(log: seq<StoredEvent>, log': seq<StoredEvent>, checkpoint: nat, pending: seq<StoredEvent>)
    requires Ascending(log') && log <= log' && Queue(log, checkpoint, pending)
    ensures Queue(log', checkpoint, pending)
    ensures pending != [] ==> Rank(log', pending[0].globalPosition) == Rank(log, pending[0].globalPosition)
  {
    if pending != [] {
      var m := Rank(log, pending[0].globalPosition);
      assert log[m] == pending[0];
      RankGrows(log, log', m);
    }
  }

  lemma QueueLoads(log: seq<StoredEvent>, checkpoint: nat, min: nat)
    requires Ascending(log) && min <= NextPosition(checkpoint)
    ensures var pending := Relevant(Fetched(log, min), checkpoint);
      && Queue(log, checkpoint, pending)
      && (pending != [] ==> Rank(log, pending[0].globalPosition) == Rank(log, checkpoint + 1))
  {
    LoadIsSegment(log, min, checkpoint);
    var n := Rank(log, checkpoint + 1);
    var pending := Relevant(Fetched(log, min), checkpoint);
    if pending != [] {
      assert pending[0] == log[n];
      RankSplits(log, checkpoint + 1);
      RankIs(log, log[n].globalPosition, n);
    }
  }

  lemma PopKeepsSolid(w: World, m: Move)
    requires Solid(w) && w.pending != [] && (m.SaveCheckpoint? || m.GiveUp?)
    ensures Solid(Do(w, m))
  {
    QueueHead(w.log, w.checkpoint, w.pending);
    RankBehind(w.log, Rank(w.log, w.pending[0].globalPosition), w.pending[0]);
    if |w.pending| > 1 {
      QueuePops(w.log, w.checkpoint, w.pending);
    }
  }

  lemma GrowthKeepsSolid(w: World, rows: seq<StoredEvent>)
    requires Solid(w)
    ensures Solid(Do(w, AppendRows(rows)))
  {
    var w' := Do(w, AppendRows(rows));
    QueueGrows(w.log, w'.log, w.checkpoint, w.pending);
    if w.checkpoint != 0 {
      var j :| 0 <= j < |w.log| && w.log[j].globalPosition == w.checkpoint;
      assert w'.log[j] == w.log[j];
    }
  }

  lemma MoveKeepsSolid(w: World, m: Move)
    requires Solid(w)
    ensures Solid(Do(w, m))
  {
    match m
    case AppendRows(rows) => GrowthKeepsSolid(w, rows);
    case Fetch(min) =>
      if min <= NextPosition(w.checkpoint) {
        QueueLoads(w.log, w.checkpoint, min);
      }
    case SaveCheckpoint => if w.pending != [] { PopKeepsSolid(w, m); }
    case GiveUp => if w.pending != [] { PopKeepsSolid(w, m); }
    case _ =>
  }

  // ---- what the table still owes ----

  /** How many events of the log are delivered or passed over. */
  function Reached(w: World): nat
  {
    if w.pending == [] then Rank(w.log, w.checkpoint + 1)
    else Rank(w.log, w.pending[0].globalPosition) + (if w.stage.Waiting? then 0 else 1)
  }

  function TableVerdicts(w: World, app: string): Verdicts
  {
    Named(RowsOf(w.audit.view, app))
  }

  /** What the table will say when everything still to deliver is delivered. */
  function Final(w: World, app: string): Verdicts
  {
    TableVerdicts(w, app) + From(w.log, Reached(w), app)
  }

  /** The deliveries to come will make the table right. */
  predicate Covered(w: World, app: string)
  {
    Covers(w.log, TableVerdicts(w, app), Reached(w), app)
  }

  lemma ReachedInLog(w: World)
    requires Solid(w)
    ensures Reached(w) <= |w.log|
  {
  }

  /** The steps that only bring the daemon forward. */
  predicate Forward(m: Move)
  {
    m.Fetch? || m.Begin? || m.ReadRows? || m.InsertSnapshot? || m.SaveCheckpoint?
  }

  lemma BeginReaches(w: World)
    requires Solid(w) && w.pending != [] && w.stage.Waiting? && !Raises(w.pending[0])
    ensures Reached(Do(w, Begin)) == Reached(w) + 1
    ensures Reached(w) < |w.log| && w.log[Reached(w)] == w.pending[0]
  {
    QueueHead(w.log, w.checkpoint, w.pending);
  }

  lemma BeginKeepsFinal(w: World, app: string)
    requires Solid(w) && w.pending != [] && w.stage.Waiting? && !Raises(w.pending[0])
    ensures Final(Do(w, Begin), app) == Final(w, app)
  {
    BeginReaches(w);
    DeliveryMerges(w.log, Reached(w), w.audit.view, app);
  }

  lemma FetchKeepsReached(w: World, min: nat)
    requires Solid(w) && w.pending == [] && min <= NextPosition(w.checkpoint)
    ensures Reached(Do(w, Fetch(min))) == Reached(w)
  {
    QueueLoads(w.log, w.checkpoint, min);
  }

  lemma SaveKeepsReached(w: World)
    requires Solid(w) && w.pending != [] && w.stage.Handled?
    ensures Reached(Do(w, SaveCheckpoint)) == Reached(w)
  {
    QueueHead(w.log, w.checkpoint, w.pending);
    RankBehind(w.log, Rank(w.log, w.pending[0].globalPosition), w.pending[0]);
    if |w.pending| > 1 {
      QueuePops(w.log, w.checkpoint, w.pending);
    }
  }

  lemma OthersKeepReached(w: World, m: Move)
    requires Solid(w) && Forward(m) && !m.Begin?
    ensures Reached(Do(w, m)) == Reached(w)
  {
    if m.Fetch? && w.pending == [] && m.min <= NextPosition(w.checkpoint) {
      FetchKeepsReached(w, m.min);
    } else if m.SaveCheckpoint? && w.pending != [] && w.stage.Handled? {
      SaveKeepsReached(w);
    }
  }

  lemma ForwardKeepsFinal(w: World, m: Move, app: string)
    requires Solid(w) && Forward(m)
    ensures Final(Do(w, m), app) == Final(w, app)
  {
    if !m.Begin? {
      OthersKeepReached(w, m);
      assert Do(w, m).audit.view == w.audit.view && Do(w, m).log == w.log;
    } else if w.pending != [] && w.stage.Waiting? && !Raises(w.pending[0]) {
      BeginKeepsFinal(w, app);
    }
  }

  lemma RankAtEventGrows(log: seq<StoredEvent>, log': seq<StoredEvent>, checkpoint: nat)
    requires Ascending(log') && log <= log' && (checkpoint == 0 || AtEvent(log, checkpoint))
    ensures Rank(log', checkpoint + 1) == Rank(log, checkpoint + 1)
  {
    assert Ascending(log);
    if checkpoint == 0 {
      RankIs(log, 1, 0);
      RankIs(log', 1, 0);
    } else {
      var j :| 0 <= j < |log| && log[j].globalPosition == checkpoint;
      assert log'[j] == log[j];
      RankIs(log, checkpoint + 1, j + 1);
      RankIs(log', checkpoint + 1, j + 1);
    }
  }

  lemma GrowthKeepsReached(w: World, rows: seq<StoredEvent>)
    requires Solid(w)
    ensures Reached(Do(w, AppendRows(rows))) == Reached(w)
  {
    var log' := Do(w, AppendRows(rows)).log;
    QueueGrows(w.log, log', w.checkpoint, w.pending);
    RankAtEventGrows(w.log, log', w.checkpoint);
  }

  // ---- the moves after which something may be missing ----

  /** The first event in flight is no verdict about a named rule of the application, or a later event of
      the log has another one about that rule, or the table already says what it says. */
  predicate Superfluous(w: World, app: string)
    requires w.pending != []
  {
    var e := w.pending[0];
    || e.streamId != ComplianceStream(app) || !IsVerdict(e) || !IsName(Get(e.payload, RuleId))
    || e.payload[RuleId].s in From(w.log, Reached(w) + 1, app)
    || (e.payload[RuleId].s in TableVerdicts(w, app) && TableVerdicts(w, app)[e.payload[RuleId].s] == EventVerdict(e))
  }

  /** A rebuild forgets the table and lets the batch in flight go on. Skipping an event goes on with the batch too;
      behind the last event of a batch it only means trying again with the next one. */
  predicate Careful(w: World, m: Move, app: string)
  {
    match m
    case RebuildAll => w.pending == [] || SaidAgain(w.log, Reached(w), app)
    case GiveUp => |w.pending| <= 1 || !w.stage.Waiting? || Superfluous(w, app)
    case _ => true
  }

  lemma RebuildReaches(w: World)
    requires Solid(w)
    ensures Reached(Do(w, RebuildAll)) == if w.pending == [] then 0 else Reached(w)
  {
    RankOfZero(w.log);
  }

  /** A rebuild leaves the table on its way to being right exactly when it is careful, whatever it was before. */
  lemma RebuildCovers(w: World, app: string)
    requires Solid(w)
    ensures Covered(Do(w, RebuildAll), app) <==> Careful(w, RebuildAll, app)
  {
    var n := Reached(Do(w, RebuildAll));
    RebuildReaches(w);
    EmptyTable(app);
    ReachedInLog(w);
    SaidAgainCovers(w.log, n, app);
    assert Covered(Do(w, RebuildAll), app) <==> Covers(w.log, map[], n, app);
  }

  lemma CheckpointBehind(w: World)
    requires Solid(w)
    ensures Rank(w.log, w.checkpoint + 1) <= Reached(w)
  {
    if w.pending != [] {
      RankOrder(w.log, w.checkpoint + 1, w.pending[0].globalPosition);
    }
  }

  lemma SkipReaches(w: World)
    requires Solid(w) && w.pending != [] && !w.stage.Handled?
    ensures var n := Reached(Do(w, GiveUp));
      if |w.pending| > 1 then n == Reached(w) + (if w.stage.Waiting? then 1 else 0) else n <= Reached(w)
  {
    if |w.pending| > 1 {
      QueuePops(w.log, w.checkpoint, w.pending);
    } else {
      CheckpointBehind(w);
    }
  }

  lemma SuperfluousCovers(w: World, app: string)
    requires Solid(w) && Covered(w, app) && w.pending != [] && w.stage.Waiting?
    ensures Superfluous(w, app) <==> Covers(w.log, TableVerdicts(w, app), Reached(w) + 1, app)
  {
    QueueHead(w.log, w.checkpoint, w.pending);
    SkippedEvent(w.log, Reached(w), TableVerdicts(w, app), app);
  }

  /** Skipping the first event in flight leaves the table on its way to being right exactly when that is careful. */
  lemma SkipCovers(w: World, app: string)
    requires Solid(w) && Covered(w, app) && w.pending != [] && !w.stage.Handled?
    ensures Covered(Do(w, GiveUp), app) <==> Careful(w, GiveUp, app)
  {
    var w' := Do(w, GiveUp);
    SkipReaches(w);
    QueueHead(w.log, w.checkpoint, w.pending);
    assert w'.log == w.log && TableVerdicts(w', app) == TableVerdicts(w, app);
    if |w.pending| == 1 {
      CoversEarlier(w.log, TableVerdicts(w, app), Reached(w'), Reached(w), app);
    } else if w.stage.Waiting? {
      SuperfluousCovers(w, app);
    }
  }

  lemma BackReaches(w: World, m: Move)
    requires Solid(w) && (m.Retry? || m.Stop?)
    ensures Reached(Do(w, m)) <= Reached(w)
  {
    CheckpointBehind(w);
  }

  lemma BackKeepsCovered(w: World, m: Move, app: string)
    requires Solid(w) && Covered(w, app) && (m.Retry? || m.Stop?)
    ensures Covered(Do(w, m), app)
  {
    BackReaches(w, m);
    ReachedInLog(w);
    CoversEarlier(w.log, TableVerdicts(w, app), Reached(Do(w, m)), Reached(w), app);
  }

  lemma GrowthKeepsCovered(w: World, rows: seq<StoredEvent>, app: string)
    requires Solid(w) && Covered(w, app)
    ensures Covered(Do(w, AppendRows(rows)), app)
  {
    GrowthKeepsReached(w, rows);
    CoversGrows(w.log, rows, TableVerdicts(w, app), Reached(w), app);
  }

  lemma ForwardKeepsCovered(w: World, m: Move, app: string)
    requires Solid(w) && Covered(w, app) && Forward(m)
    ensures Covered(Do(w, m), app)
  {
    ForwardKeepsFinal(w, m, app);
  }

  lemma SkipKeepsCovered(w: World, app: string)
    requires Solid(w) && Covered(w, app) && Careful(w, GiveUp, app)
    ensures Covered(Do(w, GiveUp), app)
  {
    if w.pending != [] && !w.stage.Handled? {
      SkipCovers(w, app);
    }
  }

  lemma TickKeepsCovered(w: World, later: int, app: string)
    requires Covered(w, app)
    ensures Covered(Do(w, Tick(later)), app)
  {
    assert Reached(Do(w, Tick(later))) == Reached(w);
  }

  lemma MoveKeepsCovered(w: World, m: Move, app: string)
    requires Solid(w) && Covered(w, app) && Careful(w, m, app)
    ensures Covered(Do(w, m), app)
  {
    if m.AppendRows? {
      GrowthKeepsCovered(w, m.rows, app);
    } else if m.GiveUp? {
      SkipKeepsCovered(w, app);
    } else if m.RebuildAll? {
      RebuildCovers(w, app);
    } else if m.Retry? || m.Stop? {
      BackKeepsCovered(w, m, app);
    } else if m.Tick? {
      TickKeepsCovered(w, m.later, app);
    } else {
      ForwardKeepsCovered(w, m, app);
    }
  }

  // ---- what the checkpoint makes permanent ----

  /** The events behind the checkpoint would make the table right: a batch that is given up as a whole, after whatever
      skips and rebuilds, loses nothing. */
  predicate Recoverable(w: World, app: string)
  {
    Covers(w.log, TableVerdicts(w, app), Rank(w.log, w.checkpoint + 1), app)
  }

  lemma AtRestIsCovered(w: World, app: string)
    requires w.pending == [] && Recoverable(w, app)
    ensures Covered(w, app)
  {
  }

  /** A save moves the checkpoint past what the batch passed over, and a snapshot records the table as of its event. So
      these two steps must not be taken while a verdict is missing that no delivery to come brings. */
  predicate Commits(w: World, m: Move, app: string)
  {
    match m
    case SaveCheckpoint => w.pending != [] && w.stage.Handled?
    case ReadRows => w.pending != [] && w.stage.Reading? && AppOf(w.pending[0]) == app
    case _ => false
  }

  predicate Lossless(w: World, m: Move, app: string)
  {
    Commits(w, m, app) ==> Covered(w, app)
  }

  lemma BeginKeepsRecoverable(w: World, app: string)
    requires Solid(w) && Recoverable(w, app) && w.pending != [] && w.stage.Waiting? && !Raises(w.pending[0])
    ensures Recoverable(Do(w, Begin), app)
  {
    BeginReaches(w);
    CheckpointBehind(w);
    UpsertIsRecoverable(Do(w, Begin), w.audit.view, Reached(w), app);
  }

  lemma UpsertIsRecoverable(w: World, v: View, m: nat, app: string)
    requires Rank(w.log, w.checkpoint + 1) <= m < |w.log| && RoutedEvent(w.log[m]) && !Raises(w.log[m])
    requires w.audit.view == Upsert(v, w.log[m])
    requires Covers(w.log, Named(RowsOf(v, app)), Rank(w.log, w.checkpoint + 1), app)
    ensures Recoverable(w, app)
  {
    UpsertWithin(w.log, Rank(w.log, w.checkpoint + 1), m, v, app);
  }

  lemma CoversBehindGrows(log: seq<StoredEvent>, log': seq<StoredEvent>, vs: Verdicts, checkpoint: nat, app: string)
    requires log <= log' && Ascending(log') && (checkpoint == 0 || AtEvent(log, checkpoint))
    requires Covers(log, vs, Rank(log, checkpoint + 1), app)
    ensures Covers(log', vs, Rank(log', checkpoint + 1), app)
  {
    assert log' == log + log'[|log|..];
    RankAtEventGrows(log, log', checkpoint);
    CoversGrows(log, log'[|log|..], vs, Rank(log, checkpoint + 1), app);
  }

  lemma GrownIsRecoverable(w: World, w': World, app: string)
    requires (w.checkpoint == 0 || AtEvent(w.log, w.checkpoint)) && Recoverable(w, app)
    requires w.log <= w'.log && Ascending(w'.log) && w'.checkpoint == w.checkpoint && w'.audit.view == w.audit.view
    ensures Recoverable(w', app)
  {
    CoversBehindGrows(w.log, w'.log, TableVerdicts(w, app), w.checkpoint, app);
  }

  lemma GrowthKeepsRecoverable(w: World, rows: seq<StoredEvent>, app: string)
    requires Solid(w) && Recoverable(w, app)
    ensures Recoverable(Do(w, AppendRows(rows)), app)
  {
    GrownIsRecoverable(w, Do(w, AppendRows(rows)), app);
  }

  lemma SaveKeepsRecoverable(w: World, app: string)
    requires Solid(w) && Covered(w, app) && w.pending != [] && w.stage.Handled?
    ensures Recoverable(Do(w, SaveCheckpoint), app)
  {
    QueueHead(w.log, w.checkpoint, w.pending);
    RankBehind(w.log, Rank(w.log, w.pending[0].globalPosition), w.pending[0]);
    SavedIsRecoverable(w, app);
  }

  lemma SavedIsRecoverable(w: World, app: string)
    requires w.pending != [] && w.stage.Handled?
    requires Covers(w.log, TableVerdicts(w, app), Rank(w.log, w.pending[0].globalPosition + 1), app)
    ensures Recoverable(Do(w, SaveCheckpoint), app)
  {
    assert Do(w, SaveCheckpoint) == Saved(w);
  }

  /** A rebuild, whatever is in flight, is recoverable: the checkpoint is back at the beginning. */
  lemma RebuildIsRecoverable(w: World, app: string)
    requires Solid(w)
    ensures Recoverable(Do(w, RebuildAll), app)
  {
    RankOfZero(w.log);
    EmptyTable(app);
    assert map[] + From(w.log, 0, app) == From(w.log, 0, app);
  }

  lemma RestKeepsRecoverable(w: World, m: Move, app: string)
    requires Recoverable(w, app)
    requires m.Tick? || m.Fetch? || m.ReadRows? || m.InsertSnapshot? || m.Retry? || m.GiveUp? || m.Stop?
    ensures Recoverable(Do(w, m), app)
  {
    RestKeepsTables(w, m);
  }

  lemma RestKeepsTables(w: World, m: Move)
    requires m.Tick? || m.Fetch? || m.ReadRows? || m.InsertSnapshot? || m.Retry? || m.GiveUp? || m.Stop?
    ensures var w' := Do(w, m);
      w'.log == w.log && w'.checkpoint == w.checkpoint && w'.audit.view == w.audit.view
  {
  }

  lemma MoveKeepsRecoverable(w: World, m: Move, app: string)
    requires Solid(w) && Recoverable(w, app) && Lossless(w, m, app)
    ensures Recoverable(Do(w, m), app)
  {
    if m.AppendRows? {
      GrowthKeepsRecoverable(w, m.rows, app);
    } else if m.Begin? {
      if w.pending != [] && w.stage.Waiting? && !Raises(w.pending[0]) {
        BeginKeepsRecoverable(w, app);
      }
    } else if m.SaveCheckpoint? {
      if w.pending != [] && w.stage.Handled? {
        SaveKeepsRecoverable(w, app);
      }
    } else if m.RebuildAll? {
      RebuildIsRecoverable(w, app);
    } else {
      RestKeepsRecoverable(w, m, app);
    }
  }

  // ---- snapshots ----

  /** Taken at an event's position, when the first t events of the log were all recorded, of rows that the
      events between the position and t complete to the verdicts of the first t. */
  ghost predicate Backed(log: seq<StoredEvent>, s: Snapshot, t: nat)
  {
    && AtEvent(log, s.eventPosition)
    && Rank(log, s.eventPosition + 1) <= t <= |log|
    && RecordedBy(log[..t], s.snapshotAt)
    && Covers(log[..t], Named(s.rows), Rank(log, s.eventPosition + 1), s.applicationId)
  }

  ghost predicate Faithful(log: seq<StoredEvent>, s: Snapshot)
  {
    exists t: nat :: Backed(log, s, t)
  }

  /** The snapshots of an application, and the rows read for one, are right. */
  ghost predicate Trusted(w: World, app: string)
  {
    && (forall s | s in w.audit.snapshots && s.applicationId == app :: Faithful(w.log, s))
    && (w.pending != [] && w.stage.Holding? && AppOf(w.pending[0]) == app ==>
          Covers(w.log, Named(w.stage.rows), Reached(w), app))
  }

  ghost predicate Consistent(w: World, app: string)
  {
    Solid(w) && Trusted(w, app) && Recoverable(w, app)
  }

  lemma AtEventGrows(log: seq<StoredEvent>, log': seq<StoredEvent>, position: nat)
    requires log <= log' && AtEvent(log, position)
    ensures AtEvent(log', position)
  {
    var j :| 0 <= j < |log| && log[j].globalPosition == position;
    assert log'[j] == log[j];
  }

  lemma BackedGrows(log: seq<StoredEvent>, log': seq<StoredEvent>, s: Snapshot, t: nat)
    requires Ascending(log') && log <= log' && Backed(log, s, t)
    ensures Backed(log', s, t)
  {
    PrefixOfGrown(log, log', t);
    RankAtEventGrows(log, log', s.eventPosition);
    AtEventGrows(log, log', s.eventPosition);
  }

  lemma FaithfulGrows(log: seq<StoredEvent>, log': seq<StoredEvent>, s: Snapshot)
    requires Ascending(log') && log <= log' && Faithful(log, s)
    ensures Faithful(log', s)
  {
    var t: nat :| Backed(log, s, t);
    BackedGrows(log, log', s, t);
  }

  lemma NewSnapshotIsFaithful(log: seq<StoredEvent>, m: nat, s: Snapshot)
    requires Ascending(log) && m < |log| && RecordedBy(log, s.snapshotAt)
    requires s.eventPosition == log[m].globalPosition && Covers(log, Named(s.rows), m + 1, s.applicationId)
    ensures Faithful(log, s)
  {
    RankBehind(log, m, log[m]);
    assert log[..|log|] == log;
    assert Backed(log, s, |log|);
  }

  lemma GrowthKeepsTrusted(w: World, rows: seq<StoredEvent>, app: string)
    requires Solid(w) && Trusted(w, app)
    ensures Trusted(Do(w, AppendRows(rows)), app)
  {
    var w' := Do(w, AppendRows(rows));
    if w' != w {
      forall s | s in w.audit.snapshots && s.applicationId == app ensures Faithful(w'.log, s) {
        FaithfulGrows(w.log, w'.log, s);
      }
      if w.pending != [] && w.stage.Holding? && AppOf(w.pending[0]) == app {
        GrowthKeepsReached(w, rows);
        ReachedInLog(w);
        CoversGrows(w.log, rows, Named(w.stage.rows), Reached(w), app);
      }
    }
  }

  lemma HeldIsFaithful(w: World, s: Snapshot)
    requires Solid(w) && w.pending != [] && w.stage.Holding?
    requires s == Snapshot(AppOf(w.pending[0]), w.pending[0].globalPosition, w.stage.rows, w.now)
    requires Covers(w.log, Named(s.rows), Reached(w), s.applicationId)
    ensures Faithful(w.log, s)
  {
    QueueHead(w.log, w.checkpoint, w.pending);
    NewSnapshotIsFaithful(w.log, Rank(w.log, w.pending[0].globalPosition), s);
  }

  lemma InsertKeepsTrusted(w: World, app: string)
    requires Solid(w) && Trusted(w, app) && w.pending != [] && w.stage.Holding?
    ensures Trusted(Do(w, InsertSnapshot), app)
  {
    var w' := Written(w);
    assert Do(w, InsertSnapshot) == w';
    forall s | s in w'.audit.snapshots && s.applicationId == app ensures Faithful(w.log, s) {
      if s !in w.audit.snapshots {
        HeldIsFaithful(w, s);
      }
    }
  }

  /** The rows read are right because the table is. */
  lemma ReadKeepsTrusted(w: World, app: string)
    requires Solid(w) && Trusted(w, app) && Lossless(w, ReadRows, app)
    ensures Trusted(Do(w, ReadRows), app)
  {
    assert Reached(Do(w, ReadRows)) == Reached(w);
  }

  /** Rows read before a rebuild are still right after it. */
  lemma RebuildKeepsTrusted(w: World, app: string)
    requires Trusted(w, app)
    ensures Trusted(Do(w, RebuildAll), app)
  {
    assert w.pending != [] ==> Reached(Do(w, RebuildAll)) == Reached(w);
  }

  lemma TickKeepsTrusted(w: World, later: int, app: string)
    requires Trusted(w, app)
    ensures Trusted(Do(w, Tick(later)), app)
  {
    assert Reached(Do(w, Tick(later))) == Reached(w);
  }

  lemma RestKeepsTrusted(w: World, m: Move, app: string)
    requires Solid(w) && Trusted(w, app)
    requires m.Fetch? || m.Begin? || m.SaveCheckpoint? || m.Retry? || m.GiveUp? || m.Stop?
    ensures Trusted(Do(w, m), app)
  {
    var w' := Do(w, m);
    assert w' == w || !w'.stage.Holding?;
    assert w'.audit.snapshots == w.audit.snapshots && w'.log == w.log;
  }

  lemma MoveKeepsTrusted(w: World, m: Move, app: string)
    requires Solid(w) && Trusted(w, app) && (m.ReadRows? ==> Lossless(w, m, app))
    ensures Trusted(Do(w, m), app)
  {
    if m.AppendRows? {
      GrowthKeepsTrusted(w, m.rows, app);
    } else if m.Tick? {
      TickKeepsTrusted(w, m.later, app);
    } else if m.ReadRows? {
      ReadKeepsTrusted(w, app);
    } else if m.InsertSnapshot? {
      if w.pending != [] && w.stage.Holding? {
        InsertKeepsTrusted(w, app);
      }
    } else if m.RebuildAll? {
      RebuildKeepsTrusted(w, app);
    } else {
      RestKeepsTrusted(w, m, app);
    }
  }

  /** No step of the run made permanent that a verdict about the application is missing. */
  ghost predicate LosslessRun(w: World, moves: seq<Move>, app: string)
    decreases |moves|
  {
    moves == [] || (Lossless(w, moves[0], app) && LosslessRun(Do(w, moves[0]), moves[1..], app))
  }

  /** Over every run of appends, deliveries, retries, skips, abandoned batches, crashes and rebuilds in which no
      checkpoint is saved and no snapshot of the application is taken while a verdict is missing: every snapshot of
      the application is right, and the events behind the checkpoint would make the table right. */
  lemma {:induction false} RunKeepsConsistent(w: World, moves: seq<Move>, app: string)
    requires Consistent(w, app) && LosslessRun(w, moves, app)
    ensures Consistent(Reach(w, moves), app)
    decreases |moves|
  {
    if moves != [] {
      MoveKeepsSolid(w, moves[0]);
      MoveKeepsTrusted(w, moves[0], app);
      MoveKeepsRecoverable(w, moves[0], app);
      RunKeepsConsistent(Do(w, moves[0]), moves[1..], app);
    }
  }

  /** Every rebuild and every skip of the run, when it happened, left the table on its way to being right. */
  ghost predicate CarefulRun(w: World, moves: seq<Move>, app: string)
    decreases |moves|
  {
    moves == [] || (Careful(w, moves[0], app) && CarefulRun(Do(w, moves[0]), moves[1..], app))
  }

  /** Then nothing is ever missing when a checkpoint is saved or a snapshot taken. */
  lemma {:induction false} CarefulIsLossless(w: World, moves: seq<Move>, app: string)
    requires Solid(w) && Covered(w, app) && CarefulRun(w, moves, app)
    ensures LosslessRun(w, moves, app) && Covered(Reach(w, moves), app)
    decreases |moves|
  {
    if moves != [] {
      MoveKeepsSolid(w, moves[0]);
      MoveKeepsCovered(w, moves[0], app);
      CarefulIsLossless(Do(w, moves[0]), moves[1..], app);
    }
  }

  // ---- the temporal query ----

  function Recorded(app: string, timestamp: int): StoredEvent -> bool
  {
    (e: StoredEvent) => e.streamId == ComplianceStream(app) && e.recordedAt <= timestamp
  }

  /** The full replay: every event of the application's compliance stream recorded by the timestamp. */
  function FullReplay(log: seq<StoredEvent>, app: string, timestamp: int): Verdicts
  {
    VerdictsOf(Filter(log, Recorded(app, timestamp)))
  }

  ghost predicate Available(a: Audit, used: Option<Snapshot>, app: string, timestamp: int)
  {
    used.Some? ==> used.value in a.snapshots && Usable(used.value, app, timestamp)
  }

  /** Every usable snapshot, and none, gives at every timestamp the verdicts of the full replay, however much happens
      between the choice of the snapshot and the query for the delta. */
  ghost predicate Right(w: World, app: string)
  {
    forall used: Option<Snapshot>, timestamp: int, between: seq<Move> | Available(w.audit, used, app, timestamp) ::
      Named(Query(Reach(w, between).log, used, app, timestamp)) == FullReplay(Reach(w, between).log, app, timestamp)
  }

  lemma PlainStream(app: string, s: string)
    requires Plain(app)
    ensures LikeMatch(ComplianceStream(app), s) <==> s == ComplianceStream(app)
  {
    PlainIsEquality(ComplianceStream(app), s);
  }

  /** The delta query selects the recorded events past the first n. */
  lemma DeltaIsLater(log: seq<StoredEvent>, app: string, position: nat, timestamp: int)
    requires Ascending(log) && Plain(app)
    ensures Filter(log, InDelta(app, position, timestamp)) ==
      Filter(log[Rank(log, position + 1)..], Recorded(app, timestamp))
  {
    var n := Rank(log, position + 1);
    var head, tail := log[..n], log[n..];
    RankSplits(log, position + 1);
    assert log == head + tail;
    FilterAppend(head, tail, InDelta(app, position, timestamp));
    FilterNone(head, InDelta(app, position, timestamp));
    forall e | e in tail ensures InDelta(app, position, timestamp)(e) == Recorded(app, timestamp)(e) {
      var i :| 0 <= i < |tail| && tail[i] == e;
      assert log[n + i] == e;
      PlainStream(app, e.streamId);
    }
    FilterAgree(tail, InDelta(app, position, timestamp), Recorded(app, timestamp));
  }

  /** Events that were all recorded by the timestamp are all replayed. */
  lemma ReplayOfRecorded(es: seq<StoredEvent>, rest: seq<StoredEvent>, vs: Verdicts, app: string, timestamp: int)
    requires RecordedBy(es, timestamp)
    ensures Fold(Apply, vs, Filter(es + rest, Recorded(app, timestamp))) ==
      vs + StreamVerdicts(es, app) + FullReplay(rest, app, timestamp)
  {
    var head, tail := Filter(es, Recorded(app, timestamp)), Filter(rest, Recorded(app, timestamp));
    FilterAppend(es, rest, Recorded(app, timestamp));
    FilterAgree(es, OnStream(ComplianceStream(app)), Recorded(app, timestamp));
    FoldAppend(Apply, vs, head, tail);
    FoldIsMerge(vs, head);
    FoldIsMerge(vs + VerdictsOf(head), tail);
  }

  lemma QueryReplaysDelta(log: seq<StoredEvent>, s: Snapshot, app: string, timestamp: int)
    requires Ascending(log) && Plain(app)
    ensures Named(Query(log, Some(s), app, timestamp)) ==
      Fold(Apply, Named(s.rows), Filter(log[Rank(log, s.eventPosition + 1)..], Recorded(app, timestamp)))
  {
    DeltaIsLater(log, app, s.eventPosition, timestamp);
    ReplayVerdicts(s.rows, Filter(log, InDelta(app, s.eventPosition, timestamp)));
  }

  lemma TailReplay(log: seq<StoredEvent>, vs: Verdicts, n: nat, t: nat, app: string, timestamp: int)
    requires n <= t <= |log| && RecordedBy(log[..t], timestamp)
    ensures Fold(Apply, vs, Filter(log[n..], Recorded(app, timestamp))) ==
      vs + From(log[..t], n, app) + FullReplay(log[t..], app, timestamp)
  {
    var es := log[..t][n..];
    assert log[n..] == es + log[t..];
    assert forall j | 0 <= j < |es| :: es[j] == log[..t][n + j];
    ReplayOfRecorded(es, log[t..], vs, app, timestamp);
  }

  lemma BackedReplay(log: seq<StoredEvent>, vs: Verdicts, n: nat, t: nat, app: string, timestamp: int)
    requires n <= t <= |log| && RecordedBy(log[..t], timestamp) && Covers(log[..t], vs, n, app)
    ensures Fold(Apply, vs, Filter(log[n..], Recorded(app, timestamp))) == FullReplay(log, app, timestamp)
  {
    TailReplay(log, vs, n, t, app, timestamp);
    TailReplay(log, map[], 0, t, app, timestamp);
    assert log[0..] == log;
    assert map[] + From(log[..t], 0, app) == From(log[..t], 0, app);
  }

  lemma SnapshotQueryIsReplay(log: seq<StoredEvent>, s: Snapshot, t: nat, timestamp: int)
    requires Ascending(log) && Plain(s.applicationId) && Backed(log, s, t) && s.snapshotAt <= timestamp
    ensures Named(Query(log, Some(s), s.applicationId, timestamp)) == FullReplay(log, s.applicationId, timestamp)
  {
    QueryReplaysDelta(log, s, s.applicationId, timestamp);
    BackedReplay(log, Named(s.rows), Rank(log, s.eventPosition + 1), t, s.applicationId, timestamp);
  }

  lemma PlainQueryIsReplay(log: seq<StoredEvent>, app: string, timestamp: int)
    requires Ascending(log) && Plain(app)
    ensures Named(Query(log, None, app, timestamp)) == FullReplay(log, app, timestamp)
  {
    RankOfZero(log);
    DeltaIsLater(log, app, 0, timestamp);
    assert log[0..] == log;
    ReplayVerdicts(map[], Filter(log, InDelta(app, 0, timestamp)));
  }

  lemma LogOnlyGrows(w: World, m: Move)
    ensures w.log <= Do(w, m).log
  {
  }

  lemma {:induction false} RunKeepsSolid(w: World, moves: seq<Move>)
    requires Solid(w)
    ensures Solid(Reach(w, moves)) && w.log <= Reach(w, moves).log
    decreases |moves|
  {
    if moves != [] {
      MoveKeepsSolid(w, moves[0]);
      LogOnlyGrows(w, moves[0]);
      RunKeepsSolid(Do(w, moves[0]), moves[1..]);
    }
  }

  lemma TrustedIsRight(w: World, app: string)
    requires Solid(w) && Trusted(w, app) && Plain(app)
    ensures Right(w, app)
  {
    forall used: Option<Snapshot>, timestamp: int, between: seq<Move> | Available(w.audit, used, app, timestamp)
      ensures Named(Query(Reach(w, between).log, used, app, timestamp)) ==
        FullReplay(Reach(w, between).log, app, timestamp)
    {
      var log := Reach(w, between).log;
      RunKeepsSolid(w, between);
      match used
      case Some(s) =>
        FaithfulGrows(w.log, log, s);
        var t: nat :| Backed(log, s, t);
        SnapshotQueryIsReplay(log, s, t, timestamp);
      case None => PlainQueryIsReplay(log, app, timestamp);
    }
  }

  /** The temporal query refines full replay: on every lossless run, whichever snapshots exist, whichever usable one is
      chosen, whatever happens before the delta is read and however far the daemon lags, the answer gives every
      named rule the verdict a full replay gives. */
  lemma QueryIsReplay(w: World, moves: seq<Move>, app: string)
    requires Consistent(w, app) && LosslessRun(w, moves, app) && Plain(app)
    ensures Right(Reach(w, moves), app)
  {
    RunKeepsConsistent(w, moves, app);
    TrustedIsRight(Reach(w, moves), app);
  }

  /** A moment at which a rebuild loses nothing about any application: nothing is in flight, or nothing lies before
      what is in flight. It is the moment DaemonRuns.RebuildSafe allows to a projection without error rows. */
  predicate SafeMoment(w: World)
  {
    w.pending == [] || Reached(w) == 0
  }

  lemma SafeMomentIsCareful(w: World, app: string)
    requires SafeMoment(w)
    ensures Careful(w, RebuildAll, app)
  {
    assert w.log[..0] == [];
  }
}
