/** When the temporal query of the compliance audit view keeps answering rightly, exactly: behind a rebuild or skips
    with a batch in flight, and on every run from the beginning. */
module ComplianceAuditAnswers {
  import opened Events
  import opened Sequences
  import opened EventLog
  import opened Like
  import opened Daemon
  import opened LogSegments
  import opened ComplianceAudit
  import opened OwedVerdicts
  import opened ComplianceAuditRuns

  // ---- continuing without further rebuilds and skips ----

  /** No further rebuild and no further skip. */
  predicate Harmless(m: Move)
  {
    !m.RebuildAll? && !m.GiveUp?
  }

  predicate Clean(moves: seq<Move>)
  {
    moves == [] || (Harmless(moves[0]) && Clean(moves[1..]))
  }

  lemma {:induction false} CleanIsCareful(w: World, moves: seq<Move>, app: string)
    requires Clean(moves)
    ensures CarefulRun(w, moves, app)
    decreases |moves|
  {
    if moves != [] {
      CleanIsCareful(Do(w, moves[0]), moves[1..], app);
    }
  }

  lemma {:induction false} CleanAppend(xs: seq<Move>, ys: seq<Move>)
    requires Clean(xs) && Clean(ys)
    ensures Clean(xs + ys)
  {
    if xs == [] {
      assert xs + ys == ys;
    } else {
      CleanAppend(xs[1..], ys);
      assert (xs + ys)[1..] == xs[1..] + ys;
    }
  }

  lemma ChainMoves(w: World, xs: seq<Move>, mid: World, ys: seq<Move>) returns (moves: seq<Move>)
    requires Clean(xs) && Clean(ys) && mid == Reach(w, xs)
    ensures Clean(moves) && Reach(w, moves) == Reach(mid, ys)
  {
    moves := xs + ys;
    CleanAppend(xs, ys);
    ReachAppend(w, xs, ys);
  }

  lemma SingleMove(w: World, m: Move) returns (moves: seq<Move>)
    ensures Reach(w, moves) == Do(w, m)
    ensures Harmless(m) ==> Clean(moves)
  {
    moves := [m];
    ReachFirst(w, m, []);
    assert [m] + [] == [m];
  }

  lemma TwoMoves(w: World, m: Move, m': Move) returns (moves: seq<Move>)
    requires Harmless(m) && Harmless(m')
    ensures Reach(w, moves) == Do(Do(w, m), m') && Clean(moves)
  {
    var first := SingleMove(w, m);
    var last := SingleMove(Do(w, m), m');
    moves := ChainMoves(w, first, Do(w, m), last);
  }

  /** Whether all answers about an application stay right while no further rebuild and no further skip happens. */
  ghost predicate StaysRight(w: World, app: string)
  {
    forall moves | Clean(moves) :: Right(Reach(w, moves), app)
  }

  /** The first event from the n-th on that the handler never accepts; the length of the log when there is none. */
  function FirstRefused(log: seq<StoredEvent>, n: nat): (b: nat)
    requires n <= |log|
    ensures n <= b <= |log| && (b < |log| ==> Raises(log[b]))
    ensures forall j | n <= j < b :: !Raises(log[j])
    decreases |log| - n
  {
    if n == |log| || Raises(log[n]) then n else FirstRefused(log, n + 1)
  }

  lemma FirstRefusedIs(log: seq<StoredEvent>, n: nat, b: nat)
    requires n <= b <= |log| && (b < |log| ==> Raises(log[b]))
    requires forall j | n <= j < b :: !Raises(log[j])
    ensures FirstRefused(log, n) == b
  {
  }

  predicate CountedFor(e: StoredEvent, app: string)
  {
    Counted(e) && AppOf(e) == app
  }

  /** With the m-th event in flight, begun or not, and an application counted so far: whether a snapshot of the
      application can still be taken without a skip. Nothing stands in the way up to the end of the log; or an event
      of the application comes before the first refused one; or the event in flight is one, still to be begun,
      whose count is due. */
  predicate SnapshotPossible(log: seq<StoredEvent>, m: nat, waiting: bool, count: nat, app: string)
    requires m < |log|
  {
    var b := FirstRefused(log, if waiting then m else m + 1);
    || b == |log|
    || (exists j: nat :: m < j < b && CountedFor(log[j], app))
    || (waiting && m < b && CountedFor(log[m], app) && (count + 1) % SNAPSHOT_EVENT_COUNT_TRIGGER == 0)
  }

  /** Whether a snapshot of the application can still be taken from the batch in flight on without a skip. */
  predicate SnapshotAhead(w: World, app: string)
  {
    match w
    case World(log, audit, checkpoint, pending, stage, now) =>
      && pending != []
      && var m := Rank(log, pending[0].globalPosition);
         || (stage.Reading? && AppOf(pending[0]) == app)
         || (m < |log| && SnapshotPossible(log, m, stage.Waiting?, Count(audit.eventCounts, app), app))
  }

  // ---- no snapshot can come ----

  lemma PossibleGrows(log: seq<StoredEvent>, rows: seq<StoredEvent>, m: nat, waiting: bool, count: nat, app: string)
    requires m < |log| && !SnapshotPossible(log, m, waiting, count, app)
    ensures !SnapshotPossible(log + rows, m, waiting, count, app)
  {
    var n := if waiting then m else m + 1;
    var b := FirstRefused(log, n);
    assert forall j | 0 <= j < |log| :: (log + rows)[j] == log[j];
    FirstRefusedIs(log + rows, n, b);
  }

  lemma BegunNotPossible(log: seq<StoredEvent>, m: nat, count: nat, count': nat, app: string)
    requires m < |log| && !Raises(log[m])
    ensures !SnapshotPossible(log, m, true, count, app) ==> !SnapshotPossible(log, m, false, count', app)
    ensures (CountedFor(log[m], app) ==> (count + 1) % SNAPSHOT_EVENT_COUNT_TRIGGER != 0) ==>
      !SnapshotPossible(log, m, false, count', app) ==> !SnapshotPossible(log, m, true, count, app)
  {
    assert FirstRefused(log, m) == FirstRefused(log, m + 1);
  }

  /** No event of the application comes before the first refused one, and there is one. */
  predicate BarrenFrom(log: seq<StoredEvent>, n: nat, app: string)
  {
    && n <= |log| && FirstRefused(log, n) < |log|
    && forall j | n <= j < FirstRefused(log, n) :: !CountedFor(log[j], app)
  }

  lemma BarrenFurther(log: seq<StoredEvent>, n: nat, i: nat, app: string)
    requires BarrenFrom(log, n, app) && n <= i <= FirstRefused(log, n)
    ensures BarrenFrom(log, i, app) && FirstRefused(log, i) == FirstRefused(log, n)
  {
    FirstRefusedIs(log, i, FirstRefused(log, n));
  }

  lemma BarrenGrows(log: seq<StoredEvent>, rows: seq<StoredEvent>, n: nat, app: string)
    requires BarrenFrom(log, n, app)
    ensures BarrenFrom(log + rows, n, app) && FirstRefused(log + rows, n) == FirstRefused(log, n)
  {
    assert forall j | 0 <= j < |log| :: (log + rows)[j] == log[j];
    FirstRefusedIs(log + rows, n, FirstRefused(log, n));
  }

  /** Behind the checkpoint nothing of the application is delivered any more. */
  predicate Barren(w: World, app: string)
  {
    match w
    case World(log, audit, checkpoint, pending, stage, now) =>
      BarrenBatch(log, Rank(log, checkpoint + 1), pending, stage.Waiting?, app)
  }

  predicate BarrenBatch(log: seq<StoredEvent>, n: nat, pending: seq<StoredEvent>, waiting: bool, app: string)
  {
    && BarrenFrom(log, n, app)
    && (pending != [] ==>
          var i, b := Rank(log, pending[0].globalPosition), FirstRefused(log, n);
          i <= b && (!waiting ==> i < b))
  }

  lemma InFlight(w: World)
    requires Solid(w) && w.pending != []
    ensures var m := Rank(w.log, w.pending[0].globalPosition);
      && m < |w.log| && w.log[m] == w.pending[0] && Rank(w.log, w.checkpoint + 1) <= m
      && Rank(w.log, w.pending[0].globalPosition + 1) == m + 1
  {
    QueueHead(w.log, w.checkpoint, w.pending);
    RankBehind(w.log, Rank(w.log, w.pending[0].globalPosition), w.pending[0]);
    RankOrder(w.log, w.checkpoint + 1, w.pending[0].globalPosition);
  }

  lemma BarrenReadsNothing(w: World, app: string)
    requires Solid(w) && Barren(w, app)
    ensures w.stage.Reading? || w.stage.Holding? ==> AppOf(w.pending[0]) != app
  {
    if w.stage.Reading? || w.stage.Holding? {
      InFlight(w);
    }
  }

  lemma GrowthKeepsBarren(w: World, rows: seq<StoredEvent>, app: string)
    requires Solid(w) && Barren(w, app)
    ensures Barren(Do(w, AppendRows(rows)), app)
  {
    if Fits(w, rows) {
      RankAtEventGrows(w.log, w.log + rows, w.checkpoint);
      GrownIsBarren(w, rows, app);
    }
  }

  lemma GrownIsBarren(w: World, rows: seq<StoredEvent>, app: string)
    requires Ascending(w.log + rows) && Queue(w.log, w.checkpoint, w.pending) && Barren(w, app)
    requires Rank(w.log + rows, w.checkpoint + 1) == Rank(w.log, w.checkpoint + 1)
    ensures Barren(w.(log := w.log + rows), app)
  {
    BatchGrows(w.log, rows, Rank(w.log, w.checkpoint + 1), w.checkpoint, w.pending, w.stage.Waiting?, app);
  }

  lemma BatchGrows(log: seq<StoredEvent>, rows: seq<StoredEvent>, n: nat, checkpoint: nat, pending: seq<StoredEvent>,
                   waiting: bool, app: string)
    requires Ascending(log + rows) && Queue(log, checkpoint, pending) && BarrenBatch(log, n, pending, waiting, app)
    ensures BarrenBatch(log + rows, n, pending, waiting, app)
  {
    QueueGrows(log, log + rows, checkpoint, pending);
    BarrenGrows(log, rows, n, app);
  }

  lemma SaveMakesBarren(w: World, app: string)
    requires Ascending(w.log) && Queue(w.log, w.checkpoint, w.pending) && w.pending != [] && w.stage.Handled?
    requires BarrenFrom(w.log, Rank(w.log, w.pending[0].globalPosition) + 1, app)
    ensures Barren(Do(w, SaveCheckpoint), app)
  {
    assert Do(w, SaveCheckpoint) == Saved(w);
    BatchPops(w.log, w.checkpoint, w.pending, app);
  }

  lemma BatchPops(log: seq<StoredEvent>, checkpoint: nat, pending: seq<StoredEvent>, app: string)
    requires Ascending(log) && Queue(log, checkpoint, pending) && pending != []
    requires BarrenFrom(log, Rank(log, pending[0].globalPosition) + 1, app)
    ensures BarrenBatch(log, Rank(log, pending[0].globalPosition + 1), pending[1..], true, app)
  {
    QueueHead(log, checkpoint, pending);
    RankBehind(log, Rank(log, pending[0].globalPosition), pending[0]);
    if |pending| > 1 {
      QueuePops(log, checkpoint, pending);
    }
  }

  lemma SaveKeepsBarren(w: World, app: string)
    requires Barren(w, app) && w.pending != [] && w.stage.Handled?
    requires Rank(w.log, w.checkpoint + 1) <= Rank(w.log, w.pending[0].globalPosition)
    ensures BarrenFrom(w.log, Rank(w.log, w.pending[0].globalPosition) + 1, app)
  {
    BarrenFurther(w.log, Rank(w.log, w.checkpoint + 1), Rank(w.log, w.pending[0].globalPosition) + 1, app);
  }

  lemma FetchKeepsBarren(w: World, min: nat, app: string)
    requires Ascending(w.log) && Barren(w, app) && w.pending == [] && min <= NextPosition(w.checkpoint)
    ensures Barren(Do(w, Fetch(min)), app)
  {
    assert Do(w, Fetch(min)) == w.(pending := Relevant(Fetched(w.log, min), w.checkpoint), stage := Waiting);
    QueueLoads(w.log, w.checkpoint, min);
  }

  lemma BeginKeepsBarren(w: World, app: string)
    requires Barren(w, app) && w.pending != [] && w.stage.Waiting? && !Raises(w.pending[0])
    requires var m := Rank(w.log, w.pending[0].globalPosition);
      Rank(w.log, w.checkpoint + 1) <= m < |w.log| && w.log[m] == w.pending[0]
    ensures Barren(Do(w, Begin), app)
  {
    assert Do(w, Begin) == Begun(w);
    BatchBegins(w.log, Rank(w.log, w.checkpoint + 1), w.pending, app);
  }

  lemma BatchBegins(log: seq<StoredEvent>, n: nat, pending: seq<StoredEvent>, app: string)
    requires BarrenBatch(log, n, pending, true, app) && pending != [] && !Raises(pending[0])
    requires var m := Rank(log, pending[0].globalPosition);
      n <= m < |log| && log[m] == pending[0]
    ensures BarrenBatch(log, n, pending, false, app)
  {
  }

  lemma MoveKeepsBarren(w: World, m: Move, app: string)
    requires Solid(w) && Barren(w, app) && Harmless(m)
    ensures Barren(Do(w, m), app)
  {
    if m.AppendRows? {
      GrowthKeepsBarren(w, m.rows, app);
    } else if m.SaveCheckpoint? {
      if w.pending != [] && w.stage.Handled? {
        InFlight(w);
        SaveKeepsBarren(w, app);
        SaveMakesBarren(w, app);
      }
    } else if m.Fetch? {
      if w.pending == [] && m.min <= NextPosition(w.checkpoint) {
        FetchKeepsBarren(w, m.min, app);
      }
    } else if m.Begin? {
      if w.pending != [] && w.stage.Waiting? && !Raises(w.pending[0]) {
        InFlight(w);
        BeginKeepsBarren(w, app);
      }
    } else {
      RestKeepsBarren(w, m, app);
    }
  }

  lemma RestKeepsBarren(w: World, m: Move, app: string)
    requires Barren(w, app) && (m.Tick? || m.ReadRows? || m.InsertSnapshot? || m.Retry? || m.Stop?)
    ensures Barren(Do(w, m), app)
  {
    var w' := Do(w, m);
    assert w'.log == w.log && w'.checkpoint == w.checkpoint && (w'.pending == w.pending || w'.pending == []);
    assert w'.stage.Waiting? || !w.stage.Waiting?;
  }

  /** A batch in flight whose loss can still be made up, and from which no snapshot of the application comes. */
  predicate Mute(w: World, app: string)
  {
    Recoverable(w, app) && w.pending != [] && !SnapshotAhead(w, app)
  }

  lemma GrowthKeepsMute(w: World, rows: seq<StoredEvent>, app: string)
    requires Solid(w) && Mute(w, app)
    ensures Mute(Do(w, AppendRows(rows)), app)
  {
    GrowthKeepsRecoverable(w, rows, app);
    if Fits(w, rows) {
      InFlight(w);
      QueueGrows(w.log, w.log + rows, w.checkpoint, w.pending);
      PossibleGrows(w.log, rows, Rank(w.log, w.pending[0].globalPosition), w.stage.Waiting?,
                    Count(w.audit.eventCounts, app), app);
    }
  }

  lemma BeginKeepsMute(w: World, app: string)
    requires Solid(w) && Mute(w, app) && w.stage.Waiting? && !Raises(w.pending[0])
    ensures Mute(Do(w, Begin), app)
  {
    BeginKeepsRecoverable(w, app);
    InFlight(w);
    BeginStaysBehind(w, app);
    assert Do(w, Begin) == Begun(w);
  }

  lemma BeginStaysBehind(w: World, app: string)
    requires w.pending != [] && w.stage.Waiting? && !Raises(w.pending[0]) && !SnapshotAhead(w, app)
    requires var m := Rank(w.log, w.pending[0].globalPosition);
      m < |w.log| && w.log[m] == w.pending[0]
    ensures !SnapshotAhead(Begun(w), app)
  {
    var w', m := Begun(w), Rank(w.log, w.pending[0].globalPosition);
    BegunNotPossible(w.log, m, Count(w.audit.eventCounts, app), Count(w'.audit.eventCounts, app), app);
    assert FirstRefused(w.log, m) > m;
    assert !(w'.stage.Reading? && AppOf(w.pending[0]) == app);
  }

  lemma RetryKeepsMute(w: World, app: string)
    requires Solid(w) && Mute(w, app) && (w.stage.Reading? || w.stage.Holding?)
    ensures Mute(Do(w, Retry), app)
  {
    RestKeepsRecoverable(w, Retry, app);
    InFlight(w);
    RetryStaysBehind(w, app);
    assert Do(w, Retry) == w.(stage := Waiting);
  }

  lemma RetryStaysBehind(w: World, app: string)
    requires w.pending != [] && !SnapshotAhead(w, app) && (w.stage.Reading? || w.stage.Holding?)
    requires !Raises(w.pending[0]) && SnapshotDue(w.audit, AppOf(w.pending[0]))
    requires var m := Rank(w.log, w.pending[0].globalPosition);
      m < |w.log| && w.log[m] == w.pending[0]
    ensures !SnapshotAhead(w.(stage := Waiting), app)
  {
    var n := Count(w.audit.eventCounts, app);
    assert CountedFor(w.pending[0], app) ==> n % SNAPSHOT_EVENT_COUNT_TRIGGER == 0;
    BegunNotPossible(w.log, Rank(w.log, w.pending[0].globalPosition), n, n, app);
  }

  lemma NotPossibleIsBarren(log: seq<StoredEvent>, m: nat, count: nat, app: string)
    requires m < |log| && !SnapshotPossible(log, m, false, count, app)
    ensures BarrenFrom(log, m + 1, app)
  {
  }

  lemma StopCovers(w: World, newProcess: bool, app: string)
    requires Recoverable(w, app)
    ensures Covered(Do(w, Stop(newProcess)), app)
  {
    RestKeepsRecoverable(w, Stop(newProcess), app);
    AtRestIsCovered(Do(w, Stop(newProcess)), app);
  }

  lemma MoveKeepsMute(w: World, m: Move, app: string)
    requires Solid(w) && Mute(w, app) && Harmless(m)
    ensures var w' := Do(w, m); Mute(w', app) || Barren(w', app) || Covered(w', app)
  {
    if m.AppendRows? {
      GrowthKeepsMute(w, m.rows, app);
    } else if m.Begin? {
      if w.stage.Waiting? && !Raises(w.pending[0]) {
        BeginKeepsMute(w, app);
      }
    } else if m.Retry? {
      if w.stage.Reading? || w.stage.Holding? {
        RetryKeepsMute(w, app);
      }
    } else if m.SaveCheckpoint? {
      if w.stage.Handled? {
        InFlight(w);
        NotPossibleIsBarren(w.log, Rank(w.log, w.pending[0].globalPosition), Count(w.audit.eventCounts, app), app);
        SaveMakesBarren(w, app);
      }
    } else if m.Stop? {
      StopCovers(w, m.newProcess, app);
    } else {
      RestKeepsMute(w, m, app);
    }
  }

  lemma RestKeepsMute(w: World, m: Move, app: string)
    requires Solid(w) && Mute(w, app) && (m.Tick? || m.Fetch? || m.ReadRows? || m.InsertSnapshot?)
    ensures Mute(Do(w, m), app)
  {
    RestKeepsRecoverable(w, m, app);
    RestKeepsBatch(w, m);
  }

  lemma RestKeepsBatch(w: World, m: Move)
    requires w.pending != [] && (m.Tick? || m.Fetch? || m.ReadRows? || m.InsertSnapshot?)
    ensures var w' := Do(w, m);
      && w'.log == w.log && w'.pending == w.pending && w'.audit.eventCounts == w.audit.eventCounts
      && w'.stage.Waiting? == w.stage.Waiting? && (w'.stage.Reading? ==> w.stage.Reading?)
  {
  }

  /** Nothing is missing, or nothing missing gets into a snapshot. */
  ghost predicate Calm(w: World, app: string)
  {
    Solid(w) && Trusted(w, app) && (Covered(w, app) || Mute(w, app) || Barren(w, app))
  }

  lemma MoveKeepsCalm(w: World, m: Move, app: string)
    requires Calm(w, app) && Harmless(m)
    ensures Calm(Do(w, m), app)
  {
    MoveKeepsSolid(w, m);
    if Covered(w, app) {
      MoveKeepsTrusted(w, m, app);
      MoveKeepsCovered(w, m, app);
    } else if Mute(w, app) {
      MoveKeepsTrusted(w, m, app);
      MoveKeepsMute(w, m, app);
    } else {
      BarrenReadsNothing(w, app);
      MoveKeepsTrusted(w, m, app);
      MoveKeepsBarren(w, m, app);
    }
  }

  lemma {:induction false} CalmStaysTrusted(w: World, moves: seq<Move>, app: string)
    requires Calm(w, app) && Clean(moves)
    ensures Solid(Reach(w, moves)) && Trusted(Reach(w, moves), app)
    decreases |moves|
  {
    if moves != [] {
      MoveKeepsCalm(w, moves[0], app);
      CalmStaysTrusted(Do(w, moves[0]), moves[1..], app);
    }
  }

  lemma CalmStaysRight(w: World, app: string)
    requires Calm(w, app) && Plain(app)
    ensures StaysRight(w, app)
  {
    forall moves | Clean(moves) ensures Right(Reach(w, moves), app) {
      CalmStaysTrusted(w, moves, app);
      TrustedIsRight(Reach(w, moves), app);
    }
  }

  /** Snapshots are never taken without an application. */
  lemma NoNameIsTrusted(w: World)
    requires Solid(w)
    ensures Trusted(w, "")
  {
  }

  lemma NoNameStaysRight(w: World)
    requires Solid(w)
    ensures StaysRight(w, "")
  {
    forall moves | Clean(moves) ensures Right(Reach(w, moves), "") {
      RunKeepsSolid(w, moves);
      NoNameIsTrusted(Reach(w, moves));
      TrustedIsRight(Reach(w, moves), "");
    }
  }

  // ---- a wrong snapshot ----

  lemma LoadFindsEvents(log: seq<StoredEvent>, checkpoint: nat)
    requires Ascending(log) && Rank(log, checkpoint + 1) < |log|
    ensures var pending := Relevant(Fetched(log, NextPosition(checkpoint)), checkpoint);
      pending != [] && pending[0] == log[Rank(log, checkpoint + 1)]
  {
    var hi := FetchedFromSlowest(log, checkpoint);
    RelevantOfSegment(log, Rank(log, checkpoint + 1), hi, checkpoint);
  }

  /** No batch in flight, and the n-th event is the next. */
  predicate AtRest(w: World, n: nat)
  {
    w.pending == [] && Rank(w.log, w.checkpoint + 1) == n
  }

  /** The n-th event is handled up to the first await. */
  predicate TakenUp(w: World, n: nat)
  {
    w.pending != [] && !w.stage.Waiting? && n < |w.log| && w.pending[0] == w.log[n] && Reached(w) == n + 1
  }

  lemma Loads(w: World, n: nat, app: string) returns (moves: seq<Move>, w': World)
    requires Solid(w) && AtRest(w, n) && n < |w.log|
    ensures Clean(moves) && w' == Reach(w, moves)
    ensures Solid(w') && w' == w.(pending := w'.pending, stage := Waiting)
    ensures w'.pending != [] && w'.pending[0] == w.log[n] && Reached(w') == n
    ensures Final(w', app) == Final(w, app)
  {
    var m := Fetch(NextPosition(w.checkpoint));
    w' := Do(w, m);
    LoadFindsEvents(w.log, w.checkpoint);
    FetchKeepsReached(w, NextPosition(w.checkpoint));
    MoveKeepsSolid(w, m);
    ForwardKeepsFinal(w, m, app);
    moves := SingleMove(w, m);
  }

  /** What beginning with an event does to the counters. */
  function CountsAfter(counts: map<string, nat>, e: StoredEvent): map<string, nat>
  {
    if Counted(e) then counts[AppOf(e) := Count(counts, AppOf(e)) + 1] else counts
  }

  lemma Begins(w: World, n: nat, app: string) returns (moves: seq<Move>, w': World)
    requires Solid(w) && w.pending != [] && w.stage.Waiting? && Reached(w) == n && !Raises(w.pending[0])
    ensures Clean(moves) && w' == Reach(w, moves)
    ensures Solid(w') && TakenUp(w', n) && Final(w', app) == Final(w, app)
    ensures w'.log == w.log && w'.now == w.now && w'.checkpoint == w.checkpoint && w'.pending == w.pending
    ensures w'.audit.view == Upsert(w.audit.view, w.pending[0])
    ensures w'.audit.eventCounts == CountsAfter(w.audit.eventCounts, w.pending[0])
    ensures w'.stage.Reading? <==> Counted(w.pending[0]) && SnapshotDue(w'.audit, AppOf(w.pending[0]))
  {
    w' := Do(w, Begin);
    BeginReaches(w);
    MoveKeepsSolid(w, Begin);
    BeginKeepsFinal(w, app);
    moves := SingleMove(w, Begin);
  }

  /** Undisturbed, the daemon takes up the next event. */
  lemma TakesUp(w: World, n: nat, app: string) returns (moves: seq<Move>, w': World)
    requires Solid(w) && AtRest(w, n) && n < |w.log| && !Raises(w.log[n])
    ensures Clean(moves) && w' == Reach(w, moves)
    ensures Solid(w') && TakenUp(w', n) && Final(w', app) == Final(w, app)
    ensures w'.log == w.log && w'.now == w.now && w'.checkpoint == w.checkpoint
    ensures w'.audit.view == Upsert(w.audit.view, w.log[n])
    ensures w'.audit.eventCounts == CountsAfter(w.audit.eventCounts, w.log[n])
    ensures w'.stage.Reading? <==> Counted(w.log[n]) && SnapshotDue(w'.audit, AppOf(w.log[n]))
  {
    var loaded, last;
    moves, loaded := Loads(w, n, app);
    last, w' := Begins(loaded, n, app);
    moves := ChainMoves(w, moves, loaded, last);
  }

  /** A snapshot that is begun is written. */
  lemma Settles(w: World, app: string) returns (moves: seq<Move>, w': World)
    requires Solid(w) && w.pending != [] && !w.stage.Waiting?
    ensures Clean(moves) && w' == Reach(w, moves)
    ensures Solid(w') && w'.pending == w.pending && w'.stage.Handled? && Final(w', app) == Final(w, app)
    ensures w'.log == w.log && w'.now == w.now && w'.checkpoint == w.checkpoint && Reached(w') == Reached(w)
    decreases if w.stage.Reading? then 2 else if w.stage.Holding? then 1 else 0
  {
    if w.stage.Handled? {
      moves, w' := [], w;
    } else {
      var m := if w.stage.Reading? then ReadRows else InsertSnapshot;
      var mid := Do(w, m);
      SettlesFurther(w, m, app);
      var first := SingleMove(w, m);
      var last;
      last, w' := Settles(mid, app);
      moves := ChainMoves(w, first, mid, last);
    }
  }

  lemma SettlesFurther(w: World, m: Move, app: string)
    requires Solid(w) && w.pending != []
    requires (w.stage.Reading? && m.ReadRows?) || (w.stage.Holding? && m.InsertSnapshot?)
    ensures var w' := Do(w, m);
      && Solid(w') && w'.pending == w.pending && Final(w', app) == Final(w, app)
      && w'.log == w.log && w'.now == w.now && w'.checkpoint == w.checkpoint && Reached(w') == Reached(w)
      && (if w.stage.Reading? then w'.stage.Holding? else w'.stage.Handled?)
  {
    MoveKeepsSolid(w, m);
    ForwardKeepsFinal(w, m, app);
  }

  lemma SavedReaches(w: World)
    requires Solid(w) && w.pending != [] && !w.stage.Waiting?
    ensures Reached(Saved(w).(pending := [], stage := Waiting)) == Reached(w)
  {
    InFlight(w);
  }

  /** The checkpoint is saved and the rest of the batch abandoned. */
  lemma SavesAndRests(w: World, n: nat, app: string) returns (moves: seq<Move>, w': World)
    requires Solid(w) && w.pending != [] && w.stage.Handled? && Reached(w) == n
    ensures Clean(moves) && w' == Reach(w, moves)
    ensures Solid(w') && AtRest(w', n) && w'.log == w.log && w'.now == w.now && Final(w', app) == Final(w, app)
  {
    var saved := Saved(w);
    w' := saved.(pending := [], stage := Waiting);
    assert Do(w, SaveCheckpoint) == saved && Do(saved, Stop(false)) == w';
    MoveKeepsSolid(w, SaveCheckpoint);
    MoveKeepsSolid(saved, Stop(false));
    SavedReaches(w);
    moves := TwoMoves(w, SaveCheckpoint, Stop(false));
  }

  lemma Finishes(w: World, n: nat, app: string) returns (moves: seq<Move>, w': World)
    requires Solid(w) && w.pending != [] && !w.stage.Waiting? && Reached(w) == n
    ensures Clean(moves) && w' == Reach(w, moves)
    ensures Solid(w') && AtRest(w', n) && w'.log == w.log && w'.now == w.now && Final(w', app) == Final(w, app)
  {
    var settled, last;
    moves, settled := Settles(w, app);
    last, w' := SavesAndRests(settled, n, app);
    moves := ChainMoves(w, moves, settled, last);
  }

  /** Undisturbed, the daemon delivers the events up to the j-th. */
  lemma DeliversUpTo(w: World, n: nat, j: nat, app: string) returns (moves: seq<Move>, w': World)
    requires Solid(w) && AtRest(w, n) && n <= j <= |w.log| && forall i | n <= i < j :: !Raises(w.log[i])
    ensures Clean(moves) && w' == Reach(w, moves)
    ensures Solid(w') && AtRest(w', j) && w'.log == w.log && w'.now == w.now && Final(w', app) == Final(w, app)
    decreases j - n
  {
    if n == j {
      moves, w' := [], w;
    } else {
      var taken, rested, next;
      moves, taken := TakesUp(w, n, app);
      next, rested := Finishes(taken, n + 1, app);
      moves := ChainMoves(w, moves, taken, next);
      next, w' := DeliversUpTo(rested, n + 1, j, app);
      moves := ChainMoves(w, moves, rested, next);
    }
  }

  /** Abandoning the batch behind the upsert changes nothing in what the table will say. */
  lemma Abandons(w: World, n: nat, taken: World, app: string) returns (moves: seq<Move>, w': World)
    requires Solid(w) && AtRest(w, n) && n < |w.log| && !Raises(w.log[n]) && Solid(taken) && TakenUp(taken, n)
    requires taken.log == w.log && taken.checkpoint == w.checkpoint
    requires taken.audit.view == Upsert(w.audit.view, w.log[n])
    ensures Clean(moves) && w' == Reach(taken, moves)
    ensures Solid(w') && AtRest(w', n) && w' == taken.(pending := [], stage := Waiting)
    ensures Final(w', app) == Final(w, app)
  {
    w' := taken.(pending := [], stage := Waiting);
    assert Do(taken, Stop(false)) == w';
    MoveKeepsSolid(taken, Stop(false));
    assert RoutedEvent(w.log[n]);
    AgainOverrides(w.log, n, w.audit.view, app);
    assert Reached(w') == n && Reached(w) == n;
    moves := SingleMove(taken, Stop(false));
  }

  lemma Countdown(n: nat)
    requires (n + 1) % SNAPSHOT_EVENT_COUNT_TRIGGER != 0
    ensures (n + 1) % SNAPSHOT_EVENT_COUNT_TRIGGER == n % SNAPSHOT_EVENT_COUNT_TRIGGER + 1
  {
  }

  /** A snapshot of the application as of the n-th event. */
  ghost predicate SnapshotOf(w: World, s: Snapshot, n: nat, app: string)
  {
    && s in w.audit.snapshots && s.applicationId == app && s.snapshotAt == w.now
    && n < |w.log| && s.eventPosition == w.log[n].globalPosition
  }

  /** A snapshot that is due is read and written. */
  lemma SnapshotIsWritten(w: World, n: nat, app: string) returns (moves: seq<Move>, s: Snapshot, w': World)
    requires Solid(w) && TakenUp(w, n) && w.stage.Reading? && AppOf(w.pending[0]) == app
    ensures Clean(moves) && w' == Reach(w, moves)
    ensures Solid(w') && w'.log == w.log && SnapshotOf(w', s, n, app)
    ensures Named(s.rows) + From(w.log, n + 1, app) == Final(w, app)
  {
    s := Snapshot(app, w.pending[0].globalPosition, RowsOf(w.audit.view, app), w.now);
    var held := w.(stage := Holding(s.rows));
    w' := Written(held);
    assert Do(w, ReadRows) == held && Do(held, InsertSnapshot) == w';
    MoveKeepsSolid(w, ReadRows);
    MoveKeepsSolid(held, InsertSnapshot);
    moves := TwoMoves(w, ReadRows, InsertSnapshot);
  }

  /** An event of the application is delivered again and again, its batch abandoned each time before the checkpoint
      is saved, until its count is due and a snapshot of the table as it stands is written. */
  lemma Pumps(w: World, n: nat, app: string) returns (moves: seq<Move>, s: Snapshot, w': World)
    requires Solid(w) && AtRest(w, n) && n < |w.log| && !Raises(w.log[n]) && CountedFor(w.log[n], app)
    ensures Clean(moves) && w' == Reach(w, moves)
    ensures Solid(w') && w'.log == w.log && SnapshotOf(w', s, n, app)
    ensures Named(s.rows) + From(w.log, n + 1, app) == Final(w, app)
    decreases SNAPSHOT_EVENT_COUNT_TRIGGER - Count(w.audit.eventCounts, app) % SNAPSHOT_EVENT_COUNT_TRIGGER
  {
    var first, taken := TakesUp(w, n, app);
    var rest;
    if taken.stage.Reading? {
      rest, s, w' := SnapshotIsWritten(taken, n, app);
      moves := ChainMoves(w, first, taken, rest);
    } else {
      Countdown(Count(w.audit.eventCounts, app));
      var rested;
      rest, rested := Abandons(w, n, taken, app);
      first := ChainMoves(w, first, taken, rest);
      rest, s, w' := Pumps(rested, n, app);
      moves := ChainMoves(w, first, rested, rest);
    }
  }

  lemma AllRecorded(log: seq<StoredEvent>, app: string, now: int)
    requires RecordedBy(log, now)
    ensures FullReplay(log, app, now) == From(log, 0, app)
  {
    assert log + [] == log && log[0..] == log;
    ReplayOfRecorded(log, [], map[], app, now);
    assert map[] + StreamVerdicts(log, app) + map[] == StreamVerdicts(log, app);
  }

  lemma AllDelta(log: seq<StoredEvent>, vs: Verdicts, n: nat, app: string, now: int)
    requires RecordedBy(log, now) && n <= |log|
    ensures Fold(Apply, vs, Filter(log[n..], Recorded(app, now))) == vs + From(log, n, app)
  {
    assert log[..|log|] == log && log[|log|..] == [];
    TailReplay(log, vs, n, |log|, app, now);
    var all := vs + From(log, n, app);
    assert all + map[] == all;
  }

  lemma WrongAnswer(w: World, used: Option<Snapshot>, app: string, timestamp: int)
    requires Available(w.audit, used, app, timestamp)
    requires Named(Query(w.log, used, app, timestamp)) != FullReplay(w.log, app, timestamp)
    ensures !Right(w, app)
  {
    var log := Reach(w, []).log;
    assert Named(Query(log, used, app, timestamp)) != FullReplay(log, app, timestamp);
  }

  lemma SnapshotAnswers(w: World, s: Snapshot, n: nat, app: string)
    requires Solid(w) && Plain(app) && SnapshotOf(w, s, n, app)
    ensures Named(Query(w.log, Some(s), app, w.now)) == Named(s.rows) + From(w.log, n + 1, app)
  {
    RankBehind(w.log, n, w.log[n]);
    QueryReplaysDelta(w.log, s, app, w.now);
    AllDelta(w.log, Named(s.rows), n + 1, app, w.now);
  }

  /** A snapshot that the later events do not complete to what the log says makes the answer wrong. */
  lemma WrongSnapshotIsWrong(w: World, s: Snapshot, n: nat, app: string)
    requires Solid(w) && Plain(app) && SnapshotOf(w, s, n, app) && !Covers(w.log, Named(s.rows), n + 1, app)
    ensures !Right(w, app)
  {
    SnapshotAnswers(w, s, n, app);
    AllRecorded(w.log, app, w.now);
    WrongAnswer(w, Some(s), app, w.now);
  }

  lemma WrongAtFirst(w: World, n: nat, app: string) returns (moves: seq<Move>)
    requires Solid(w) && Plain(app) && TakenUp(w, n) && w.stage.Reading? && AppOf(w.pending[0]) == app
    requires !Covered(w, app)
    ensures Clean(moves) && !Right(Reach(w, moves), app)
  {
    var s, end;
    moves, s, end := SnapshotIsWritten(w, n, app);
    WrongSnapshotIsWrong(end, s, n, app);
  }

  /** The event in flight is finished and the events are delivered up to one of the application, which is then
      delivered until it writes a snapshot. */
  lemma WrongAtLater(w: World, j: nat, app: string) returns (moves: seq<Move>)
    requires Solid(w) && Plain(app) && w.pending != [] && !Covered(w, app)
    requires Rank(w.log, w.pending[0].globalPosition) < j < |w.log| && CountedFor(w.log[j], app)
    requires forall i | Reached(w) <= i <= j :: !Raises(w.log[i])
    ensures Clean(moves) && !Right(Reach(w, moves), app)
  {
    var m := Rank(w.log, w.pending[0].globalPosition);
    var begun, next := w, [];
    InFlight(w);
    moves := [];
    if w.stage.Waiting? {
      moves, begun := Begins(w, m, app);
    }
    var rested, there, s, end;
    next, rested := Finishes(begun, m + 1, app);
    moves := ChainMoves(w, moves, begun, next);
    next, there := DeliversUpTo(rested, m + 1, j, app);
    moves := ChainMoves(w, moves, rested, next);
    next, s, end := Pumps(there, j, app);
    moves := ChainMoves(w, moves, there, next);
    WrongSnapshotIsWrong(end, s, j, app);
  }

  // ---- one more event of the application ----

  /** Longer than every event id of the log. */
  function FreshId(log: seq<StoredEvent>): (id: string)
    ensures forall e | e in log :: |e.eventId| < |id|
  {
    if log == [] then "r"
    else
      assert log == log[..|log| - 1] + [log[|log| - 1]];
      FreshId(log[..|log| - 1]) + log[|log| - 1].eventId
  }

  function NextFree(log: seq<StoredEvent>): nat
  {
    if log == [] then 1 else log[|log| - 1].globalPosition + 1
  }

  /** A compliance request behind a log: an event that is counted and says nothing about any rule. */
  function Request(log: seq<StoredEvent>, app: string, now: int): StoredEvent
  {
    var sid := ComplianceStream(app);
    StoredEvent(FreshId(log), sid, |Filter(log, OnStream(sid))| + 1, NextFree(log), ComplianceCheckRequested, 1,
                map[ApplicationId := Text(app)], Metadata(None, None), now)
  }

  lemma RequestIsKeyed(log: seq<StoredEvent>, app: string, now: int)
    requires Keyed(log)
    ensures Keyed(log + [Request(log, app, now)])
  {
    var r := Request(log, app, now);
    forall sid ensures Numbered(Filter(log + [r], OnStream(sid))) {
      FilterSnoc(log, r, OnStream(sid));
      assert Numbered(Filter(log, OnStream(sid)));
    }
    forall i | 0 <= i < |log| ensures log[i].eventId != r.eventId {
      assert log[i] in log;
    }
  }

  lemma RequestIsSilent(log: seq<StoredEvent>, r: StoredEvent, n: nat, app: string)
    requires !IsVerdict(r) && n <= |log|
    ensures From(log + [r], n, app) == From(log, n, app)
  {
    FromGrows(log, [r], n, app);
    var from := From(log, n, app);
    assert from + map[] == from;
    FilterSnoc([], r, OnStream(ComplianceStream(app)));
    assert [] + [r] == [r];
    FoldSnoc(Apply, map[], [], r);
  }

  lemma AppendsInOrder(log: seq<StoredEvent>, r: StoredEvent)
    requires Ascending(log) && r.globalPosition == NextFree(log)
    ensures Ascending(log + [r])
  {
  }

  lemma RequestFits(w: World, app: string)
    requires Solid(w) && Keyed(w.log)
    ensures Fits(w, [Request(w.log, app, w.now)])
  {
    var r := Request(w.log, app, w.now);
    AppendsInOrder(w.log, r);
    RequestIsKeyed(w.log, app, w.now);
    assert RoutedEvent(r);
  }

  lemma RequestKeepsUncovered(w: World, app: string) returns (r: StoredEvent, w': World)
    requires Solid(w) && Keyed(w.log) && app != ""
    ensures CountedFor(r, app) && !Raises(r) && w' == Do(w, AppendRows([r])) && w' == w.(log := w.log + [r])
    ensures Solid(w') && Reached(w') == Reached(w) && (Covered(w', app) ==> Covered(w, app))
    ensures w.pending != [] ==> Rank(w'.log, w.pending[0].globalPosition) == Rank(w.log, w.pending[0].globalPosition)
  {
    r := Request(w.log, app, w.now);
    w' := Do(w, AppendRows([r]));
    RequestFits(w, app);
    MoveKeepsSolid(w, AppendRows([r]));
    GrowthKeepsReached(w, [r]);
    QueueGrows(w.log, w'.log, w.checkpoint, w.pending);
    SilentKeepsUncovered(w, w', r, app);
  }

  lemma SilentKeepsUncovered(w: World, w': World, r: StoredEvent, app: string)
    requires Solid(w) && w' == w.(log := w.log + [r]) && !IsVerdict(r) && Reached(w') == Reached(w)
    ensures Covered(w', app) ==> Covered(w, app)
  {
    ReachedInLog(w);
    RequestIsSilent(w.log, r, Reached(w), app);
    RequestIsSilent(w.log, r, 0, app);
  }

  /** Nothing stands in the way up to the end of the log: one more event of the application comes in. */
  lemma WrongAtEnd(w: World, app: string) returns (moves: seq<Move>)
    requires Solid(w) && Keyed(w.log) && Plain(app) && app != "" && w.pending != [] && !Covered(w, app)
    requires forall i | Reached(w) <= i < |w.log| :: !Raises(w.log[i])
    ensures Clean(moves) && !Right(Reach(w, moves), app)
  {
    var r, grown := RequestKeepsUncovered(w, app);
    InFlight(w);
    var first := SingleMove(w, AppendRows([r]));
    var last := WrongAtLater(grown, |w.log|, app);
    moves := ChainMoves(w, first, grown, last);
  }

  lemma WrongWhenDue(w: World, app: string) returns (moves: seq<Move>)
    requires Solid(w) && Plain(app) && w.pending != [] && w.stage.Waiting? && !Covered(w, app)
    requires !Raises(w.pending[0]) && CountedFor(w.pending[0], app)
    requires (Count(w.audit.eventCounts, app) + 1) % SNAPSHOT_EVENT_COUNT_TRIGGER == 0
    ensures Clean(moves) && !Right(Reach(w, moves), app)
  {
    var first, begun := Begins(w, Reached(w), app);
    var last := WrongAtFirst(begun, Reached(w), app);
    moves := ChainMoves(w, first, begun, last);
  }

  /** When something is missing and a snapshot of the application can come, some clean continuation answers wrongly. */
  lemma WrongContinuation(w: World, app: string) returns (moves: seq<Move>)
    requires Solid(w) && Keyed(w.log) && Plain(app) && app != ""
    requires !Covered(w, app) && SnapshotAhead(w, app)
    ensures Clean(moves) && !Right(Reach(w, moves), app)
  {
    var m := Rank(w.log, w.pending[0].globalPosition);
    InFlight(w);
    if w.stage.Reading? && AppOf(w.pending[0]) == app {
      moves := WrongAtFirst(w, m, app);
    } else {
      var b := FirstRefused(w.log, Reached(w));
      if b == |w.log| {
        moves := WrongAtEnd(w, app);
      } else if j: nat :| m < j < b && CountedFor(w.log[j], app) {
        moves := WrongAtLater(w, j, app);
      } else {
        moves := WrongWhenDue(w, app);
      }
    }
  }

  // ---- exactly when the answers stay right ----

  /** Whatever a consistent state has passed over or forgotten: the answers stay right on every continuation without a
      further rebuild or skip if and only if nothing is missing, or no snapshot of the application can come before
      the first event the handler never accepts. */
  lemma StaysRightExactly(w: World, app: string)
    requires Consistent(w, app) && Keyed(w.log) && Plain(app)
    ensures StaysRight(w, app) <==> app == "" || Covered(w, app) || !SnapshotAhead(w, app)
  {
    if app == "" {
      NoNameStaysRight(w);
    } else if Covered(w, app) || !SnapshotAhead(w, app) {
      if w.pending == [] {
        AtRestIsCovered(w, app);
      }
      CalmStaysRight(w, app);
    } else {
      var moves := WrongContinuation(w, app);
    }
  }

  lemma RebuildIsConsistent(w: World, app: string)
    requires Solid(w) && Trusted(w, app)
    ensures Consistent(Do(w, RebuildAll), app)
  {
    MoveKeepsSolid(w, RebuildAll);
    RebuildKeepsTrusted(w, app);
    RebuildIsRecoverable(w, app);
  }

  /** A rebuild whatever is in flight, exactly: the answers stay right if and only if nothing was in flight, or every
      rule with a verdict before the events still to be delivered has another one among them, or no snapshot of the
      application comes before the first event the handler never accepts. */
  lemma RebuildExactly(w: World, app: string)
    requires Solid(w) && Keyed(w.log) && Trusted(w, app) && Plain(app)
    ensures StaysRight(Do(w, RebuildAll), app) <==>
      || app == "" || w.pending == [] || SaidAgain(w.log, Reached(w), app)
      || !SnapshotAhead(w.(audit := EmptyAudit), app)
  {
    var w' := Do(w, RebuildAll);
    RebuildIsConsistent(w, app);
    RebuildCovers(w, app);
    StaysRightExactly(w', app);
    assert SnapshotAhead(w', app) == SnapshotAhead(w.(audit := EmptyAudit), app);
  }

  /** The first k events in flight are skipped one after the other. */
  function Skipped(w: World, k: nat): World
    requires 0 < k <= |w.pending|
  {
    w.(pending := w.pending[k..], stage := Waiting)
  }

  function GiveUps(k: nat): seq<Move>
  {
    if k == 0 then [] else [GiveUp] + GiveUps(k - 1)
  }

  lemma {:induction false} SkipsReach(w: World, k: nat)
    requires 0 < k <= |w.pending| && !w.stage.Handled?
    ensures Reach(w, GiveUps(k)) == Skipped(w, k)
    decreases k
  {
    ReachFirst(w, GiveUp, GiveUps(k - 1));
    var next := Do(w, GiveUp);
    if k > 1 {
      SkipsReach(next, k - 1);
      assert w.pending[1..][k - 1..] == w.pending[k..];
    } else {
      assert GiveUps(0) == [];
    }
  }

  lemma SkipKeepsConsistent(w: World, app: string)
    requires Consistent(w, app) && w.pending != [] && !w.stage.Handled?
    ensures Consistent(Skipped(w, 1), app)
  {
    assert Do(w, GiveUp) == Skipped(w, 1);
    MoveKeepsSolid(w, GiveUp);
    MoveKeepsTrusted(w, GiveUp, app);
    RestKeepsRecoverable(w, GiveUp, app);
  }

  lemma {:induction false} SkipsKeepConsistent(w: World, k: nat, app: string)
    requires Consistent(w, app) && 0 < k <= |w.pending| && !w.stage.Handled?
    ensures Consistent(Skipped(w, k), app)
    decreases k
  {
    SkipKeepsConsistent(w, app);
    if k > 1 {
      SkipsKeepConsistent(Skipped(w, 1), k - 1, app);
      assert w.pending[1..][k - 1..] == w.pending[k..];
    }
  }

  lemma SkipsReached(w: World, k: nat)
    requires Solid(w) && 0 < k < |w.pending| && Solid(Skipped(w, k))
    ensures var m := Rank(w.log, w.pending[0].globalPosition);
      m + k <= |w.log| && Reached(Skipped(w, k)) == m + k
  {
    var m := Rank(w.log, w.pending[0].globalPosition);
    assert w.pending[k] == w.log[m + k];
    RankIs(w.log, w.log[m + k].globalPosition, m + k);
  }

  /** The steps that must not be taken while something is missing, in terms of the table and the log. */
  lemma CoveredExactly(w: World, app: string)
    requires Solid(w) && Recoverable(w, app)
    ensures Covered(w, app) <==> NothingMissing(w.log, TableVerdicts(w, app), Reached(w), app)
  {
    ReachedInLog(w);
    NothingMissingCovers(w.log, TableVerdicts(w, app), Rank(w.log, w.checkpoint + 1), Reached(w), app);
  }

  lemma SkipsCover(w: World, k: nat, app: string)
    requires Solid(w) && 0 < k <= |w.pending| && Solid(Skipped(w, k)) && Recoverable(Skipped(w, k), app)
    ensures Covered(Skipped(w, k), app) <==>
      || k == |w.pending|
      || NothingMissing(w.log, TableVerdicts(w, app), Rank(w.log, w.pending[0].globalPosition) + k, app)
  {
    var w' := Skipped(w, k);
    assert w'.log == w.log && TableVerdicts(w', app) == TableVerdicts(w, app);
    if k < |w.pending| {
      SkipsReached(w, k);
      CoveredExactly(w', app);
    } else {
      assert w'.pending == [];
      AtRestIsCovered(w', app);
    }
  }

  /** Several skips in one batch, exactly: behind the first k events in flight, given up one after the other, the
      answers stay right if and only if that was the whole rest of the batch, or every rule with a verdict up to there
      has a later one or the table says what its last one says, or no snapshot of the application can come. */
  lemma SkipsExactly(w: World, k: nat, app: string)
    requires Consistent(w, app) && Keyed(w.log) && Plain(app)
    requires 0 < k <= |w.pending| && !w.stage.Handled?
    ensures StaysRight(Reach(w, GiveUps(k)), app) <==>
      || app == "" || k == |w.pending|
      || NothingMissing(w.log, TableVerdicts(w, app), Rank(w.log, w.pending[0].globalPosition) + k, app)
      || !SnapshotAhead(Skipped(w, k), app)
  {
    SkipsReach(w, k);
    SkipsKeepConsistent(w, k, app);
    StaysRightExactly(Skipped(w, k), app);
    SkipsCover(w, k, app);
  }

  // ---- whole runs from the beginning ----

  const Beginning := World([], EmptyAudit, 0, [], Waiting, 0)

  lemma BeginningIsConsistent(app: string)
    ensures Consistent(Beginning, app) && Covered(Beginning, app)
  {
  }

  /** Every answer about the application is right after every run that is lossless for it. */
  ghost predicate AnswersAgree(app: string)
  {
    forall moves | LosslessRun(Beginning, moves, app) :: Right(Reach(Beginning, moves), app)
  }

  /** One verdict about one application, on its stream. */
  function OneVerdict(app: string): StoredEvent
  {
    StoredEvent("e", ComplianceStream(app), 1, 1, ComplianceRulePassed, 1,
                map[ApplicationId := Text(app), RuleId := Text("R"), RuleVersion := Text("1")],
                Metadata(None, None), 0)
  }

  lemma OneVerdictIsRouted(app: string)
    ensures RoutedEvent(OneVerdict(app)) && !Raises(OneVerdict(app))
  {
    forall other ensures ComplianceStream(app) == ComplianceStream(other) <==> app == other {
      if ComplianceStream(app) == ComplianceStream(other) {
        ComplianceStreamInjective(app, other);
      }
    }
  }

  lemma AnswersOnOneVerdict(app: string, other: string)
    ensures "R" in Named(Query([OneVerdict(other)], None, app, 0)) <==>
      LikeMatch(ComplianceStream(app), ComplianceStream(other))
    ensures "R" in FullReplay([OneVerdict(other)], app, 0) <==> app == other
  {
    var e := OneVerdict(other);
    FilterSnoc([], e, InDelta(app, 0, 0));
    FilterSnoc([], e, Recorded(app, 0));
    assert [] + [e] == [e];
    FoldSnoc(ApplyEventToState, map[], [], e);
    FoldSnoc(Apply, map[], [], e);
    if ComplianceStream(other) == ComplianceStream(app) {
      ComplianceStreamInjective(other, app);
    }
  }

  lemma OneVerdictIsKeyed(app: string)
    ensures Keyed([OneVerdict(app)])
  {
    var e := OneVerdict(app);
    forall sid ensures Numbered(Filter([e], OnStream(sid))) {
      FilterSnoc([], e, OnStream(sid));
      assert [] + [e] == [e];
    }
  }

  lemma VerdictFits(app: string)
    ensures Do(Beginning, AppendRows([OneVerdict(app)])) == Beginning.(log := [OneVerdict(app)])
  {
    OneVerdictIsRouted(app);
    OneVerdictIsKeyed(app);
    assert Beginning.log + [OneVerdict(app)] == [OneVerdict(app)];
    assert Ascending([OneVerdict(app)]);
  }

  lemma OneWrongAnswer(w: World, app: string, other: string)
    requires w == Beginning.(log := [OneVerdict(other)])
    requires LikeMatch(ComplianceStream(app), ComplianceStream(other)) <==> app != other
    ensures !Right(w, app)
  {
    AnswersOnOneVerdict(app, other);
    WrongAnswer(w, None, app, 0);
  }

  /** With a wildcard one verdict about another application, or its own, is enough. */
  lemma WildcardAnswersDiffer(app: string) returns (moves: seq<Move>)
    requires !Plain(app)
    ensures Clean(moves) && !Right(Reach(Beginning, moves), app)
  {
    var other := Mismatch(app);
    VerdictFits(other);
    moves := SingleMove(Beginning, AppendRows([OneVerdict(other)]));
    OneWrongAnswer(Reach(Beginning, moves), app, other);
  }

  /** The delta query uses LIKE with the identifier inside the pattern. So the answers agree with full replay on every
      lossless run if and only if the identifier holds no %, no _ and no backslash. */
  lemma AnswersAgreeExactly(app: string)
    ensures AnswersAgree(app) <==> Plain(app)
  {
    if Plain(app) {
      forall moves | LosslessRun(Beginning, moves, app) ensures Right(Reach(Beginning, moves), app) {
        BeginningIsConsistent(app);
        QueryIsReplay(Beginning, moves, app);
      }
    } else {
      var moves := WildcardAnswersDiffer(app);
      BeginningIsConsistent(app);
      CleanIsCareful(Beginning, moves, app);
      CarefulIsLossless(Beginning, moves, app);
    }
  }

  lemma QueueOfOne(log: seq<StoredEvent>, checkpoint: nat, pending: seq<StoredEvent>)
    requires Queue(log, checkpoint, pending) && |log| == 1 && pending != []
    ensures pending == log
  {
    assert pending[0] == log[0];
  }

  lemma VerdictLoads(app: string) returns (moves: seq<Move>, w: World)
    ensures w == Reach(Beginning, moves) && Solid(w) && Reached(w) == 0
    ensures w == World([OneVerdict(app)], EmptyAudit, 0, [OneVerdict(app)], Waiting, 0)
  {
    var append := AppendRows([OneVerdict(app)]);
    var grown := Do(Beginning, append);
    BeginningIsConsistent(app);
    VerdictFits(app);
    MoveKeepsSolid(Beginning, append);
    RankOfZero(grown.log);
    var first := SingleMove(Beginning, append);
    var last;
    last, w := Loads(grown, 0, app);
    QueueOfOne(w.log, w.checkpoint, w.pending);
    moves := ChainMoves(Beginning, first, grown, last);
  }

  lemma VerdictIsHeld(app: string)
    ensures From([OneVerdict(app)], 1, app) == map[] && "R" in From([OneVerdict(app)], 0, app)
  {
    AnswersOnOneVerdict(app, app);
    AllRecorded([OneVerdict(app)], app, 0);
    assert [OneVerdict(app)][1..] == [];
  }

  lemma VerdictBegins(w: World, app: string) returns (w': World)
    requires w == World([OneVerdict(app)], EmptyAudit, 0, [OneVerdict(app)], Waiting, 0) && Solid(w) && Reached(w) == 0
    ensures w' == Do(w, Begin) && Solid(w') && !w'.stage.Waiting? && Reached(w') == 1
    ensures w'.log == w.log && w'.pending == w.pending
  {
    OneVerdictIsRouted(app);
    assert !Raises(w.pending[0]);
    w' := Begun(w);
    assert w' == Do(w, Begin);
    MoveKeepsSolid(w, Begin);
    BeginReaches(w);
  }

  lemma RebuildForgets(w: World, app: string) returns (w': World)
    requires Solid(w) && w.log == [OneVerdict(app)] && w.pending != [] && !w.stage.Waiting? && Reached(w) == 1
    ensures w' == Do(w, RebuildAll) && w'.log == w.log && Solid(w') && SnapshotAhead(w', app) && !Covered(w', app)
  {
    w' := Do(w, RebuildAll);
    MoveKeepsSolid(w, RebuildAll);
    RebuildReaches(w);
    VerdictIsMissing(w', app);
    OneIsAhead(w', app);
  }

  lemma VerdictIsMissing(w: World, app: string)
    requires w.log == [OneVerdict(app)] && Reached(w) == 1 && w.audit.view == map[]
    ensures !Covered(w, app)
  {
    VerdictIsHeld(app);
    EmptyTable(app);
    assert Final(w, app) == map[];
  }

  lemma OneIsAhead(w: World, app: string)
    requires w.pending != [] && !w.stage.Waiting? && |w.log| == 1 && Reached(w) == 1
    ensures SnapshotAhead(w, app)
  {
    assert FirstRefused(w.log, 1) == 1;
  }

  /** The verdict is handled, and the table is rebuilt before its checkpoint is saved: the checkpoint will
      pass the forgotten verdict. */
  lemma RebuildInFlight(app: string) returns (moves: seq<Move>, w: World)
    ensures w == Reach(Beginning, moves) && Solid(w) && w.log == [OneVerdict(app)]
    ensures SnapshotAhead(w, app) && !Covered(w, app)
  {
    var loaded;
    moves, loaded := VerdictLoads(app);
    var begun := VerdictBegins(loaded, app);
    w := RebuildForgets(begun, app);
    var begin := SingleMove(loaded, Begin);
    var rebuild := SingleMove(begun, RebuildAll);
    ReachAppend(Beginning, moves, begin);
    moves := moves + begin;
    ReachAppend(Beginning, moves, rebuild);
    moves := moves + rebuild;
  }

  /** Rebuilds and skips at any moment: only the application without a name, which is never counted
      and so never in a snapshot, is answered rightly on every run. */
  lemma RightOnEveryRunExactly(app: string)
    ensures (forall moves :: Right(Reach(Beginning, moves), app)) <==> app == ""
  {
    BeginningIsConsistent(app);
    if app == "" {
      forall moves ensures Right(Reach(Beginning, moves), app) {
        RunKeepsSolid(Beginning, moves);
        NoNameIsTrusted(Reach(Beginning, moves));
        TrustedIsRight(Reach(Beginning, moves), app);
      }
    } else if !Plain(app) {
      var moves := WildcardAnswersDiffer(app);
    } else {
      var first, w := RebuildInFlight(app);
      OneVerdictIsKeyed(app);
      var last := WrongContinuation(w, app);
      ReachAppend(Beginning, first, last);
    }
  }

  /** A wildcard identifier matches the stream of another application, or not even its own. */
  lemma Mismatch(app: string) returns (other: string)
    requires !Plain(app)
    ensures LikeMatch(ComplianceStream(app), ComplianceStream(other)) <==> app != other
  {
    var pattern := ComplianceStream(app);
    assert forall c | c in app :: c in pattern;
    assert !Plain(pattern);
    if Shortest(pattern).Some? {
      ShortestMatches(pattern);
      PlainPrefixStays("compliance-", app, Shortest(pattern).value);
      other := Shortest(pattern).value[11..];
      assert Shortest(pattern).value == ComplianceStream(other);
    } else {
      NoShortestNoMatch(pattern, pattern);
      other := app;
    }
  }
}
