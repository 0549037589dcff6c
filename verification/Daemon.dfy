/** The projection daemon: one batch, as the code runs it, and what a batch does to checkpoints. */
module Daemon {
  import opened Events
  import opened Sequences
  import opened EventLog
  import opened Store

  const MAX_RETRIES := 3
  const EVENTS_PER_BATCH := 1000

  /** A projection's handler, what a failing attempt of it leaves behind, and its truncated table. */
  datatype Projection<!T> = Projection(
    name: string,
    handle: (T, StoredEvent) -> T,
    partial: (T, StoredEvent) -> T,
    empty: T)

  /** One projection's table, checkpoint (0 when the row is missing) and error rows. */
  datatype PState<T> = PState(table: T, checkpoint: nat, errors: seq<nat>)

  /** Whether the given attempt (1, 2, 3) of a projection at a log position raises. */
  type Failures = (string, nat, nat) -> bool

  function NextPosition(checkpoint: nat): nat
  {
    if checkpoint == 0 then 0 else checkpoint + 1
  }

  function CheckpointOf(checkpoints: map<string, nat>, name: string): nat
  {
    if name in checkpoints then checkpoints[name] else 0
  }

  /** The next position of the slowest projection; 0 without projections. */
  function MinPosition(names: seq<string>, checkpoints: map<string, nat>): nat
  {
    if names == [] then 0
    else
      var last := NextPosition(CheckpointOf(checkpoints, names[|names| - 1]));
      if |names| == 1 then last
      else
        var rest := MinPosition(names[..|names| - 1], checkpoints);
        if rest < last then rest else last
  }

  /** The events one batch loads. */
  function Fetched(log: seq<StoredEvent>, min: nat): seq<StoredEvent>
  {
    Take(Matching(log, min, []), EVENTS_PER_BATCH)
  }

  /** The loaded events a projection still has to see. */
  function Relevant(events: seq<StoredEvent>, checkpoint: nat): seq<StoredEvent>
  {
    Matching(events, NextPosition(checkpoint), [])
  }

  predicate Succeeds(name: string, e: StoredEvent, fails: Failures)
  {
    exists k :: 1 <= k <= MAX_RETRIES && !fails(name, e.globalPosition, k)
  }

  /** Attempts k..MAX_RETRIES of one delivery: the table and whether an attempt went through. */
  function Attempts<T>(p: Projection<T>, t: T, e: StoredEvent, fails: Failures, k: nat): (T, bool)
    requires 1 <= k <= MAX_RETRIES + 1
    decreases MAX_RETRIES + 1 - k
  {
    if k > MAX_RETRIES then (t, false)
    else if !fails(p.name, e.globalPosition, k) then (p.handle(t, e), true)
    else Attempts(p, p.partial(t, e), e, fails, k + 1)
  }

  function Deliver<T>(p: Projection<T>, s: PState<T>, e: StoredEvent, fails: Failures): PState<T>
  {
    var (t, ok) := Attempts(p, s.table, e, fails, 1);
    if ok then s.(table := t, checkpoint := e.globalPosition)
    else s.(table := t, errors := s.errors + [e.globalPosition])
  }

  function Delivering<T>(p: Projection<T>, fails: Failures): (PState<T>, StoredEvent) -> PState<T>
  {
    (s: PState<T>, e: StoredEvent) => Deliver(p, s, e, fails)
  }

  function DeliverAll<T>(p: Projection<T>, s: PState<T>, events: seq<StoredEvent>, fails: Failures): PState<T>
  {
    Fold(Delivering(p, fails), s, events)
  }

  class ProjectionDaemon<T> {
    const projections: seq<Projection<T>>
    var tables: map<string, T>
    var checkpoints: map<string, nat>
    var errors: map<string, seq<nat>>

    ghost predicate Valid()
      reads this
    {
      && (forall i, j | 0 <= i < j < |projections| :: projections[i].name != projections[j].name)
      && (forall i | 0 <= i < |projections| :: projections[i].name in tables && projections[i].name in errors)
    }

    function Names(): (r: seq<string>)
      ensures |r| == |projections| && forall i | 0 <= i < |r| :: r[i] == projections[i].name
    {
      seq(|projections|, i requires 0 <= i < |projections| => projections[i].name)
    }

    function State(name: string): PState<T>
      requires name in tables && name in errors
      reads this
    {
      PState(tables[name], CheckpointOf(checkpoints, name), errors[name])
    }

    /** A daemon starts over whatever tables and checkpoints the database holds. */
    constructor (projections: seq<Projection<T>>, tables: map<string, T>, checkpoints: map<string, nat>,
                 errors: map<string, seq<nat>>)
      requires forall i, j | 0 <= i < j < |projections| :: projections[i].name != projections[j].name
      requires forall i | 0 <= i < |projections| :: projections[i].name in tables && projections[i].name in errors
      ensures Valid() && this.projections == projections
      ensures this.tables == tables && this.checkpoints == checkpoints && this.errors == errors
    {
      this.projections, this.tables, this.checkpoints, this.errors := projections, tables, checkpoints, errors;
    }

    method HandleWithRetry(p: Projection<T>, e: StoredEvent, fails: Failures) returns (ok: bool)
      requires p.name in tables && p.name in errors
      modifies this`tables, this`errors
      ensures p.name in tables && p.name in errors
      ensures (tables[p.name], ok) == Attempts(p, old(tables)[p.name], e, fails, 1)
      ensures tables == old(tables)[p.name := tables[p.name]]
      ensures errors == if ok then old(errors) else old(errors)[p.name := old(errors)[p.name] + [e.globalPosition]]
    {
      for attempt := 1 to MAX_RETRIES + 1
        invariant p.name in tables && tables == old(tables)[p.name := tables[p.name]]
        invariant errors == if attempt <= MAX_RETRIES then old(errors)
                            else old(errors)[p.name := old(errors)[p.name] + [e.globalPosition]]
        invariant Attempts(p, tables[p.name], e, fails, attempt) == Attempts(p, old(tables)[p.name], e, fails, 1)
      {
        if !fails(p.name, e.globalPosition, attempt) {
          tables := tables[p.name := p.handle(tables[p.name], e)];
          return true;
        }
        tables := tables[p.name := p.partial(tables[p.name], e)];
        if attempt == MAX_RETRIES {
          errors := errors[p.name := errors[p.name] + [e.globalPosition]];
        }
      }
      ok := false;
    }

    /** The inner loop of a batch: every relevant event delivered to one projection. */
    method DriveProjection(p: Projection<T>, relevant: seq<StoredEvent>, fails: Failures)
      requires p.name in tables && p.name in errors
      modifies this`tables, this`errors, this`checkpoints
      ensures tables.Keys == old(tables.Keys) && errors.Keys == old(errors.Keys)
      ensures State(p.name) == DeliverAll(p, old(State(p.name)), relevant, fails)
      ensures forall other | other != p.name && other in tables && other in errors :: State(other) == old(State(other))
    {
      for i := 0 to |relevant|
        invariant tables.Keys == old(tables.Keys) && errors.Keys == old(errors.Keys)
        invariant State(p.name) == DeliverAll(p, old(State(p.name)), relevant[..i], fails)
        invariant forall other | other != p.name && other in tables && other in errors ::
          State(other) == old(State(other))
      {
        assert relevant[..i + 1] == relevant[..i] + [relevant[i]];
        FoldSnoc(Delivering(p, fails), old(State(p.name)), relevant[..i], relevant[i]);
        var ok := HandleWithRetry(p, relevant[i], fails);
        if ok {
          checkpoints := checkpoints[p.name := relevant[i].globalPosition];
        }
      }
      assert relevant[..|relevant|] == relevant;
    }

    /** One batch: load from the slowest projection's position, then drive each projection in turn. */
    method ProcessBatch(log: seq<StoredEvent>, fails: Failures)
      requires Valid()
      modifies this`tables, this`errors, this`checkpoints
      ensures Valid()
      ensures forall i | 0 <= i < |projections| ::
        var p := projections[i];
        var events := Fetched(log, MinPosition(Names(), old(checkpoints)));
        State(p.name) == DeliverAll(p, old(State(p.name)), Relevant(events, old(State(p.name)).checkpoint), fails)
    {
      var start := checkpoints;
      var events := Fetched(log, MinPosition(Names(), start));
      if events == [] {
        return;
      }
      for i := 0 to |projections|
        invariant Valid()
        invariant forall j | 0 <= j < i ::
          State(projections[j].name) ==
          DeliverAll(projections[j], old(State(projections[j].name)),
                     Relevant(events, old(State(projections[j].name)).checkpoint), fails)
        invariant forall j | i <= j < |projections| :: State(projections[j].name) == old(State(projections[j].name))
      {
        var p := projections[i];
        DriveProjection(p, Relevant(events, CheckpointOf(start, p.name)), fails);
      }
    }

    /** False stands for the KeyError of an unknown name. */
    method RebuildProjection(name: string) returns (known: bool)
      requires Valid()
      modifies this`tables, this`checkpoints
      ensures Valid()
      ensures known <==> exists i :: 0 <= i < |projections| && projections[i].name == name
      ensures !known ==> tables == old(tables) && checkpoints == old(checkpoints)
      ensures forall i | 0 <= i < |projections| && projections[i].name == name ::
        State(name) == PState(projections[i].empty, 0, old(errors)[name])
      ensures forall i | 0 <= i < |projections| && projections[i].name != name ::
        State(projections[i].name) == old(State(projections[i].name))
    {
      for i := 0 to |projections|
        invariant forall j | 0 <= j < i :: projections[j].name != name
      {
        if projections[i].name == name {
          tables := tables[name := projections[i].empty];
          checkpoints := checkpoints - {name};
          return true;
        }
      }
      known := false;
    }
  }

  // ---- what a batch does to the checkpoints ----

  lemma SucceedsMeansAttempt<T>(p: Projection<T>, t: T, e: StoredEvent, fails: Failures)
    ensures Attempts(p, t, e, fails, 1).1 <==> Succeeds(p.name, e, fails)
  {
    var g := e.globalPosition;
    assert Attempts(p, t, e, fails, 1).1 <==> !fails(p.name, g, 1) || !fails(p.name, g, 2) || !fails(p.name, g, 3) by {
      var t2 := p.partial(t, e);
      var t3 := p.partial(t2, e);
      assert Attempts(p, t2, e, fails, 2).1 <==> !fails(p.name, g, 2) || Attempts(p, t3, e, fails, 3).1;
    }
  }

  /** Events a batch hands to one projection: ascending, all past its checkpoint. */
  ghost predicate Ahead(events: seq<StoredEvent>, checkpoint: nat)
  {
    && (forall i, j | 0 <= i < j < |events| :: events[i].globalPosition < events[j].globalPosition)
    && (forall i | 0 <= i < |events| :: checkpoint < events[i].globalPosition)
  }

  /** An event is passed over by a batch if and only if it or a later event of the same batch was handled
      successfully. So a failing event is skipped only behind a success; otherwise the next batch meets it again. */
  lemma {:induction false} PassedOverOnlyBehindSuccess<T>(p: Projection<T>, s: PState<T>, events: seq<StoredEvent>,
                                                       fails: Failures, k: nat)
    requires Ahead(events, s.checkpoint) && k < |events|
    ensures var s' := DeliverAll(p, s, events, fails);
      events[k].globalPosition <= s'.checkpoint <==>
      exists i :: k <= i < |events| && Succeeds(p.name, events[i], fails)
  {
    var last := events[|events| - 1];
    var front := events[..|events| - 1];
    var mid := DeliverAll(p, s, front, fails);
    SucceedsMeansAttempt(p, mid.table, last, fails);
    if Succeeds(p.name, last, fails) {
      assert events[|events| - 1] == last;
    } else if k < |front| {
      PassedOverOnlyBehindSuccess(p, s, front, fails, k);
      assert forall i | k <= i < |front| :: front[i] == events[i];
    } else {
      CheckpointStaysBelow(p, s, front, fails);
    }
  }

  /** A checkpoint only moves to positions of delivered events, and never back. */
  lemma {:induction false} CheckpointStaysBelow<T>(p: Projection<T>, s: PState<T>, events: seq<StoredEvent>,
                                                   fails: Failures)
    requires Ahead(events, s.checkpoint)
    ensures var s' := DeliverAll(p, s, events, fails);
      && s.checkpoint <= s'.checkpoint
      && (s'.checkpoint == s.checkpoint || exists i :: 0 <= i < |events| && s'.checkpoint == events[i].globalPosition)
  {
    if events != [] {
      CheckpointStaysBelow(p, s, events[..|events| - 1], fails);
    }
  }

  lemma {:induction false} MinPositionIsLeast(names: seq<string>, checkpoints: map<string, nat>, i: nat)
    requires i < |names|
    ensures MinPosition(names, checkpoints) <= NextPosition(CheckpointOf(checkpoints, names[i]))
    ensures exists j ::
      0 <= j < |names| && MinPosition(names, checkpoints) == NextPosition(CheckpointOf(checkpoints, names[j]))
  {
    var n := |names| - 1;
    if n > 0 {
      var front := names[..n];
      MinPositionIsLeast(front, checkpoints, if i < n then i else 0);
      var j :| 0 <= j < |front| && MinPosition(front, checkpoints) == NextPosition(CheckpointOf(checkpoints, front[j]));
      assert front[j] == names[j];
      assert names[n] == names[|names| - 1];
    } else {
      assert names[0] == names[|names| - 1];
    }
  }

  /** How many events of the log the slowest projection has yet to pass. */
  function Behind(log: seq<StoredEvent>, names: seq<string>, checkpoints: map<string, nat>): nat
  {
    |Matching(log, MinPosition(names, checkpoints), [])|
  }

  lemma FetchedIsAhead(log: seq<StoredEvent>, min: nat, checkpoint: nat)
    requires Ascending(log)
    ensures Ascending(Fetched(log, min))
    ensures Ahead(Relevant(Fetched(log, min), checkpoint), checkpoint)
  {
    MatchesStayAscending(log, Wanted(min, []));
    var events := Fetched(log, min);
    MatchesStayAscending(events, Wanted(NextPosition(checkpoint), []));
    FilterMembers(events, Wanted(NextPosition(checkpoint), []));
    var relevant := Relevant(events, checkpoint);
    forall i | 0 <= i < |relevant| ensures checkpoint < relevant[i].globalPosition {
      assert relevant[i] in relevant;
    }
  }

  /** A projection that still needs the first fetched event is handed the whole batch. */
  lemma NeedsFirstNeedsAll(log: seq<StoredEvent>, min: nat, checkpoint: nat)
    requires Ascending(log) && Fetched(log, min) != []
    requires NextPosition(checkpoint) <= Fetched(log, min)[0].globalPosition
    ensures Relevant(Fetched(log, min), checkpoint) == Fetched(log, min)
  {
    FetchedIsAhead(log, min, checkpoint);
    var events := Fetched(log, min);
    forall e | e in events ensures Wanted(NextPosition(checkpoint), [])(e) {
      var i :| 0 <= i < |events| && events[i] == e;
      assert i > 0 ==> events[0].globalPosition < events[i].globalPosition;
    }
    FilterAll(events, Wanted(NextPosition(checkpoint), []));
  }

  /** Whether a projection that needs the first fetched event handles at least one fetched event. */
  ghost predicate MakesProgress(name: string, events: seq<StoredEvent>, fails: Failures)
  {
    exists i :: 0 <= i < |events| && Succeeds(name, events[i], fails)
  }

  /** After one batch a projection is past the first fetched event if and only if
      it was before, or it handled something in this batch. */
  lemma ProjectionPassesFirst<T>(p: Projection<T>, s: PState<T>, log: seq<StoredEvent>, min: nat, fails: Failures)
    requires Ascending(log) && Fetched(log, min) != []
    ensures var events := Fetched(log, min);
      var s' := DeliverAll(p, s, Relevant(events, s.checkpoint), fails);
      events[0].globalPosition < NextPosition(s'.checkpoint) <==>
        events[0].globalPosition < NextPosition(s.checkpoint) || MakesProgress(p.name, events, fails)
  {
    var events := Fetched(log, min);
    FetchedIsAhead(log, min, s.checkpoint);
    var relevant := Relevant(events, s.checkpoint);
    CheckpointStaysBelow(p, s, relevant, fails);
    assert events[0].globalPosition >= 1;
    if NextPosition(s.checkpoint) <= events[0].globalPosition {
      NeedsFirstNeedsAll(log, min, s.checkpoint);
      PassedOverOnlyBehindSuccess(p, s, events, fails, 0);
    }
  }

  /** A later slowest position means fewer events behind, exactly when it is past the first fetched event. */
  lemma BehindShrinksPastFirst(log: seq<StoredEvent>, min: nat, min': nat)
    requires Ascending(log) && Fetched(log, min) != []
    ensures min <= min' ==>
      (|Matching(log, min', [])| < |Matching(log, min, [])| <==> Fetched(log, min)[0].globalPosition < min')
  {
    var rows := Matching(log, min, []);
    var first := rows[0];
    PageBoundary(log, min, [], 1);
    if min <= min' && first.globalPosition < min' {
      MatchingNarrows(log, first.globalPosition + 1, min');
    } else if min <= min' {
      forall e | e in log ensures Wanted(min, [])(e) == Wanted(min', [])(e) {
        if Wanted(min, [])(e) {
          FilterMembers(log, Wanted(min, []));
          assert e in rows;
          MatchesStayAscending(log, Wanted(min, []));
          var i :| 0 <= i < |rows| && rows[i] == e;
          assert i > 0 ==> rows[0].globalPosition < rows[i].globalPosition;
        }
      }
      FilterAgree(log, Wanted(min, []), Wanted(min', []));
    }
  }

  lemma {:induction false} MatchingNarrows(log: seq<StoredEvent>, from: nat, from': nat)
    requires from <= from'
    ensures |Matching(log, from', [])| <= |Matching(log, from, [])|
  {
    if log != [] {
      MatchingNarrows(log[..|log| - 1], from, from');
    }
  }

  /** The slowest position is past an event exactly when every projection is. */
  lemma MinPassesWhenAllPass(names: seq<string>, checkpoints: map<string, nat>, position: nat)
    requires names != []
    ensures position < MinPosition(names, checkpoints) <==>
      forall i | 0 <= i < |names| :: position < NextPosition(CheckpointOf(checkpoints, names[i]))
  {
    MinPositionIsLeast(names, checkpoints, 0);
    forall i | 0 <= i < |names|
      ensures MinPosition(names, checkpoints) <= NextPosition(CheckpointOf(checkpoints, names[i]))
    {
      MinPositionIsLeast(names, checkpoints, i);
    }
  }

  /** The checkpoint a projection holds after one batch. */
  function CheckpointAfter<T>(p: Projection<T>, s: PState<T>, events: seq<StoredEvent>, fails: Failures): nat
  {
    DeliverAll(p, s, Relevant(events, s.checkpoint), fails).checkpoint
  }

  /** No projection falls back in a batch, so neither does the slowest position. */
  lemma MinNeverFallsBack(names: seq<string>, cps: map<string, nat>, cps': map<string, nat>)
    requires names != []
    requires forall i | 0 <= i < |names| :: CheckpointOf(cps, names[i]) <= CheckpointOf(cps', names[i])
    ensures MinPosition(names, cps) <= MinPosition(names, cps')
  {
    MinPositionIsLeast(names, cps', 0);
    var j :| 0 <= j < |names| && MinPosition(names, cps') == NextPosition(CheckpointOf(cps', names[j]));
    MinPositionIsLeast(names, cps, j);
  }

  /** One projection's part of BatchProgressExactly. */
  ghost predicate Passes(name: string, checkpoint: nat, events: seq<StoredEvent>, fails: Failures)
    requires events != []
  {
    events[0].globalPosition < NextPosition(checkpoint) || MakesProgress(name, events, fails)
  }

  /** Progress, exactly: a non-empty batch leaves fewer events behind the slowest projection if and only if every
      projection still needing the first fetched event handles some fetched event. Without failures that is
      always so; with them one projection whose fetched events all fail holds every projection back. */
  lemma BatchProgressExactly<T>(ps: seq<Projection<T>>, names: seq<string>, states: seq<PState<T>>,
                                cps: map<string, nat>, cps': map<string, nat>, log: seq<StoredEvent>, fails: Failures)
    requires Ascending(log) && |names| == |ps| == |states| > 0
    requires forall i | 0 <= i < |ps| :: ps[i].name == names[i] && states[i].checkpoint == CheckpointOf(cps, names[i])
    requires Fetched(log, MinPosition(names, cps)) != []
    requires var events := Fetched(log, MinPosition(names, cps));
      forall i | 0 <= i < |ps| :: CheckpointOf(cps', names[i]) == CheckpointAfter(ps[i], states[i], events, fails)
    ensures var events := Fetched(log, MinPosition(names, cps));
      Behind(log, names, cps') < Behind(log, names, cps) <==>
      forall i | 0 <= i < |ps| :: Passes(names[i], states[i].checkpoint, events, fails)
  {
    var min, min' := MinPosition(names, cps), MinPosition(names, cps');
    var events := Fetched(log, min);
    forall i | 0 <= i < |ps|
      ensures CheckpointOf(cps, names[i]) <= CheckpointOf(cps', names[i])
      ensures events[0].globalPosition < NextPosition(CheckpointOf(cps', names[i])) <==>
        Passes(names[i], states[i].checkpoint, events, fails)
    {
      FetchedIsAhead(log, min, states[i].checkpoint);
      CheckpointStaysBelow(ps[i], states[i], Relevant(events, states[i].checkpoint), fails);
      ProjectionPassesFirst(ps[i], states[i], log, min, fails);
    }
    MinNeverFallsBack(names, cps, cps');
    MinPassesWhenAllPass(names, cps', events[0].globalPosition);
    BehindShrinksPastFirst(log, min, min');
  }
}
