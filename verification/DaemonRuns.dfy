/** The projection daemon as a machine of small steps: log growth, batch loads, attempts at delivery, checkpoint
    writes, crashes between any two of them, and rebuilds while the daemon runs. */
module DaemonRuns {
  import opened Events
  import opened Sequences
  import opened EventLog
  import opened Store
  import opened Daemon
  import opened LogSegments

  /** One projection: its table, checkpoint and error rows; the positions its handler completed since the table
      was last truncated and ever; the loaded events still to deliver, how many attempts at the first of them have
      failed, and whether it has been handled but not yet checkpointed. */
  datatype Worker<T> = Worker(
    table: T,
    checkpoint: nat,
    errors: set<nat>,
    handled: set<nat>,
    everHandled: set<nat>,
    pending: seq<StoredEvent>,
    failed: nat,
    inHand: bool)

  datatype Node<T> = Node(log: seq<StoredEvent>, workers: seq<Worker<T>>)

  datatype Step =
    | Grow(rows: seq<StoredEvent>)
    | BeginBatch(min: nat)
    | DeliverTo(worker: nat, fails: bool)
    | Checkpoint(worker: nat)
    | Crash
    | Rebuild(worker: nat)

  /** What a step does to one projection; a delivery is one attempt, and the third that fails leaves an error row. */
  datatype Action = Stay | Load(min: nat) | Try(fails: bool) | Save | Stop | Truncate

  function Act<T>(p: Projection<T>, log: seq<StoredEvent>, w: Worker<T>, a: Action): Worker<T>
    requires a.Try? || a.Save? ==> w.pending != []
  {
    match a
    case Stay => w
    case Load(min) => w.(pending := Relevant(Fetched(log, min), w.checkpoint), failed := 0)
    case Try(fails) =>
      var e, g := w.pending[0], w.pending[0].globalPosition;
      if !fails then
        w.(table := p.handle(w.table, e), failed := 0, inHand := true,
           handled := w.handled + {g}, everHandled := w.everHandled + {g})
      else if w.failed + 1 < MAX_RETRIES then
        w.(table := p.partial(w.table, e), failed := w.failed + 1)
      else
        w.(table := p.partial(w.table, e), failed := 0, errors := w.errors + {g}, pending := w.pending[1..])
    case Save => w.(checkpoint := w.pending[0].globalPosition, pending := w.pending[1..], inHand := false)
    case Stop => w.(pending := [], failed := 0, inHand := false)
    case Truncate => w.(table := p.empty, checkpoint := 0, handled := {})
  }

  /** Projections are driven one after the other, in order. */
  predicate HasTurn<T>(n: Node<T>, i: nat)
  {
    && i < |n.workers|
    && n.workers[i].pending != []
    && forall j | 0 <= j < i :: n.workers[j].pending == []
  }

  /** A batch starts when the last one is done, from a position no projection is behind. */
  predicate CanBegin<T>(n: Node<T>, min: nat)
  {
    forall i | 0 <= i < |n.workers| :: n.workers[i].pending == [] && min <= NextPosition(n.workers[i].checkpoint)
  }

  function ActionFor<T>(n: Node<T>, step: Step, i: nat): (a: Action)
    requires i < |n.workers|
    ensures a.Try? ==> n.workers[i].pending != [] && !n.workers[i].inHand
    ensures a.Save? ==> n.workers[i].pending != [] && n.workers[i].inHand
    ensures a.Load? ==> n.workers[i].pending == [] && a.min <= NextPosition(n.workers[i].checkpoint)
    ensures a.Truncate? ==> step == Rebuild(i)
  {
    match step
    case Grow(_) => Stay
    case BeginBatch(min) => if CanBegin(n, min) then Load(min) else Stay
    case DeliverTo(j, fails) => if i == j && HasTurn(n, i) && !n.workers[i].inHand then Try(fails) else Stay
    case Checkpoint(j) => if i == j && HasTurn(n, i) && n.workers[i].inHand then Save else Stay
    case Crash => Stop
    case Rebuild(j) => if i == j then Truncate else Stay
  }

  /** Global positions become visible in ascending order; other growth does not happen. */
  ghost function LogAfter(log: seq<StoredEvent>, step: Step): seq<StoredEvent>
  {
    if step.Grow? && Ascending(log + step.rows) then log + step.rows else log
  }

  /** One step of the machine; a step whose guard fails changes nothing. */
  ghost function Do<T>(ps: seq<Projection<T>>, n: Node<T>, step: Step): Node<T>
    requires |ps| == |n.workers|
  {
    Node(LogAfter(n.log, step),
         seq(|ps|, i requires 0 <= i < |ps| => Act(ps[i], n.log, n.workers[i], ActionFor(n, step, i))))
  }

  function Start<T>(ps: seq<Projection<T>>, log: seq<StoredEvent>): Node<T>
  {
    Node(log, seq(|ps|, i requires 0 <= i < |ps| => Worker(ps[i].empty, 0, {}, {}, {}, [], 0, false)))
  }

  ghost function Run<T>(ps: seq<Projection<T>>, n: Node<T>, steps: seq<Step>): (r: Node<T>)
    requires |ps| == |n.workers|
    ensures |ps| == |r.workers|
  {
    if steps == [] then n else Do(ps, Run(ps, n, steps[..|steps| - 1]), steps[|steps| - 1])
  }

  lemma {:induction false} RunAppend<T>(ps: seq<Projection<T>>, n: Node<T>, xs: seq<Step>, ys: seq<Step>)
    requires |ps| == |n.workers|
    ensures Run(ps, n, xs + ys) == Run(ps, Run(ps, n, xs), ys)
  {
    if ys == [] {
      assert xs + ys == xs;
    } else {
      var front := ys[..|ys| - 1];
      assert (xs + ys)[..|xs + ys| - 1] == xs + front;
      RunAppend(ps, n, xs, front);
    }
  }

  // ---- no gaps ----

  function Done<T>(w: Worker<T>, ever: bool): set<nat>
  {
    (if ever then w.everHandled else w.handled) + w.errors
  }

  /** Every event at or below the checkpoint was handled or has an error row. */
  ghost predicate NoGap<T>(log: seq<StoredEvent>, w: Worker<T>, ever: bool)
  {
    forall j | 0 <= j < |log| && log[j].globalPosition <= w.checkpoint :: log[j].globalPosition in Done(w, ever)
  }

  ghost predicate DoneBelow(log: seq<StoredEvent>, n: nat, done: set<nat>)
  {
    n <= |log| && forall j | 0 <= j < n :: log[j].globalPosition in done
  }

  /** The pending events are a run of the log past the checkpoint, and everything before them is done. */
  ghost predicate Queued<T>(log: seq<StoredEvent>, w: Worker<T>, ever: bool)
  {
    w.pending != [] ==>
      var m := Rank(log, w.pending[0].globalPosition);
      && m + |w.pending| <= |log|
      && w.pending == log[m..m + |w.pending|]
      && w.checkpoint < w.pending[0].globalPosition
      && DoneBelow(log, m, Done(w, ever))
  }

  ghost predicate Tidy<T>(log: seq<StoredEvent>, w: Worker<T>, ever: bool)
  {
    && NoGap(log, w, ever)
    && Queued(log, w, ever)
    && (w.inHand ==> w.pending != [] && w.pending[0].globalPosition in Done(w, ever))
  }

  /** A rebuild forgets what was handled, while the batch in flight keeps its pending events and will move the
      checkpoint past them. So it loses nothing exactly when nothing handled lies before what will be delivered. */
  ghost predicate RebuildSafe<T>(log: seq<StoredEvent>, w: Worker<T>)
  {
    w.pending != [] ==>
      DoneBelow(log, Rank(log, w.pending[0].globalPosition) + (if w.inHand then 1 else 0), w.errors)
  }

  /** Popping the first pending event keeps the queue a run of the log. */
  lemma PopKeepsRun(log: seq<StoredEvent>, pending: seq<StoredEvent>, m: nat)
    requires Ascending(log) && |pending| > 1
    requires m + |pending| <= |log| && pending == log[m..m + |pending|]
    ensures Rank(log, pending[1].globalPosition) == m + 1
    ensures pending[1..] == log[m + 1..m + |pending|]
  {
    assert pending[1] == log[m + 1];
    RankIs(log, log[m + 1].globalPosition, m + 1);
  }

  lemma LoadKeepsTidy<T>(log: seq<StoredEvent>, w: Worker<T>, min: nat, ever: bool)
    requires Ascending(log) && Tidy(log, w, ever) && w.pending == []
    requires min <= NextPosition(w.checkpoint)
    ensures Tidy(log, w.(pending := Relevant(Fetched(log, min), w.checkpoint), failed := 0), ever)
  {
    LoadIsSegment(log, min, w.checkpoint);
    var n := Rank(log, w.checkpoint + 1);
    var pending := Relevant(Fetched(log, min), w.checkpoint);
    RankSplits(log, w.checkpoint + 1);
    if pending != [] {
      assert pending[0] == log[n];
      RankIs(log, pending[0].globalPosition, n);
    }
  }

  lemma TryKeepsTidy<T>(p: Projection<T>, log: seq<StoredEvent>, w: Worker<T>, fails: bool, ever: bool)
    requires Ascending(log) && Tidy(log, w, ever) && w.pending != [] && !w.inHand
    ensures Tidy(log, Act(p, log, w, Try(fails)), ever)
  {
    var w' := Act(p, log, w, Try(fails));
    assert Done(w, ever) <= Done(w', ever);
    if w'.pending != w.pending && |w.pending| > 1 {
      var m := Rank(log, w.pending[0].globalPosition);
      PopKeepsRun(log, w.pending, m);
      assert log[m] == w.pending[0] && log[m + 1] == w.pending[1];
    }
  }

  lemma SaveKeepsTidy<T>(p: Projection<T>, log: seq<StoredEvent>, w: Worker<T>, ever: bool)
    requires Ascending(log) && Tidy(log, w, ever) && w.pending != [] && w.inHand
    ensures Tidy(log, Act(p, log, w, Save), ever)
  {
    var w' := Act(p, log, w, Save);
    var m := Rank(log, w.pending[0].globalPosition);
    assert log[m] == w.pending[0];
    RankSplits(log, w.pending[0].globalPosition);
    forall j | 0 <= j < |log| && log[j].globalPosition <= w'.checkpoint
      ensures log[j].globalPosition in Done(w', ever)
    {
      assert j <= m;
    }
    if |w.pending| > 1 {
      PopKeepsRun(log, w.pending, m);
      assert log[m + 1] == w.pending[1];
    }
  }

  lemma TruncateKeepsTidy<T>(p: Projection<T>, log: seq<StoredEvent>, w: Worker<T>, ever: bool)
    requires Ascending(log) && Tidy(log, w, ever)
    requires ever || RebuildSafe(log, w)
    ensures Tidy(log, Act(p, log, w, Truncate), ever)
  {
    if w.pending != [] {
      var m := Rank(log, w.pending[0].globalPosition);
      assert log[m] == w.pending[0];
    }
  }

  lemma ActKeepsTidy<T>(p: Projection<T>, n: Node<T>, step: Step, i: nat, ever: bool)
    requires Ascending(n.log) && i < |n.workers| && Tidy(n.log, n.workers[i], ever)
    requires step == Rebuild(i) ==> ever || RebuildSafe(n.log, n.workers[i])
    ensures Tidy(n.log, Act(p, n.log, n.workers[i], ActionFor(n, step, i)), ever)
  {
    var w := n.workers[i];
    match ActionFor(n, step, i)
    case Stay =>
    case Load(min) => LoadKeepsTidy(n.log, w, min, ever);
    case Try(fails) => TryKeepsTidy(p, n.log, w, fails, ever);
    case Save => SaveKeepsTidy(p, n.log, w, ever);
    case Stop =>
    case Truncate => TruncateKeepsTidy(p, n.log, w, ever);
  }

  lemma GrowthKeepsTidy<T>(log: seq<StoredEvent>, log': seq<StoredEvent>, w: Worker<T>, ever: bool, bound: nat)
    requires Ascending(log') && log <= log' && Tidy(log, w, ever)
    requires w.checkpoint <= bound && forall j | |log| <= j < |log'| :: bound < log'[j].globalPosition
    ensures Tidy(log', w, ever)
  {
    if w.pending != [] {
      var m := Rank(log, w.pending[0].globalPosition);
      assert log[m] == w.pending[0];
      RankGrows(log, log', m);
    }
  }

  /** The checkpoint is 0 or the position of an event of the log. */
  ghost predicate Anchored<T>(log: seq<StoredEvent>, w: Worker<T>)
  {
    w.checkpoint == 0 || exists j :: 0 <= j < |log| && log[j].globalPosition == w.checkpoint
  }

  ghost predicate Safe<T>(n: Node<T>, ever: bool)
  {
    && Ascending(n.log)
    && forall i | 0 <= i < |n.workers| :: Tidy(n.log, n.workers[i], ever) && Anchored(n.log, n.workers[i])
  }

  lemma ActKeepsAnchored<T>(p: Projection<T>, n: Node<T>, step: Step, i: nat, ever: bool)
    requires i < |n.workers| && Queued(n.log, n.workers[i], ever) && Anchored(n.log, n.workers[i])
    ensures Anchored(n.log, Act(p, n.log, n.workers[i], ActionFor(n, step, i)))
  {
    var w := n.workers[i];
    if w.pending != [] {
      var m := Rank(n.log, w.pending[0].globalPosition);
      assert n.log[m] == w.pending[0];
    }
  }

  lemma StepKeepsSafe<T>(ps: seq<Projection<T>>, n: Node<T>, step: Step, ever: bool)
    requires |ps| == |n.workers| && Safe(n, ever)
    requires step.Rebuild? && step.worker < |ps| ==> ever || RebuildSafe(n.log, n.workers[step.worker])
    ensures Safe(Do(ps, n, step), ever)
  {
    var n' := Do(ps, n, step);
    forall i | 0 <= i < |ps| ensures Tidy(n'.log, n'.workers[i], ever) && Anchored(n'.log, n'.workers[i]) {
      ActKeepsTidy(ps[i], n, step, i, ever);
      ActKeepsAnchored(ps[i], n, step, i, ever);
      if step.Grow? {
        AnchoredGrows(n.log, n'.log, n.workers[i]);
        GrowthKeepsTidy(n.log, n'.log, n.workers[i], ever, n.workers[i].checkpoint);
      }
    }
  }

  lemma AnchoredGrows<T>(log: seq<StoredEvent>, log': seq<StoredEvent>, w: Worker<T>)
    requires Ascending(log') && log <= log' && Anchored(log, w)
    ensures Anchored(log', w)
    ensures forall j | |log| <= j < |log'| :: w.checkpoint < log'[j].globalPosition
  {
    if w.checkpoint != 0 {
      var j :| 0 <= j < |log| && log[j].globalPosition == w.checkpoint;
      assert log'[j] == log[j];
    }
  }

  /** The k-th step, if it rebuilds projection i, happens at a safe moment. */
  ghost predicate SafeAt<T>(ps: seq<Projection<T>>, n: Node<T>, steps: seq<Step>, i: nat, k: nat)
    requires |ps| == |n.workers| && i < |ps| && k < |steps|
  {
    steps[k] == Rebuild(i) ==>
      var before := Run(ps, n, steps[..k]);
      RebuildSafe(before.log, before.workers[i])
  }

  ghost predicate RebuildsSafe<T>(ps: seq<Projection<T>>, n: Node<T>, steps: seq<Step>, i: nat)
    requires |ps| == |n.workers| && i < |ps|
  {
    forall k: nat | k < |steps| :: SafeAt(ps, n, steps, i, k)
  }

  lemma SafeAtPrefix<T>(ps: seq<Projection<T>>, n: Node<T>, steps: seq<Step>, whole: seq<Step>, i: nat, k: nat)
    requires |ps| == |n.workers| && i < |ps| && k < |steps| && steps <= whole
    ensures SafeAt(ps, n, whole, i, k) == SafeAt(ps, n, steps, i, k)
  {
    assert whole[..k] == steps[..k];
  }

  lemma RebuildsSafePrefix<T>(ps: seq<Projection<T>>, n: Node<T>, steps: seq<Step>, whole: seq<Step>, i: nat)
    requires |ps| == |n.workers| && i < |ps| && steps <= whole && RebuildsSafe(ps, n, whole, i)
    ensures RebuildsSafe(ps, n, steps, i)
  {
    forall k: nat | k < |steps| ensures SafeAt(ps, n, steps, i, k) {
      SafeAtPrefix(ps, n, steps, whole, i, k);
    }
  }

  /** Every rebuild of the run, of whatever projection, happened at a safe moment. */
  ghost predicate AllRebuildsSafe<T>(ps: seq<Projection<T>>, n: Node<T>, steps: seq<Step>)
    requires |ps| == |n.workers|
  {
    forall i: nat | i < |ps| :: RebuildsSafe(ps, n, steps, i)
  }

  /** No gap, over every run from every state the daemon can be in: whatever fails, crashes or is rebuilt, each
      event at or below a checkpoint was handled at some time or has an error row; and if every rebuild came at
      a safe moment, it was handled since the table was last emptied or has an error row. */
  lemma {:induction false} NoGapEver<T>(ps: seq<Projection<T>>, n: Node<T>, steps: seq<Step>, ever: bool)
    requires |ps| == |n.workers| && Safe(n, ever)
    requires ever || AllRebuildsSafe(ps, n, steps)
    ensures Safe(Run(ps, n, steps), ever)
    ensures forall i | 0 <= i < |ps| :: NoGap(Run(ps, n, steps).log, Run(ps, n, steps).workers[i], ever)
  {
    if steps != [] {
      var front, step := steps[..|steps| - 1], steps[|steps| - 1];
      if !ever {
        forall i: nat | i < |ps| ensures RebuildsSafe(ps, n, front, i) {
          RebuildsSafePrefix(ps, n, front, steps, i);
        }
        if step.Rebuild? && step.worker < |ps| {
          assert RebuildsSafe(ps, n, steps, step.worker);
          assert SafeAt(ps, n, steps, step.worker, |front|);
          assert steps[..|front|] == front;
        }
      }
      NoGapEver(ps, n, front, ever);
      StepKeepsSafe(ps, Run(ps, n, front), step, ever);
    }
  }

  lemma StartIsSafe<T>(ps: seq<Projection<T>>, log: seq<StoredEvent>, ever: bool)
    requires Ascending(log)
    ensures Safe(Start(ps, log), ever)
  {
  }

  /** A checkpoint moves back only when its own projection is rebuilt. */
  lemma CheckpointsOnlyRise<T>(ps: seq<Projection<T>>, n: Node<T>, step: Step, i: nat)
    requires |ps| == |n.workers| && Safe(n, true) && i < |ps|
    ensures step != Rebuild(i) ==> n.workers[i].checkpoint <= Do(ps, n, step).workers[i].checkpoint
  {
  }

  // ---- when a rebuild loses events ----

  /** The checkpoint a projection reaches when everything pending is delivered. */
  function End(checkpoint: nat, pending: seq<StoredEvent>): nat
  {
    if pending == [] then checkpoint else pending[|pending| - 1].globalPosition
  }

  /** Deliveries that succeed and checkpoint writes, nothing else. */
  ghost predicate Driving(steps: seq<Step>)
  {
    forall k | 0 <= k < |steps| :: steps[k].Checkpoint? || (steps[k].DeliverTo? && !steps[k].fails)
  }

  lemma DrainOne<T>(ps: seq<Projection<T>>, n: Node<T>, i: nat) returns (steps: seq<Step>)
    requires |ps| == |n.workers| && i < |ps|
    requires forall j | 0 <= j < i :: n.workers[j].pending == []
    ensures var n' := Run(ps, n, steps);
      && n'.log == n.log
      && n'.workers[i].pending == [] && n'.workers[i].checkpoint == End(n.workers[i].checkpoint, n.workers[i].pending)
      && forall j | 0 <= j < |ps| && j != i :: n'.workers[j] == n.workers[j]
    ensures Driving(steps)
    decreases |n.workers[i].pending|, !n.workers[i].inHand
  {
    if n.workers[i].pending == [] {
      steps := [];
    } else {
      var step := if n.workers[i].inHand then Checkpoint(i) else DeliverTo(i, false);
      var mid := Do(ps, n, step);
      assert HasTurn(n, i);
      var rest := DrainOne(ps, mid, i);
      steps := [step] + rest;
      assert [step][..0] == [];
      assert Run(ps, n, [step]) == mid;
      RunAppend(ps, n, [step], rest);
    }
  }

  /** Without failures the projections before one can always be driven to the end of the batch. */
  lemma {:induction false} DrainBefore<T>(ps: seq<Projection<T>>, n: Node<T>, i: nat) returns (steps: seq<Step>)
    requires |ps| == |n.workers| && i <= |ps|
    ensures var n' := Run(ps, n, steps);
      && n'.log == n.log
      && (forall j | 0 <= j < i :: n'.workers[j].pending == [])
      && (forall j | 0 <= j < i :: n'.workers[j].checkpoint == End(n.workers[j].checkpoint, n.workers[j].pending))
      && (forall j | i <= j < |ps| :: n'.workers[j] == n.workers[j])
    ensures Driving(steps)
  {
    if i == 0 {
      steps := [];
    } else {
      var first := DrainBefore(ps, n, i - 1);
      var mid := Run(ps, n, first);
      var last := DrainOne(ps, mid, i - 1);
      steps := first + last;
      RunAppend(ps, n, first, last);
    }
  }

  /** Whether an event at or below the checkpoint is neither in the table nor reported as an error. */
  ghost predicate Loses<T>(ps: seq<Projection<T>>, n: Node<T>, steps: seq<Step>, i: nat)
    requires |ps| == |n.workers| && i < |ps|
  {
    !NoGap(Run(ps, n, steps).log, Run(ps, n, steps).workers[i], false)
  }

  /** The steps that finish the delivery of the first pending event. */
  lemma FinishFirst<T>(ps: seq<Projection<T>>, n: Node<T>, i: nat) returns (steps: seq<Step>)
    requires |ps| == |n.workers| && HasTurn(n, i)
    ensures var w, w' := n.workers[i], Run(ps, n, steps).workers[i];
      && Run(ps, n, steps).log == n.log
      && w'.checkpoint == w.pending[0].globalPosition
      && w'.errors == w.errors
      && w'.handled == w.handled + (if w.inHand then {} else {w.pending[0].globalPosition})
    ensures forall k | 0 <= k < |steps| :: !steps[k].Rebuild?
  {
    var save := Checkpoint(i);
    if n.workers[i].inHand {
      steps := [save];
      assert [save][..0] == [];
      assert Run(ps, n, [save]) == Do(ps, n, save);
    } else {
      var try := DeliverTo(i, false);
      var mid := Do(ps, n, try);
      steps := [try, save];
      assert [try, save][..1] == [try] && [try][..0] == [];
      assert Run(ps, n, [try]) == mid;
      assert HasTurn(mid, i);
      assert Run(ps, n, steps) == Do(ps, mid, save);
    }
  }

  /** After an unsafe rebuild, delivering the first pending event leaves an earlier one forgotten. */
  lemma ForgottenIsGap<T>(log: seq<StoredEvent>, w: Worker<T>, w': Worker<T>)
    requires Ascending(log) && Queued(log, w, false) && !RebuildSafe(log, w)
    requires w'.checkpoint == w.pending[0].globalPosition && w'.errors == w.errors
    requires w'.handled == if w.inHand then {} else {w.pending[0].globalPosition}
    ensures !NoGap(log, w', false)
  {
    var g := w.pending[0].globalPosition;
    var m := Rank(log, g);
    assert log[m] == w.pending[0];
    RankSplits(log, g);
    var j :| 0 <= j < m + (if w.inHand then 1 else 0) && log[j].globalPosition !in w.errors;
    assert log[j].globalPosition !in Done(w', false);
  }

  /** The unsafe rebuild: some continuation without another rebuild leaves a gap. */
  lemma UnsafeRebuildLoses<T>(ps: seq<Projection<T>>, n: Node<T>, i: nat) returns (steps: seq<Step>)
    requires |ps| == |n.workers| && i < |ps| && Safe(n, false)
    requires !RebuildSafe(n.log, n.workers[i])
    ensures Loses(ps, Do(ps, n, Rebuild(i)), steps, i)
    ensures forall k | 0 <= k < |steps| :: !steps[k].Rebuild?
  {
    var after := Do(ps, n, Rebuild(i));
    var first := DrainBefore(ps, after, i);
    var mid := Run(ps, after, first);
    var last := FinishFirst(ps, mid, i);
    steps := first + last;
    RunAppend(ps, after, first, last);
    ForgottenIsGap(n.log, n.workers[i], Run(ps, mid, last).workers[i]);
  }

  /** A rebuild while the daemon runs, exactly: no continuation without another rebuild loses an event if and only
      if the projection has nothing in flight, or every event before what is in flight failed and has its error row. */
  lemma RebuildSafeExactly<T>(ps: seq<Projection<T>>, n: Node<T>, i: nat)
    requires |ps| == |n.workers| && i < |ps| && Safe(n, false)
    ensures RebuildSafe(n.log, n.workers[i]) <==>
      forall steps: seq<Step> | (forall k | 0 <= k < |steps| :: !steps[k].Rebuild?) ::
        !Loses(ps, Do(ps, n, Rebuild(i)), steps, i)
  {
    var after := Do(ps, n, Rebuild(i));
    if RebuildSafe(n.log, n.workers[i]) {
      StepKeepsSafe(ps, n, Rebuild(i), false);
      forall steps: seq<Step> | forall k | 0 <= k < |steps| :: !steps[k].Rebuild?
        ensures !Loses(ps, after, steps, i)
      {
        NoGapEver(ps, after, steps, false);
      }
    } else {
      var steps := UnsafeRebuildLoses(ps, n, i);
      assert Loses(ps, after, steps, i);
    }
  }

  // ---- convergence without failures ----

  ghost predicate Idempotent<T(!new)>(p: Projection<T>)
  {
    forall t, e :: p.handle(p.handle(t, e), e) == p.handle(t, e)
  }

  function FoldOf<T>(p: Projection<T>, log: seq<StoredEvent>): T
  {
    Fold(p.handle, p.empty, log)
  }

  /** The table holds the fold of the events at or below the checkpoint, or of one more: the event that was handled but
      not checkpointed, by this daemon or by the one that crashed before it. Without crashes (strict) only this daemon
      can have handled it. */
  ghost predicate Exact<T>(p: Projection<T>, log: seq<StoredEvent>, w: Worker<T>, strict: bool)
  {
    var n := Rank(log, w.checkpoint + 1);
    && (w.pending != [] ==> n + |w.pending| <= |log| && w.pending == log[n..n + |w.pending|])
    && (w.inHand ==> w.pending != [] && w.table == FoldOf(p, log[..n + 1]))
    && (w.table == FoldOf(p, log[..n]) || (n < |log| && w.table == FoldOf(p, log[..n + 1])))
    && (strict && !w.inHand ==> w.table == FoldOf(p, log[..n]))
    && w.errors == {}
  }

  lemma FoldNext<T>(p: Projection<T>, log: seq<StoredEvent>, n: nat)
    requires n < |log|
    ensures FoldOf(p, log[..n + 1]) == p.handle(FoldOf(p, log[..n]), log[n])
  {
    assert log[..n + 1] == log[..n] + [log[n]];
    FoldSnoc(p.handle, p.empty, log[..n], log[n]);
  }

  lemma LoadKeepsExact<T>(p: Projection<T>, log: seq<StoredEvent>, w: Worker<T>, min: nat, strict: bool)
    requires Ascending(log) && Exact(p, log, w, strict) && w.pending == [] && min <= NextPosition(w.checkpoint)
    ensures Exact(p, log, Act(p, log, w, Load(min)), strict)
  {
    LoadIsSegment(log, min, w.checkpoint);
  }

  lemma TryKeepsExact<T(!new)>(p: Projection<T>, log: seq<StoredEvent>, w: Worker<T>, strict: bool)
    requires (strict || Idempotent(p)) && Exact(p, log, w, strict) && w.pending != [] && !w.inHand
    ensures Exact(p, log, Act(p, log, w, Try(false)), strict)
  {
    var n := Rank(log, w.checkpoint + 1);
    assert log[n] == w.pending[0];
    FoldNext(p, log, n);
    assert p.handle(w.table, log[n]) == FoldOf(p, log[..n + 1]);
  }

  lemma SaveKeepsExact<T>(p: Projection<T>, log: seq<StoredEvent>, w: Worker<T>, strict: bool)
    requires Ascending(log) && Exact(p, log, w, strict) && w.pending != [] && w.inHand
    ensures Exact(p, log, Act(p, log, w, Save), strict)
  {
    var n := Rank(log, w.checkpoint + 1);
    assert log[n] == w.pending[0];
    RankIs(log, log[n].globalPosition + 1, n + 1);
  }

  lemma TruncateKeepsExact<T>(p: Projection<T>, log: seq<StoredEvent>, w: Worker<T>, strict: bool)
    requires Ascending(log) && Exact(p, log, w, strict) && RebuildSafe(log, w)
    ensures Exact(p, log, Act(p, log, w, Truncate), strict)
  {
    RankOfZero(log);
    if w.pending != [] {
      var n := Rank(log, w.checkpoint + 1);
      assert log[n] == w.pending[0];
      RankIs(log, log[n].globalPosition, n);
      var first := log[0];
      assert n == 0;
    }
  }

  lemma ActKeepsExact<T(!new)>(p: Projection<T>, n: Node<T>, step: Step, i: nat, strict: bool)
    requires strict || Idempotent(p)
    requires Ascending(n.log) && i < |n.workers| && Exact(p, n.log, n.workers[i], strict)
    requires step.DeliverTo? && step.worker == i ==> !step.fails
    requires step == Rebuild(i) ==> RebuildSafe(n.log, n.workers[i])
    requires step.Crash? ==> !strict
    ensures Exact(p, n.log, Act(p, n.log, n.workers[i], ActionFor(n, step, i)), strict)
  {
    var w := n.workers[i];
    match ActionFor(n, step, i)
    case Stay =>
    case Load(min) => LoadKeepsExact(p, n.log, w, min, strict);
    case Try(fails) => TryKeepsExact(p, n.log, w, strict);
    case Save => SaveKeepsExact(p, n.log, w, strict);
    case Stop =>
    case Truncate => TruncateKeepsExact(p, n.log, w, strict);
  }

  lemma RankStays<T>(log: seq<StoredEvent>, log': seq<StoredEvent>, w: Worker<T>)
    requires Ascending(log') && log <= log' && Anchored(log, w)
    ensures Rank(log', w.checkpoint + 1) == Rank(log, w.checkpoint + 1)
  {
    assert Ascending(log);
    AnchoredGrows(log, log', w);
    RankSplits(log, w.checkpoint + 1);
    RankIs(log', w.checkpoint + 1, Rank(log, w.checkpoint + 1));
  }

  lemma GrowthKeepsExact<T>(p: Projection<T>, log: seq<StoredEvent>, log': seq<StoredEvent>, w: Worker<T>, strict: bool)
    requires Ascending(log') && log <= log' && Exact(p, log, w, strict) && Anchored(log, w)
    ensures Exact(p, log', w, strict)
  {
    RankStays(log, log', w);
    var n := Rank(log, w.checkpoint + 1);
    PrefixOfGrown(log, log', n);
    if n < |log| {
      PrefixOfGrown(log, log', n + 1);
    }
    if w.pending != [] {
      assert log'[n..n + |w.pending|] == log[n..n + |w.pending|];
    }
  }

  /** No delivery to projection i fails in the run. */
  ghost predicate Smooth(steps: seq<Step>, i: nat)
  {
    forall k | 0 <= k < |steps| && steps[k].DeliverTo? && steps[k].worker == i :: !steps[k].fails
  }

  ghost predicate NoCrash(steps: seq<Step>)
  {
    forall k | 0 <= k < |steps| :: !steps[k].Crash?
  }

  lemma StepKeepsExact<T(!new)>(ps: seq<Projection<T>>, n: Node<T>, step: Step, i: nat, strict: bool)
    requires |ps| == |n.workers| && i < |ps| && Safe(n, true) && Exact(ps[i], n.log, n.workers[i], strict)
    requires strict || Idempotent(ps[i])
    requires step.DeliverTo? && step.worker == i ==> !step.fails
    requires step == Rebuild(i) ==> RebuildSafe(n.log, n.workers[i])
    requires step.Crash? ==> !strict
    ensures Exact(ps[i], Do(ps, n, step).log, Do(ps, n, step).workers[i], strict)
  {
    var n' := Do(ps, n, step);
    ActKeepsExact(ps[i], n, step, i, strict);
    if step.Grow? {
      GrowthKeepsExact(ps[i], n.log, n'.log, n.workers[i], strict);
    }
  }

  lemma {:induction false} RunKeepsExact<T(!new)>(ps: seq<Projection<T>>, n: Node<T>, steps: seq<Step>, i: nat,
                                                  strict: bool)
    requires |ps| == |n.workers| && i < |ps| && Safe(n, true) && Exact(ps[i], n.log, n.workers[i], strict)
    requires if strict then NoCrash(steps) else Idempotent(ps[i])
    requires Smooth(steps, i) && RebuildsSafe(ps, n, steps, i)
    ensures Exact(ps[i], Run(ps, n, steps).log, Run(ps, n, steps).workers[i], strict)
  {
    if steps != [] {
      var front, step := steps[..|steps| - 1], steps[|steps| - 1];
      RebuildsSafePrefix(ps, n, front, steps, i);
      assert SafeAt(ps, n, steps, i, |front|);
      RunKeepsExact(ps, n, front, i, strict);
      NoGapEver(ps, n, front, true);
      StepKeepsExact(ps, Run(ps, n, front), step, i, strict);
    }
  }

  predicate CaughtUp<T>(log: seq<StoredEvent>, w: Worker<T>)
  {
    log != [] ==> log[|log| - 1].globalPosition <= w.checkpoint
  }

  /** Convergence, one projection at a time, whatever the others do: after any run in which its own handler does
      not fail and its rebuilds are safe, if the handler is idempotent or nothing crashed, the table of a
      caught-up projection is the fold of the whole log from empty. So a rebuild restores the table it emptied. */
  lemma CaughtUpIsFold<T(!new)>(ps: seq<Projection<T>>, log: seq<StoredEvent>, steps: seq<Step>, i: nat)
    requires Ascending(log) && i < |ps|
    requires Idempotent(ps[i]) || NoCrash(steps)
    requires Smooth(steps, i) && RebuildsSafe(ps, Start(ps, log), steps, i)
    ensures var n := Run(ps, Start(ps, log), steps);
      CaughtUp(n.log, n.workers[i]) ==> n.workers[i].table == FoldOf(ps[i], n.log)
  {
    var start := Start(ps, log);
    StartIsSafe(ps, log, true);
    RankOfZero(log);
    RunKeepsExact(ps, start, steps, i, !Idempotent(ps[i]));
    NoGapEver(ps, start, steps, true);
    var n := Run(ps, start, steps);
    var w := n.workers[i];
    if CaughtUp(n.log, w) {
      RankIs(n.log, w.checkpoint + 1, |n.log|);
      assert n.log[..|n.log|] == n.log;
    }
  }

  // ---- draining ----

  /** The steps of a drain: batches driven to their end without failures. */
  ghost predicate Draining(steps: seq<Step>)
  {
    forall k | 0 <= k < |steps| :: !steps[k].Rebuild? && !steps[k].Grow? && !steps[k].Crash?
      && (steps[k].DeliverTo? ==> !steps[k].fails)
  }

  /** One whole batch without failures, from the load to the last checkpoint. */
  lemma WholeBatch<T>(ps: seq<Projection<T>>, n: Node<T>, min: nat,
                      fetched: seq<StoredEvent>) returns (steps: seq<Step>)
    requires |ps| == |n.workers| && CanBegin(n, min) && fetched == Fetched(n.log, min)
    ensures var n' := Run(ps, n, steps);
      && n'.log == n.log
      && (forall i | 0 <= i < |ps| :: n'.workers[i].pending == [])
      && (forall i | 0 <= i < |ps| :: n'.workers[i].checkpoint ==
            End(n.workers[i].checkpoint, Relevant(fetched, n.workers[i].checkpoint)))
    ensures Draining(steps)
  {
    var begin := [BeginBatch(min)];
    var mid := Do(ps, n, BeginBatch(min));
    assert begin[..0] == [];
    assert Run(ps, n, begin) == mid;
    var rest := DrainBefore(ps, mid, |ps|);
    RunAppend(ps, n, begin, rest);
    steps := begin + rest;
  }

  lemma EndOfRun(log: seq<StoredEvent>, n: nat, hi: nat, checkpoint: nat, pending: seq<StoredEvent>)
    requires hi <= |log| && pending == if n < hi then log[n..hi] else []
    ensures End(checkpoint, pending) == if n < hi then log[hi - 1].globalPosition else checkpoint
  {
  }

  lemma RankOfEnd(log: seq<StoredEvent>, r: nat, hi: nat, checkpoint: nat, end: nat)
    requires Ascending(log) && r < hi <= |log| && r <= Rank(log, checkpoint + 1)
    requires end == if Rank(log, checkpoint + 1) < hi then log[hi - 1].globalPosition else checkpoint
    ensures r < Rank(log, end + 1)
  {
    if Rank(log, checkpoint + 1) < hi {
      RankAfterLast(log, hi);
    }
  }

  /** A batch that fetches from a position takes every projection at or past it beyond that position. */
  lemma SegmentPassesRank(log: seq<StoredEvent>, r: nat, hi: nat, checkpoint: nat)
    requires Ascending(log) && r < hi <= |log| && r <= Rank(log, checkpoint + 1)
    ensures r < Rank(log, End(checkpoint, Relevant(log[r..hi], checkpoint)) + 1)
  {
    var pending := Relevant(log[r..hi], checkpoint);
    var end := End(checkpoint, pending);
    assert end == if Rank(log, checkpoint + 1) < hi then log[hi - 1].globalPosition else checkpoint by {
      RelevantOfSegment(log, r, hi, checkpoint);
      EndOfRun(log, Rank(log, checkpoint + 1), hi, checkpoint, pending);
    }
    RankOfEnd(log, r, hi, checkpoint, end);
  }

  lemma SlowestWorker<T>(n: Node<T>, k: nat) returns (s: nat)
    requires 0 < k <= |n.workers|
    ensures s < k && forall i | 0 <= i < k :: n.workers[s].checkpoint <= n.workers[i].checkpoint
  {
    if k == 1 {
      s := 0;
    } else {
      s := SlowestWorker(n, k - 1);
      if n.workers[k - 1].checkpoint < n.workers[s].checkpoint {
        s := k - 1;
      }
    }
  }

  /** No batch is in flight, and s is a slowest projection. */
  ghost predicate Between<T>(n: Node<T>, s: nat)
  {
    && s < |n.workers|
    && (forall i | 0 <= i < |n.workers| :: n.workers[i].pending == [])
    && (forall i | 0 <= i < |n.workers| :: n.workers[s].checkpoint <= n.workers[i].checkpoint)
  }

  lemma BatchFromSlowest<T>(ps: seq<Projection<T>>, n: Node<T>, s: nat, fetched: seq<StoredEvent>)
    returns (steps: seq<Step>, s': nat)
    requires |ps| == |n.workers| && Between(n, s)
    requires fetched == Fetched(n.log, NextPosition(n.workers[s].checkpoint))
    ensures var n' := Run(ps, n, steps);
      && n'.log == n.log && Between(n', s')
      && n'.workers[s'].checkpoint == End(n.workers[s'].checkpoint, Relevant(fetched, n.workers[s'].checkpoint))
    ensures Draining(steps)
  {
    steps := WholeBatch(ps, n, NextPosition(n.workers[s].checkpoint), fetched);
    s' := SlowestWorker(Run(ps, n, steps), |ps|);
  }

  lemma BatchPassesSlowest(log: seq<StoredEvent>, slowest: nat, fetched: seq<StoredEvent>, before: nat, after: nat)
    requires Ascending(log) && slowest <= before && Rank(log, slowest + 1) < |log|
    requires fetched == Fetched(log, NextPosition(slowest)) && after == End(before, Relevant(fetched, before))
    ensures Rank(log, slowest + 1) < Rank(log, after + 1)
  {
    var hi := FetchedFromSlowest(log, slowest);
    RankOrder(log, slowest + 1, before + 1);
    SegmentPassesRank(log, Rank(log, slowest + 1), hi, before);
  }

  lemma OneBatchAdvances<T>(ps: seq<Projection<T>>, n: Node<T>, s: nat) returns (steps: seq<Step>, s': nat)
    requires |ps| == |n.workers| && Ascending(n.log) && Between(n, s)
    requires Rank(n.log, n.workers[s].checkpoint + 1) < |n.log|
    ensures var n' := Run(ps, n, steps);
      && n'.log == n.log && Between(n', s')
      && Rank(n.log, n.workers[s].checkpoint + 1) < Rank(n.log, n'.workers[s'].checkpoint + 1)
    ensures Draining(steps)
  {
    var slowest := n.workers[s].checkpoint;
    var fetched := Fetched(n.log, NextPosition(slowest));
    steps, s' := BatchFromSlowest(ps, n, s, fetched);
    BatchPassesSlowest(n.log, slowest, fetched, n.workers[s'].checkpoint, Run(ps, n, steps).workers[s'].checkpoint);
  }

  /** From any moment between two batches, finitely many batches leave every projection caught up. */
  lemma Drains<T>(ps: seq<Projection<T>>, n: Node<T>, s: nat) returns (steps: seq<Step>)
    requires |ps| == |n.workers| && Ascending(n.log) && Between(n, s)
    ensures var n' := Run(ps, n, steps);
      n'.log == n.log && forall i | 0 <= i < |ps| :: CaughtUp(n.log, n'.workers[i])
    ensures Draining(steps)
    decreases |n.log| - Rank(n.log, n.workers[s].checkpoint + 1)
  {
    RankSplits(n.log, n.workers[s].checkpoint + 1);
    if Rank(n.log, n.workers[s].checkpoint + 1) == |n.log| {
      steps := [];
    } else {
      var first, s' := OneBatchAdvances(ps, n, s);
      var rest := Drains(ps, Run(ps, n, first), s');
      steps := first + rest;
      RunAppend(ps, n, first, rest);
    }
  }

  lemma AppendKeepsRebuildsSafe<T>(ps: seq<Projection<T>>, n: Node<T>, steps: seq<Step>, step: Step, drain: seq<Step>,
                                   i: nat)
    requires |ps| == |n.workers| && i < |ps| && RebuildsSafe(ps, n, steps, i) && Draining(drain)
    requires step == Rebuild(i) ==> RebuildSafe(Run(ps, n, steps).log, Run(ps, n, steps).workers[i])
    ensures RebuildsSafe(ps, n, steps + [step] + drain, i)
  {
    var whole := steps + [step] + drain;
    forall k: nat | k < |whole| ensures SafeAt(ps, n, whole, i, k) {
      if k < |steps| {
        SafeAtPrefix(ps, n, steps, whole, i, k);
      } else if k == |steps| {
        assert whole[..k] == steps;
      }
    }
  }

  lemma DrainAfterRebuild<T>(ps: seq<Projection<T>>, n: Node<T>, i: nat) returns (drain: seq<Step>)
    requires |ps| == |n.workers| && Ascending(n.log) && i < |ps|
    requires forall j | 0 <= j < |ps| :: n.workers[j].pending == []
    ensures var n' := Run(ps, Do(ps, n, Rebuild(i)), drain);
      n'.log == n.log && forall j | 0 <= j < |ps| :: CaughtUp(n.log, n'.workers[j])
    ensures Draining(drain)
  {
    var rebuilt := Do(ps, n, Rebuild(i));
    var s := SlowestWorker(rebuilt, |ps|);
    drain := Drains(ps, rebuilt, s);
  }

  lemma RunThrough<T>(ps: seq<Projection<T>>, n: Node<T>, steps: seq<Step>, step: Step, later: seq<Step>)
    requires |ps| == |n.workers|
    ensures Run(ps, n, steps + [step] + later) == Run(ps, Do(ps, Run(ps, n, steps), step), later)
  {
    assert (steps + [step])[..|steps|] == steps;
    RunAppend(ps, n, steps + [step], later);
  }

  /** Whether the convergence result applies to a projection after a run. */
  ghost predicate Converges<T(!new)>(ps: seq<Projection<T>>, n: Node<T>, steps: seq<Step>, i: nat)
    requires |ps| == |n.workers| && i < |ps|
  {
    (Idempotent(ps[i]) || NoCrash(steps)) && Smooth(steps, i) && RebuildsSafe(ps, n, steps, i)
  }

  lemma DrainKeepsConverging<T(!new)>(ps: seq<Projection<T>>, n: Node<T>, steps: seq<Step>, i: nat, drain: seq<Step>,
                                      j: nat)
    requires |ps| == |n.workers| && i < |ps| && j < |ps| && Converges(ps, n, steps, j) && Draining(drain)
    requires Run(ps, n, steps).workers[j].pending == []
    ensures Converges(ps, n, steps + [Rebuild(i)] + drain, j)
  {
    AppendKeepsRebuildsSafe(ps, n, steps, Rebuild(i), drain, j);
  }

  /** Rebuild, then drain: after any run that ends between two batches, emptying any table and running batches
      brings every projection the convergence result applies to, the rebuilt one included, to the
      fold of the whole log. */
  lemma RebuildThenDrainRestores<T(!new)>(ps: seq<Projection<T>>, log: seq<StoredEvent>, steps: seq<Step>, i: nat)
    returns (drain: seq<Step>)
    requires Ascending(log) && i < |ps|
    requires forall j | 0 <= j < |ps| :: Run(ps, Start(ps, log), steps).workers[j].pending == []
    ensures Draining(drain)
    ensures var n := Run(ps, Start(ps, log), steps);
      var n' := Run(ps, Do(ps, n, Rebuild(i)), drain);
      && n'.log == n.log
      && forall j: nat | j < |ps| && Converges(ps, Start(ps, log), steps, j) ::
           n'.workers[j].table == FoldOf(ps[j], n.log)
  {
    var start := Start(ps, log);
    var n := Run(ps, start, steps);
    StartIsSafe(ps, log, true);
    NoGapEver(ps, start, steps, true);
    drain := DrainAfterRebuild(ps, n, i);
    RunThrough(ps, start, steps, Rebuild(i), drain);
    forall j: nat | j < |ps| && Converges(ps, start, steps, j)
      ensures Run(ps, Do(ps, n, Rebuild(i)), drain).workers[j].table == FoldOf(ps[j], n.log)
    {
      DrainKeepsConverging(ps, start, steps, i, drain, j);
      CaughtUpIsFold(ps, log, steps + [Rebuild(i)] + drain, j);
    }
  }

  // ---- the machine and the batch of the daemon class ----

  function StateOf<T>(w: Worker<T>): PState<T>
  {
    PState(w.table, w.checkpoint, [])
  }

  lemma FoldFirst<A, B>(step: (A, B) -> A, init: A, x: B, rest: seq<B>)
    ensures Fold(step, init, [x] + rest) == Fold(step, step(init, x), rest)
  {
    FoldAppend(step, init, [x], rest);
    assert [x][..0] == [];
    assert Fold(step, init, [x]) == step(init, x);
  }

  /** Error rows never influence where a delivery takes table and checkpoint. */
  lemma {:induction false} ErrorsDoNotMatter<T>(p: Projection<T>, s: PState<T>, s': PState<T>, events: seq<StoredEvent>,
                                             fails: Failures)
    requires s.table == s'.table && s.checkpoint == s'.checkpoint
    ensures var (r, r') := (DeliverAll(p, s, events, fails), DeliverAll(p, s', events, fails));
      r.table == r'.table && r.checkpoint == r'.checkpoint
  {
    if events != [] {
      ErrorsDoNotMatter(p, s, s', events[..|events| - 1], fails);
    }
  }

  /** The attempts at the first pending event, one after the other, end where the retries of the daemon's batch end. */
  lemma AttemptsRefineSteps<T>(ps: seq<Projection<T>>, n: Node<T>, i: nat, fails: Failures) returns (steps: seq<Step>)
    requires |ps| == |n.workers| && HasTurn(n, i) && !n.workers[i].inHand && n.workers[i].failed < MAX_RETRIES
    ensures var w, n' := n.workers[i], Run(ps, n, steps);
      var w' := n'.workers[i];
      && n'.log == n.log && (forall j | 0 <= j < |ps| && j != i :: n'.workers[j] == n.workers[j])
      && (w'.table, w'.inHand) == Attempts(ps[i], w.table, w.pending[0], fails, w.failed + 1)
      && w'.checkpoint == w.checkpoint && w'.failed == 0
      && w'.pending == if w'.inHand then w.pending else w.pending[1..]
    decreases MAX_RETRIES - n.workers[i].failed
  {
    var w := n.workers[i];
    var try := DeliverTo(i, fails(ps[i].name, w.pending[0].globalPosition, w.failed + 1));
    var tried := Do(ps, n, try);
    steps := [try];
    assert steps[..0] == [];
    assert Run(ps, n, steps) == tried;
    if tried.workers[i].failed != 0 {
      assert HasTurn(tried, i);
      var rest := AttemptsRefineSteps(ps, tried, i, fails);
      RunAppend(ps, n, steps, rest);
      steps := steps + rest;
    }
  }

  lemma SaveAfter<T>(ps: seq<Projection<T>>, n: Node<T>, steps: seq<Step>, i: nat)
    requires |ps| == |n.workers|
    ensures Run(ps, n, steps + [Checkpoint(i)]) == Do(ps, Run(ps, n, steps), Checkpoint(i))
  {
    assert (steps + [Checkpoint(i)])[..|steps|] == steps;
  }

  /** One event delivered and, if it was handled, its checkpoint saved. */
  lemma DeliveryRefinesSteps<T>(ps: seq<Projection<T>>, n: Node<T>, i: nat, fails: Failures) returns (steps: seq<Step>)
    requires |ps| == |n.workers| && HasTurn(n, i) && !n.workers[i].inHand && n.workers[i].failed == 0
    ensures var w, n' := n.workers[i], Run(ps, n, steps);
      var w', delivered := n'.workers[i], Deliver(ps[i], StateOf(w), w.pending[0], fails);
      && (forall j | 0 <= j < |ps| && j != i :: n'.workers[j] == n.workers[j])
      && w'.table == delivered.table && w'.checkpoint == delivered.checkpoint
      && w'.pending == w.pending[1..] && w'.failed == 0 && !w'.inHand
  {
    steps := AttemptsRefineSteps(ps, n, i, fails);
    var tried := Run(ps, n, steps);
    if tried.workers[i].inHand {
      assert HasTurn(tried, i);
      SaveAfter(ps, n, steps, i);
      steps := steps + [Checkpoint(i)];
    }
  }

  /** The worker is done with its pending events, and table and checkpoint are where the batch loop leaves them. */
  ghost predicate Driven<T>(p: Projection<T>, w: Worker<T>, w': Worker<T>, pending: seq<StoredEvent>, fails: Failures)
  {
    var batch := DeliverAll(p, StateOf(w), pending, fails);
    && w'.pending == [] && w'.failed == 0 && !w'.inHand
    && w'.table == batch.table && w'.checkpoint == batch.checkpoint
  }

  /** One projection driven through its pending events, whatever fails. */
  lemma DriveRefinesSteps<T>(ps: seq<Projection<T>>, n: Node<T>, i: nat, fails: Failures) returns (steps: seq<Step>)
    requires |ps| == |n.workers| && i < |ps| && !n.workers[i].inHand && n.workers[i].failed == 0
    requires forall j | 0 <= j < i :: n.workers[j].pending == []
    ensures Driven(ps[i], n.workers[i], Run(ps, n, steps).workers[i], n.workers[i].pending, fails)
    ensures forall j | 0 <= j < |ps| && j != i :: Run(ps, n, steps).workers[j] == n.workers[j]
    decreases |n.workers[i].pending|
  {
    var w := n.workers[i];
    if w.pending == [] {
      steps := [];
    } else {
      var e, later := w.pending[0], w.pending[1..];
      var first := DeliveryRefinesSteps(ps, n, i, fails);
      var mid := Run(ps, n, first);
      var rest := DriveRefinesSteps(ps, mid, i, fails);
      steps := first + rest;
      RunAppend(ps, n, first, rest);
      assert w.pending == [e] + later;
      FoldFirst(Delivering(ps[i], fails), StateOf(w), e, later);
      ErrorsDoNotMatter(ps[i], StateOf(mid.workers[i]), Deliver(ps[i], StateOf(w), e, fails), later, fails);
    }
  }

  /** The projections from the i-th on, driven one after the other. */
  lemma DrivesRefineSteps<T>(ps: seq<Projection<T>>, n: Node<T>, i: nat, fails: Failures) returns (steps: seq<Step>)
    requires |ps| == |n.workers| && i <= |ps| && (forall j | 0 <= j < i :: n.workers[j].pending == [])
    requires forall j | i <= j < |ps| :: !n.workers[j].inHand && n.workers[j].failed == 0
    ensures forall j | 0 <= j < i :: Run(ps, n, steps).workers[j] == n.workers[j]
    ensures forall j | i <= j < |ps| ::
      Driven(ps[j], n.workers[j], Run(ps, n, steps).workers[j], n.workers[j].pending, fails)
    decreases |ps| - i
  {
    steps := [];
    if i < |ps| {
      var first := DriveRefinesSteps(ps, n, i, fails);
      var mid := Run(ps, n, first);
      var rest := DrivesRefineSteps(ps, mid, i + 1, fails);
      RunAppend(ps, n, first, rest);
      steps := first + rest;
    }
  }

  /** A whole batch: started by a daemon at rest, in any state a run can reach, the small steps take every projection
      through the fetched events it still needs, and end where the batch loop of the class ends. */
  lemma BatchRefinesSteps<T>(ps: seq<Projection<T>>, n: Node<T>, min: nat, fails: Failures) returns (steps: seq<Step>)
    requires |ps| == |n.workers| && Safe(n, true) && CanBegin(n, min)
    ensures forall i | 0 <= i < |ps| ::
      Driven(ps[i], n.workers[i], Run(ps, n, steps).workers[i],
             Relevant(Fetched(n.log, min), n.workers[i].checkpoint), fails)
  {
    var begin := [BeginBatch(min)];
    var mid := Do(ps, n, BeginBatch(min));
    assert begin[..0] == [];
    assert Run(ps, n, begin) == mid;
    var rest := DrivesRefineSteps(ps, mid, 0, fails);
    RunAppend(ps, n, begin, rest);
    steps := begin + rest;
  }
}
