/** The agents' append with optimistic retries: one caller as the code runs it, and any number of
    callers whose version reads and appends interleave. */
module OccRetry {
  import opened Events
  import opened Sequences
  import opened EventLog
  import opened Store

  const MAX_OCC_RETRIES := 5

  /** The retry loop. The last attempt appended at version in the ledger before: the first attempt at the version the
      caller gave, every later one at the version of the stream as read behind the conflict before it. */
  method AppendWithOcc(store: EventStore, sid: string, inserts: seq<Insert>, expected: int)
    returns (r: AppendResult, attempts: nat, ghost version: int, ghost read: Ledger, ghost before: Ledger)
    requires store.Valid()
    modifies store`events, store`streams, store`outbox
    ensures store.Valid()
    ensures Extends(old(store.State()), read) && Extends(read, before)
    ensures 1 <= attempts <= 5
    ensures version == if attempts == 1 then expected else Version(read, sid)
    ensures (store.State(), r) == Append(before, sid, inserts, version, NoMeta)
    ensures r.Conflict? ==> attempts == 5
  {
    ghost var start := store.State();
    ExtendsReflexive(start);
    attempts := 0;
    while true
      invariant store.Valid() && Extends(start, store.State()) && attempts < MAX_OCC_RETRIES
      decreases MAX_OCC_RETRIES - attempts
    {
      read := store.State();
      var current := expected;
      if attempts > 0 {
        current := store.StreamVersion(sid);
      }
      version := current;
      Interfere(store);
      before := store.State();
      r := store.Append(sid, inserts, current, None, None);
      attempts := attempts + 1;
      if !r.Conflict? || attempts == MAX_OCC_RETRIES {
        return;
      }
      ExtendsTransitive(start, read, store.State());
    }
  }

  // ---- any number of callers ----

  datatype Phase =
    | Reading
    | Ready(expected: int, winnersAtRead: nat)
    | Succeeded(version: nat)
    | Failed(error: AppendResult)

  datatype Caller = Caller(inserts: seq<Insert>, attempts: nat, phase: Phase)

  /** The ledger, the callers appending to one stream, and the successful ones in commit order. */
  datatype World = World(ledger: Ledger, callers: seq<Caller>, winners: seq<nat>)

  datatype Step =
    | ReadVersion(caller: nat)
    | TryAppend(caller: nat)
    | Elsewhere(op: Op)

  function TargetOf(op: Op): string { op.sid }

  function AfterAttempt(c: Caller, r: AppendResult): Caller
  {
    var n := c.attempts + 1;
    match r
    case Appended(v) => c.(attempts := n, phase := Succeeded(v))
    case Conflict(_, _) => c.(attempts := n, phase := if n < MAX_OCC_RETRIES then Reading else Failed(r))
    case StreamArchived => c.(attempts := n, phase := Failed(r))
  }

  /** One step; a step whose caller is elsewhere in its loop changes nothing. */
  function Do(w: World, sid: string, step: Step): World
  {
    match step
    case ReadVersion(i) =>
      if i < |w.callers| && w.callers[i].phase.Reading?
      then w.(callers := w.callers[i := w.callers[i].(phase := Ready(Version(w.ledger, sid), |w.winners|))])
      else w
    case TryAppend(i) =>
      if i < |w.callers| && w.callers[i].phase.Ready? then
        var c := w.callers[i];
        var (l, r) := Append(w.ledger, sid, c.inserts, c.phase.expected, NoMeta);
        World(l, w.callers[i := AfterAttempt(c, r)], if r.Appended? then w.winners + [i] else w.winners)
      else w
    case Elsewhere(op) => if TargetOf(op) != sid then w.(ledger := EventLog.Step(w.ledger, op)) else w
  }

  function Run(w: World, sid: string, steps: seq<Step>): World
  {
    if steps == [] then w else Do(Run(w, sid, steps[..|steps| - 1]), sid, steps[|steps| - 1])
  }

  datatype Request = Request(inserts: seq<Insert>, expected: int)

  function Begin(l: Ledger, requests: seq<Request>): World
  {
    World(l,
          seq(|requests|, i requires 0 <= i < |requests| =>
            Caller(requests[i].inserts, 0, Ready(requests[i].expected, 0))),
          [])
  }

  /** The rows of the given callers' batches one after the other, numbered on from a version. */
  function BatchRows(requests: seq<Request>, winners: seq<nat>, sid: string, version: nat): seq<StoredEvent>
    requires forall k | 0 <= k < |winners| :: winners[k] < |requests|
  {
    if winners == [] then []
    else
      var earlier := BatchRows(requests, winners[..|winners| - 1], sid, version);
      earlier + Rows(sid, version + |earlier|, requests[winners[|winners| - 1]].inserts, NoMeta)
  }

  ghost predicate WinnersAreSuccesses(w: World)
  {
    && (forall k | 0 <= k < |w.winners| :: w.winners[k] < |w.callers| && w.callers[w.winners[k]].phase.Succeeded?)
    && (forall j, k | 0 <= j < k < |w.winners| :: w.winners[j] != w.winners[k])
    && (forall i | 0 <= i < |w.callers| && w.callers[i].phase.Succeeded? :: i in w.winners)
  }

  /** Attempts are bounded, and a caller never failed more often than others succeeded, but for its first try. */
  predicate Paced(c: Caller, winners: nat, version: nat)
  {
    match c.phase
    case Reading => 1 <= c.attempts < MAX_OCC_RETRIES && c.attempts <= winners + 1
    case Ready(e, n) =>
      && c.attempts < MAX_OCC_RETRIES && n <= winners
      && (c.attempts > 0 ==> e >= 0 && c.attempts <= n + 1 && (e != version ==> n < winners))
    case Succeeded(_) => 1 <= c.attempts <= MAX_OCC_RETRIES
    case Failed(r) =>
      && 1 <= c.attempts <= MAX_OCC_RETRIES && !r.Appended?
      && (r.Conflict? ==> c.attempts == MAX_OCC_RETRIES <= winners + 1)
  }

  ghost predicate Inv(w: World, l: Ledger, sid: string, requests: seq<Request>)
  {
    && Sound(w.ledger) && |w.callers| == |requests|
    && (forall i | 0 <= i < |requests| :: w.callers[i].inserts == requests[i].inserts)
    && (forall i | 0 <= i < |requests| :: Paced(w.callers[i], |w.winners|, Version(w.ledger, sid)))
    && WinnersAreSuccesses(w)
    && StreamIs(w.ledger, l, sid, requests, w.winners)
  }

  lemma VersionIsLength(l: Ledger, sid: string)
    requires Sound(l)
    ensures Version(l, sid) == |Stream(l, sid)|
  {
    assert StreamSound(l, sid);
  }

  /** A successful append adds the caller's rows at the end of the stream. */
  lemma WinnerExtends(l: Ledger, sid: string, inserts: seq<Insert>, expected: int)
    requires Sound(l) && Append(l, sid, inserts, expected, NoMeta).1.Appended?
    ensures Stream(Append(l, sid, inserts, expected, NoMeta).0, sid) ==
      Stream(l, sid) + Rows(sid, Version(l, sid), inserts, NoMeta)
  {
    if inserts == [] {
      assert Rows(sid, Version(l, sid), inserts, NoMeta) == [];
      assert Stream(l, sid) + [] == Stream(l, sid);
    } else {
      AppendStream(l, sid, inserts, expected, NoMeta, sid);
      assert Admit(l, sid, expected).version == Version(l, sid);
    }
  }

  lemma BatchRowsSnoc(requests: seq<Request>, winners: seq<nat>, i: nat, sid: string, version: nat)
    requires i < |requests| && forall k | 0 <= k < |winners| :: winners[k] < |requests|
    ensures var earlier := BatchRows(requests, winners, sid, version);
      BatchRows(requests, winners + [i], sid, version) ==
      earlier + Rows(sid, version + |earlier|, requests[i].inserts, NoMeta)
  {
    assert (winners + [i])[..|winners|] == winners;
  }

  ghost predicate StreamIs(now: Ledger, l: Ledger, sid: string, requests: seq<Request>, winners: seq<nat>)
  {
    && (forall k | 0 <= k < |winners| :: winners[k] < |requests|)
    && Stream(now, sid) == Stream(l, sid) + BatchRows(requests, winners, sid, Version(l, sid))
  }

  lemma StreamGrows(next: Ledger, now: Ledger, l: Ledger, sid: string, requests: seq<Request>, winners: seq<nat>,
                    i: nat)
    requires Sound(l) && Sound(now) && i < |requests| && StreamIs(now, l, sid, requests, winners)
    requires Stream(next, sid) == Stream(now, sid) + Rows(sid, Version(now, sid), requests[i].inserts, NoMeta)
    ensures StreamIs(next, l, sid, requests, winners + [i])
  {
    BatchRowsSnoc(requests, winners, i, sid, Version(l, sid));
    VersionIsLength(l, sid);
    VersionIsLength(now, sid);
    SeqAssociates(Stream(l, sid), BatchRows(requests, winners, sid, Version(l, sid)),
                  Rows(sid, Version(now, sid), requests[i].inserts, NoMeta));
  }

  /** The stream part of one successful attempt. */
  lemma AttemptKeepsStream(now: Ledger, l: Ledger, sid: string, requests: seq<Request>, winners: seq<nat>, i: nat,
                           expected: int)
    requires Sound(l) && Sound(now) && i < |requests| && StreamIs(now, l, sid, requests, winners)
    requires Append(now, sid, requests[i].inserts, expected, NoMeta).1.Appended?
    ensures StreamIs(Append(now, sid, requests[i].inserts, expected, NoMeta).0, l, sid, requests, winners + [i])
  {
    WinnerExtends(now, sid, requests[i].inserts, expected);
    StreamGrows(Append(now, sid, requests[i].inserts, expected, NoMeta).0, now, l, sid, requests, winners, i);
  }

  lemma SeqAssociates<A>(a: seq<A>, b: seq<A>, c: seq<A>)
    ensures (a + b) + c == a + (b + c)
  {
  }

  lemma SuccessJoinsWinners(w: World, i: nat, c: Caller, ledger: Ledger)
    requires WinnersAreSuccesses(w) && i < |w.callers| && w.callers[i].phase.Ready?
    ensures c.phase.Succeeded? ==> WinnersAreSuccesses(World(ledger, w.callers[i := c], w.winners + [i]))
    ensures !c.phase.Succeeded? ==> WinnersAreSuccesses(World(ledger, w.callers[i := c], w.winners))
  {
    if c.phase.Succeeded? {
      var w' := World(ledger, w.callers[i := c], w.winners + [i]);
      forall j | 0 <= j < |w'.callers| && w'.callers[j].phase.Succeeded? ensures j in w'.winners {
        assert w'.winners[|w.winners|] == i;
      }
    }
  }

  /** The attempt of one caller keeps every caller paced. */
  lemma AttemptKeepsPace(w: World, l: Ledger, sid: string, requests: seq<Request>, i: nat, j: nat)
    requires Inv(w, l, sid, requests) && i < |requests| && j < |requests| && w.callers[i].phase.Ready?
    ensures var w' := Do(w, sid, TryAppend(i));
      Paced(w'.callers[j], |w'.winners|, Version(w'.ledger, sid))
  {
    assert Paced(w.callers[i], |w.winners|, Version(w.ledger, sid));
    assert Paced(w.callers[j], |w.winners|, Version(w.ledger, sid));
  }

  lemma AttemptKeepsWinners(w: World, sid: string, i: nat)
    requires WinnersAreSuccesses(w) && i < |w.callers| && w.callers[i].phase.Ready?
    ensures WinnersAreSuccesses(Do(w, sid, TryAppend(i)))
  {
    var c := w.callers[i];
    var (ledger, r) := Append(w.ledger, sid, c.inserts, c.phase.expected, NoMeta);
    SuccessJoinsWinners(w, i, AfterAttempt(c, r), ledger);
  }

  lemma AttemptKeepsRows(w: World, l: Ledger, sid: string, requests: seq<Request>, i: nat)
    requires Sound(l) && Sound(w.ledger) && StreamIs(w.ledger, l, sid, requests, w.winners)
    requires i < |w.callers| == |requests| && w.callers[i].phase.Ready? && w.callers[i].inserts == requests[i].inserts
    ensures var w' := Do(w, sid, TryAppend(i));
      Sound(w'.ledger) && StreamIs(w'.ledger, l, sid, requests, w'.winners)
  {
    var c := w.callers[i];
    AppendKeepsSound(w.ledger, sid, c.inserts, c.phase.expected, NoMeta);
    if Append(w.ledger, sid, c.inserts, c.phase.expected, NoMeta).1.Appended? {
      AttemptKeepsStream(w.ledger, l, sid, requests, w.winners, i, c.phase.expected);
    }
  }

  lemma AttemptKeepsInv(w: World, l: Ledger, sid: string, requests: seq<Request>, i: nat)
    requires Sound(l) && Inv(w, l, sid, requests) && i < |w.callers| && w.callers[i].phase.Ready?
    ensures Inv(Do(w, sid, TryAppend(i)), l, sid, requests)
  {
    AttemptKeepsRows(w, l, sid, requests, i);
    AttemptKeepsWinners(w, sid, i);
    forall j | 0 <= j < |requests|
      ensures var w' := Do(w, sid, TryAppend(i)); Paced(w'.callers[j], |w'.winners|, Version(w'.ledger, sid))
    {
      AttemptKeepsPace(w, l, sid, requests, i, j);
    }
  }

  lemma ReadKeepsInv(w: World, l: Ledger, sid: string, requests: seq<Request>, i: nat)
    requires Inv(w, l, sid, requests) && i < |w.callers| && w.callers[i].phase.Reading?
    ensures Inv(Do(w, sid, ReadVersion(i)), l, sid, requests)
  {
    assert Paced(w.callers[i], |w.winners|, Version(w.ledger, sid));
  }

  lemma StepKeepsInv(w: World, l: Ledger, sid: string, requests: seq<Request>, step: Step)
    requires Sound(l) && Inv(w, l, sid, requests)
    ensures Inv(Do(w, sid, step), l, sid, requests)
  {
    match step
    case ReadVersion(i) =>
      if i < |w.callers| && w.callers[i].phase.Reading? {
        ReadKeepsInv(w, l, sid, requests, i);
      }
    case TryAppend(i) =>
      if i < |w.callers| && w.callers[i].phase.Ready? {
        AttemptKeepsInv(w, l, sid, requests, i);
      }
    case Elsewhere(op) =>
      if TargetOf(op) != sid {
        StepKeepsSound(w.ledger, op);
        ElsewhereKeepsStream(w.ledger, op, sid);
      }
  }

  lemma ElsewhereKeepsStream(l: Ledger, op: Op, sid: string)
    requires TargetOf(op) != sid
    ensures Stream(EventLog.Step(l, op), sid) == Stream(l, sid)
    ensures Version(EventLog.Step(l, op), sid) == Version(l, sid)
  {
    if op.AppendOp? && op.inserts != [] && Admit(l, op.sid, op.expected).Appended? {
      AppendStream(l, op.sid, op.inserts, op.expected, op.meta, sid);
      assert Stream(l, sid) + [] == Stream(l, sid);
    }
  }

  lemma {:induction false} RunKeepsInv(l: Ledger, sid: string, requests: seq<Request>, steps: seq<Step>)
    requires Sound(l)
    ensures Inv(Run(Begin(l, requests), sid, steps), l, sid, requests)
  {
    if steps == [] {
      assert Stream(l, sid) + [] == Stream(l, sid);
    } else {
      RunKeepsInv(l, sid, requests, steps[..|steps| - 1]);
      StepKeepsInv(Run(Begin(l, requests), sid, steps[..|steps| - 1]), l, sid, requests, steps[|steps| - 1]);
    }
  }

  /** Any number of callers, any interleaving of their reads and appends with writers on other streams: the stream
      is the initial one followed by the batch of each successful caller, whole and once, in commit order; callers
      that failed left nothing, and nobody tried more than five times. */
  lemma EveryBatchOnceOrNotAtAll(l: Ledger, sid: string, requests: seq<Request>, steps: seq<Step>)
    requires Sound(l)
    ensures var w := Run(Begin(l, requests), sid, steps);
      && |w.callers| == |requests| && WinnersAreSuccesses(w)
      && Stream(w.ledger, sid) == Stream(l, sid) + BatchRows(requests, w.winners, sid, Version(l, sid))
      && forall i | 0 <= i < |requests| :: w.callers[i].attempts <= MAX_OCC_RETRIES
  {
    RunKeepsInv(l, sid, requests, steps);
    var w := Run(Begin(l, requests), sid, steps);
    forall i | 0 <= i < |requests| ensures w.callers[i].attempts <= MAX_OCC_RETRIES {
      assert Paced(w.callers[i], |w.winners|, Version(w.ledger, sid));
    }
  }

  /** A caller gives up on a conflict only after five attempts, and then at least four others got through. */
  lemma GivingUpMeansOthersWon(l: Ledger, sid: string, requests: seq<Request>, steps: seq<Step>, i: nat)
    requires Sound(l) && i < |requests|
    requires var w := Run(Begin(l, requests), sid, steps);
      i < |w.callers| && w.callers[i].phase.Failed? && w.callers[i].phase.error.Conflict?
    ensures var w := Run(Begin(l, requests), sid, steps);
      w.callers[i].attempts == 5 && |w.winners| >= 4 && i !in w.winners
  {
    RunKeepsInv(l, sid, requests, steps);
    var w := Run(Begin(l, requests), sid, steps);
    assert Paced(w.callers[i], |w.winners|, Version(w.ledger, sid));
  }
}
