/** Any number of integrity checks of one entity whose loads and appends interleave, on a stream
    that only grows: what each check records, and when its link points at the check before it. */
module AuditRuns {
  import opened Events
  import opened Sequences
  import opened EventLog
  import opened AuditChain

  /** One running check: the events it loaded, the checks there were when it looked for the last one, and when it
      loaded the version it appends at. */
  datatype Checker =
    | Resting
    | Loaded(events: nat)
    | Found(events: nat, found: nat)
    | Versioned(events: nat, found: nat, version: nat)

  /** What an appended check had seen. */
  datatype Seen = Seen(events: nat, found: nat)

  /** The entity's events as loaded, the checks of its audit stream with what each had seen, and the running checks. */
  datatype Audit = Audit(es: seq<StoredEvent>, checks: seq<StoredEvent>, seen: seq<Seen>, checkers: seq<Checker>)

  datatype Step =
    | Grow(rows: seq<StoredEvent>)
    | LoadEvents(checker: nat)
    | FindLast(checker: nat)
    | LoadVersion(checker: nat)
    | AppendCheck(checker: nat)

  function LastOfFirst(checks: seq<StoredEvent>, found: nat): Option<StoredEvent>
    requires found <= |checks|
  {
    if found == 0 then None else Some(checks[found - 1])
  }

  function CheckRow(entityId: string, position: nat, r: CheckResult): StoredEvent
  {
    var event := CheckEvent(entityId, r);
    StoredEvent("", AuditStream("", entityId), position, 0, event.eventType, event.version, event.payload, NoMeta, 0)
  }

  predicate InRange(s: Audit, c: Checker)
  {
    match c
    case Resting => true
    case Loaded(events) => events <= |s.es|
    case Found(events, found) => events <= |s.es| && found <= |s.checks|
    case Versioned(events, found, version) => events <= |s.es| && found <= version <= |s.checks|
  }

  predicate Valid(s: Audit)
  {
    |s.seen| == |s.checks| && forall c | c in s.checkers :: InRange(s, c)
  }

  /** The append succeeds at the current version only; either way the check is over. */
  function Appended(h: Hasher, entityId: string, s: Audit, c: Checker): Audit
    requires c.Versioned? && InRange(s, c)
  {
    if c.version != |s.checks| then s
    else
      var r := Verified(h, s.es[..c.events], LastOfFirst(s.checks, c.found));
      s.(checks := s.checks + [CheckRow(entityId, |s.checks| + 1, r)], seen := s.seen + [Seen(c.events, c.found)])
  }

  function Do(h: Hasher, entityId: string, s: Audit, step: Step): Audit
    requires Valid(s)
  {
    match step
    case Grow(rows) => s.(es := s.es + rows)
    case LoadEvents(i) =>
      if i < |s.checkers| && s.checkers[i].Resting? then s.(checkers := s.checkers[i := Loaded(|s.es|)]) else s
    case FindLast(i) =>
      if i < |s.checkers| && s.checkers[i].Loaded?
      then s.(checkers := s.checkers[i := Found(s.checkers[i].events, |s.checks|)]) else s
    case LoadVersion(i) =>
      if i < |s.checkers| && s.checkers[i].Found?
      then s.(checkers := s.checkers[i := Versioned(s.checkers[i].events, s.checkers[i].found, |s.checks|)]) else s
    case AppendCheck(i) =>
      if i < |s.checkers| && s.checkers[i].Versioned?
      then Appended(h, entityId, s, s.checkers[i]).(checkers := s.checkers[i := Resting]) else s
  }

  lemma StepKeepsValid(h: Hasher, entityId: string, s: Audit, step: Step)
    requires Valid(s)
    ensures Valid(Do(h, entityId, s, step))
  {
    var s' := Do(h, entityId, s, step);
    forall c | c in s'.checkers ensures InRange(s', c) {
      var i :| 0 <= i < |s'.checkers| && s'.checkers[i] == c;
      if s'.checkers[i] == s.checkers[i] {
        assert s.checkers[i] in s.checkers;
      } else {
        assert s.checkers[i] in s.checkers;
      }
    }
  }

  function Start(count: nat): Audit
  {
    Audit([], [], [], seq(count, i => Resting))
  }

  function Run(h: Hasher, entityId: string, s: Audit, steps: seq<Step>): (r: Audit)
    requires Valid(s)
    ensures Valid(r)
  {
    if steps == [] then s
    else
      var before := Run(h, entityId, s, steps[..|steps| - 1]);
      StepKeepsValid(h, entityId, before, steps[|steps| - 1]);
      Do(h, entityId, before, steps[|steps| - 1])
  }

  // ---- what every check records ----

  /** The k-th check records the chain of the events it had read, and links to the last check it had found. */
  ghost predicate Recorded(h: Hasher, s: Audit, k: nat)
    requires |s.seen| == |s.checks| && k < |s.checks|
  {
    && s.seen[k].events <= |s.es| && s.seen[k].found <= k && s.checks[k].streamPosition == k + 1
    && Records(h, s.checks[k], s.es[..s.seen[k].events])
    && Get(s.checks[k].payload, PreviousHash) ==
         LinkTo(h, s.es[..s.seen[k].events], LastOfFirst(s.checks, s.seen[k].found))
  }

  ghost predicate AllRecorded(h: Hasher, s: Audit)
    requires |s.seen| == |s.checks|
  {
    forall k: nat | k < |s.checks| :: Recorded(h, s, k)
  }

  lemma GrowthKeepsRecorded(h: Hasher, s: Audit, s': Audit, k: nat)
    requires |s.seen| == |s.checks| && |s'.seen| == |s'.checks| && k < |s.checks| && Recorded(h, s, k)
    requires s.es <= s'.es && s.checks <= s'.checks && s.seen <= s'.seen
    ensures Recorded(h, s', k)
  {
    assert s'.es[..s.seen[k].events] == s.es[..s.seen[k].events];
    assert s'.seen[k] == s.seen[k] && s'.checks[k] == s.checks[k];
  }

  lemma NewIsRecorded(h: Hasher, entityId: string, s: Audit, c: Checker)
    requires Valid(s) && c.Versioned? && InRange(s, c) && c.version == |s.checks|
    ensures var s' := Appended(h, entityId, s, c); Recorded(h, s', |s.checks|)
  {
    CheckFields(entityId, Verified(h, s.es[..c.events], LastOfFirst(s.checks, c.found)));
  }

  lemma StepKeepsRecorded(h: Hasher, entityId: string, s: Audit, step: Step)
    requires Valid(s) && AllRecorded(h, s)
    ensures AllRecorded(h, Do(h, entityId, s, step))
  {
    var s' := Do(h, entityId, s, step);
    forall k: nat | k < |s'.checks| ensures Recorded(h, s', k) {
      if k < |s.checks| {
        GrowthKeepsRecorded(h, s, s', k);
      } else {
        assert s.checkers[step.checker] in s.checkers;
        NewIsRecorded(h, entityId, s, s.checkers[step.checker]);
      }
    }
  }

  /** Over every interleaving of checks with each other and with new events: each check records the count and
      the full chain of a prefix of the stream. */
  lemma {:induction false} RunKeepsRecorded(h: Hasher, entityId: string, s: Audit, steps: seq<Step>)
    requires Valid(s) && AllRecorded(h, s)
    ensures AllRecorded(h, Run(h, entityId, s, steps))
  {
    if steps != [] {
      RunKeepsRecorded(h, entityId, s, steps[..|steps| - 1]);
      StepKeepsRecorded(h, entityId, Run(h, entityId, s, steps[..|steps| - 1]), steps[|steps| - 1]);
    }
  }

  // ---- when the links are right ----

  /** The k-th check points at the one before it. */
  predicate PointsBack(checks: seq<StoredEvent>, k: nat)
    requires k < |checks|
  {
    Get(checks[k].payload, PreviousHash) == if k == 0 then Null else Get(checks[k - 1].payload, IntegrityHash)
  }

  function Min(a: nat, b: nat): nat { if a < b then a else b }

  /** The events that both the k-th check had read and the check it had found had covered are
      as many as the check right before it covered. */
  predicate InLine(seen: seq<Seen>, k: nat)
    requires k < |seen|
  {
    k == 0 || (0 < seen[k].found <= k && Linked(seen, k) == seen[k - 1].events)
  }

  lemma DifferentLengthsCollide(h: Hasher, es: seq<StoredEvent>, a: nat, b: nat) returns (x: string, y: string)
    requires Standard(h) && a <= |es| && b <= |es| && FullChain(h, es[..a]) == FullChain(h, es[..b])
    ensures a == b || Collision(h, x, y)
  {
    x, y := EqualChainsEqualTexts(h, es[..a], es[..b]);
    if Texts(h, es[..a]) == Texts(h, es[..b]) {
      assert |Texts(h, es[..a])| == a && |Texts(h, es[..b])| == b;
    }
  }

  /** How many events the link of the k-th check covers. */
  function Linked(seen: seq<Seen>, k: nat): nat
    requires k < |seen| && 0 < seen[k].found <= |seen|
  {
    Min(seen[seen[k].found - 1].events, seen[k].events)
  }

  lemma RecordedLink(h: Hasher, s: Audit, k: nat)
    requires Standard(h) && |s.seen| == |s.checks| && k < |s.checks| && AllRecorded(h, s)
    ensures s.seen[k].found <= k && s.seen[k].events <= |s.es|
    ensures Get(s.checks[k].payload, PreviousHash) ==
      if s.seen[k].found == 0 then Null else Text(FullChain(h, s.es[..Linked(s.seen, k)]))
  {
    assert Recorded(h, s, k);
    var found := s.seen[k].found;
    if found > 0 {
      assert Recorded(h, s, found - 1);
      LinkIsPrefixChain(h, s.es, s.seen[k].events, s.seen[found - 1].events, s.checks[found - 1]);
    }
  }

  lemma RecordedHash(h: Hasher, s: Audit, k: nat)
    requires |s.seen| == |s.checks| && k < |s.checks| && AllRecorded(h, s)
    ensures s.seen[k].events <= |s.es|
    ensures Get(s.checks[k].payload, IntegrityHash) == Text(FullChain(h, s.es[..s.seen[k].events]))
  {
    assert Recorded(h, s, k);
  }

  /** The links, exactly: however checks overlap, a check points at the one before it if the two are in line, and
      only then unless two colliding SHA-256 inputs can be exhibited. */
  lemma LinksExactly(h: Hasher, s: Audit, k: nat) returns (x: string, y: string)
    requires Standard(h) && |s.seen| == |s.checks| && k < |s.checks| && AllRecorded(h, s)
    ensures InLine(s.seen, k) ==> PointsBack(s.checks, k)
    ensures PointsBack(s.checks, k) ==> InLine(s.seen, k) || Collision(h, x, y)
  {
    x, y := "", "";
    RecordedLink(h, s, k);
    if k > 0 {
      RecordedHash(h, s, k - 1);
      if s.seen[k].found > 0 && PointsBack(s.checks, k) {
        x, y := DifferentLengthsCollide(h, s.es, Linked(s.seen, k), s.seen[k - 1].events);
      }
    }
  }

  /** No other check was appended between the look for the last check and the load of the version, and the
      events were read no earlier than those of that last check. */
  predicate Undisturbed(seen: seq<Seen>, k: nat)
    requires k < |seen|
  {
    seen[k].found == k && (k == 0 || seen[k - 1].events <= seen[k].events)
  }

  /** A run whose checks do not disturb each other is linked from its first check to its last. */
  lemma RunIsLinked(h: Hasher, entityId: string, count: nat, steps: seq<Step>)
    requires Standard(h)
    requires forall k: nat | k < |Run(h, entityId, Start(count), steps).seen| ::
      Undisturbed(Run(h, entityId, Start(count), steps).seen, k)
    ensures var s := Run(h, entityId, Start(count), steps);
      forall k: nat | k < |s.checks| :: PointsBack(s.checks, k)
  {
    var s := Run(h, entityId, Start(count), steps);
    RunKeepsRecorded(h, entityId, Start(count), steps);
    forall k: nat | k < |s.checks| ensures PointsBack(s.checks, k) {
      assert Undisturbed(s.seen, k);
      var x, y := LinksExactly(h, s, k);
    }
  }

  lemma RunSnoc(h: Hasher, entityId: string, s: Audit, steps: seq<Step>, step: Step)
    requires Valid(s)
    ensures Run(h, entityId, s, steps + [step]) == Do(h, entityId, Run(h, entityId, s, steps), step)
  {
    assert (steps + [step])[..|steps|] == steps;
  }

  /** Two first checks look before either has appended; the one that loads its version behind the other's
      append still lands, with no previous hash. */
  lemma OverlapForks(h: Hasher, entityId: string) returns (steps: seq<Step>)
    ensures var s := Run(h, entityId, Start(2), steps);
      |s.checks| == 2 && !PointsBack(s.checks, 1)
  {
    steps := [];
    var s := Start(2);
    var order := [LoadEvents(0), LoadEvents(1), FindLast(0), FindLast(1),
                  LoadVersion(0), AppendCheck(0), LoadVersion(1), AppendCheck(1)];
    for i := 0 to |order|
      invariant s == Run(h, entityId, Start(2), steps) && Valid(s) && |s.checkers| == 2 && s.es == []
      invariant s.checkers[0] == if i == 0 || i > 5 then Resting else if i <= 2 then Loaded(0)
                                 else if i <= 4 then Found(0, 0) else Versioned(0, 0, 0)
      invariant s.checkers[1] == if i <= 1 || i > 7 then Resting else if i <= 3 then Loaded(0)
                                 else if i <= 6 then Found(0, 0) else Versioned(0, 0, 1)
      invariant s.seen == seq(if i <= 5 then 0 else if i <= 7 then 1 else 2, j => Seen(0, 0))
    {
      RunSnoc(h, entityId, Start(2), steps, order[i]);
      StepKeepsValid(h, entityId, s, order[i]);
      s := Do(h, entityId, s, order[i]);
      steps := steps + [order[i]];
    }
    RunKeepsRecorded(h, entityId, Start(2), steps);
    assert Recorded(h, s, 0) && Recorded(h, s, 1);
  }
}
