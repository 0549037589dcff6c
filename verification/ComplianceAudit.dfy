/** The compliance audit view with its snapshots, and the point-in-time query answered from snapshot plus delta. */
module ComplianceAudit {
  import opened Events
  import opened Sequences
  import opened EventLog
  import opened Like
  import Record = ComplianceRecord

  const SNAPSHOT_EVENT_COUNT_TRIGGER := 100

  datatype Status = PassedStatus | FailedStatus

  datatype AuditRow = AuditRow(
    ruleVersion: Value,
    status: Status,
    evidenceHash: Value,
    failureReason: Value,
    remediationRequired: Value)

  /** Rows by application and rule, the table's primary key. */
  type View = map<string, map<string, AuditRow>>

  datatype Snapshot = Snapshot(applicationId: string, eventPosition: nat, rows: map<string, AuditRow>, snapshotAt: int)

  datatype Audit = Audit(view: View, snapshots: seq<Snapshot>, eventCounts: map<string, nat>)

  const EmptyAudit := Audit(map[], [], map[])

  predicate Subscribed(t: EventType)
  {
    t in {ComplianceCheckRequested, ComplianceRulePassed, ComplianceRuleFailed, ComplianceClearanceIssued}
  }

  predicate IsVerdict(e: StoredEvent)
  {
    e.eventType == ComplianceRulePassed || e.eventType == ComplianceRuleFailed
  }

  /** A key read without a default is missing, or the database refuses a value's type. */
  predicate RowRefused(e: StoredEvent)
  {
    var p := e.payload;
    || !(Get(p, ApplicationId).Text? && Get(p, RuleId).Text? && Get(p, RuleVersion).Text?)
    || (e.eventType == ComplianceRulePassed && !TextOrNull(Get(p, EvidenceHash)))
    || (e.eventType == ComplianceRuleFailed && !TextOrNull(Get(p, FailureReason)))
    || (e.eventType == ComplianceRuleFailed && RemediationRequired in p
        && !(p[RemediationRequired].Flag? || p[RemediationRequired].Null?))
  }

  /** The upsert is refused, or the application is no key to count by. */
  predicate Raises(e: StoredEvent)
  {
    || (IsVerdict(e) && RowRefused(e))
    || (Subscribed(e.eventType) && Truthy(Get(e.payload, ApplicationId)) && !Get(e.payload, ApplicationId).Text?)
  }

  /** Whether the event counts towards the snapshots of an application. */
  predicate Counted(e: StoredEvent)
  {
    Subscribed(e.eventType) && IsName(Get(e.payload, ApplicationId))
  }

  function RowsOf(v: View, app: string): map<string, AuditRow>
  {
    if app in v then v[app] else map[]
  }

  /** INSERT ... ON CONFLICT DO UPDATE: an existing row keeps the columns the statement does not set. */
  function UpsertedRow(rows: map<string, AuditRow>, rule: string, e: StoredEvent): AuditRow
  {
    var p := e.payload;
    var row := if rule in rows then rows[rule] else AuditRow(Null, PassedStatus, Null, Null, Null);
    if e.eventType == ComplianceRulePassed then
      row.(ruleVersion := Get(p, RuleVersion), status := PassedStatus, evidenceHash := Get(p, EvidenceHash))
    else
      row.(ruleVersion := Get(p, RuleVersion), status := FailedStatus, failureReason := Get(p, FailureReason),
           remediationRequired := GetOr(p, RemediationRequired, Flag(true)))
  }

  function Upsert(v: View, e: StoredEvent): View
    requires !Raises(e)
  {
    if IsVerdict(e) then
      var app, rule := Get(e.payload, ApplicationId).s, Get(e.payload, RuleId).s;
      v[app := RowsOf(v, app)[rule := UpsertedRow(RowsOf(v, app), rule, e)]]
    else v
  }

  function Count(counts: map<string, nat>, app: string): nat
  {
    if app in counts then counts[app] else 0
  }

  /** One successful call of handle; now is the clock of the snapshot row. */
  function Handle(a: Audit, e: StoredEvent, now: int): Audit
    requires !Raises(e)
  {
    var v := Upsert(a.view, e);
    if Counted(e) then
      var app := e.payload[ApplicationId].s;
      var n := Count(a.eventCounts, app) + 1;
      Audit(v,
            if n % SNAPSHOT_EVENT_COUNT_TRIGGER == 0
            then a.snapshots + [Snapshot(app, e.globalPosition, RowsOf(v, app), now)] else a.snapshots,
            a.eventCounts[app := n])
    else a.(view := v)
  }

  /** The in-memory replay step; unlike the upserts it clears what it does not set. */
  function ApplyEventToState(state: map<string, AuditRow>, e: StoredEvent): map<string, AuditRow>
  {
    var p := e.payload;
    if !IsName(Get(p, RuleId)) then state
    else if e.eventType == ComplianceRulePassed then
      state[p[RuleId].s := AuditRow(Get(p, RuleVersion), PassedStatus, Get(p, EvidenceHash), Null, Null)]
    else if e.eventType == ComplianceRuleFailed then
      state[p[RuleId].s := AuditRow(Get(p, RuleVersion), FailedStatus, Null, Get(p, FailureReason),
                                    GetOr(p, RemediationRequired, Flag(true)))]
    else state
  }

  /** The delta query: LIKE on the stream name, past the snapshot, recorded by the timestamp. */
  function InDelta(app: string, position: nat, timestamp: int): StoredEvent -> bool
  {
    (e: StoredEvent) =>
      LikeMatch(ComplianceStream(app), e.streamId) && e.globalPosition > position && e.recordedAt <= timestamp
  }

  /** The answer computed from a chosen snapshot, or from none. */
  function Query(log: seq<StoredEvent>, used: Option<Snapshot>, app: string, timestamp: int): map<string, AuditRow>
  {
    var start := if used.Some? then used.value.rows else map[];
    var position := if used.Some? then used.value.eventPosition else 0;
    Fold(ApplyEventToState, start, Filter(log, InDelta(app, position, timestamp)))
  }

  predicate Usable(s: Snapshot, app: string, timestamp: int)
  {
    s.applicationId == app && s.snapshotAt <= timestamp
  }

  /** ORDER BY snapshot_at DESC LIMIT 1. */
  ghost predicate Nearest(snapshots: seq<Snapshot>, app: string, timestamp: int, used: Option<Snapshot>)
  {
    match used
    case None => forall s | s in snapshots :: s.applicationId != app || s.snapshotAt > timestamp
    case Some(n) =>
      && n in snapshots && n.applicationId == app && n.snapshotAt <= timestamp
      && forall s | s in snapshots && s.applicationId == app && s.snapshotAt <= timestamp ::
           s.snapshotAt <= n.snapshotAt
  }

  // ---- what the handler takes and what it leaves, in terms of payload and columns ----

  predicate TextKeys(p: Payload)
  {
    && ApplicationId in p && p[ApplicationId].Text? && RuleId in p && p[RuleId].Text?
    && RuleVersion in p && p[RuleVersion].Text?
  }

  /** Text keys, and a text, a null or nothing for the evidence. */
  predicate GoodPass(p: Payload)
  {
    TextKeys(p) && (EvidenceHash in p ==> p[EvidenceHash].Text? || p[EvidenceHash].Null?)
  }

  /** Text keys, a text, a null or nothing for the reason, and a boolean, a null or nothing for the remediation. */
  predicate GoodFailure(p: Payload)
  {
    && TextKeys(p)
    && (FailureReason in p ==> p[FailureReason].Text? || p[FailureReason].Null?)
    && (RemediationRequired in p ==> p[RemediationRequired].Flag? || p[RemediationRequired].Null?)
  }

  /** The application is text, or there is none to count for: missing, null, or another falsy value. */
  predicate NoOddApplication(p: Payload)
  {
    ApplicationId in p ==>
      p[ApplicationId].Text? || p[ApplicationId] in {Null, Flag(false), Int(0), Real(0.0), List([]), Object(map[])}
  }

  /** The events that are taken: verdicts with good columns, requests and clearances whose application can be counted
      for, and everything the view does not subscribe to. */
  predicate Taken(e: StoredEvent)
  {
    match e.eventType
    case ComplianceRulePassed => GoodPass(e.payload)
    case ComplianceRuleFailed => GoodFailure(e.payload)
    case ComplianceCheckRequested => NoOddApplication(e.payload)
    case ComplianceClearanceIssued => NoOddApplication(e.payload)
    case _ => true
  }

  /** The table after a verdict: the columns of its status carry what the payload says, a missing remediation flag
      counts as true, and the columns of the other status stay as they were. */
  ghost predicate Shows(before: View, after: View, e: StoredEvent)
  {
    var p := e.payload;
    match e.eventType
    case ComplianceRulePassed =>
      && GoodPass(p)
      && var app, rule := p[ApplicationId].s, p[RuleId].s;
         && RowChanged(before, after, app, rule)
         && var row := after[app][rule];
            && row.status == PassedStatus && row.ruleVersion == p[RuleVersion]
            && row.evidenceHash == (if EvidenceHash in p then p[EvidenceHash] else Null)
            && row.failureReason == (if HasRow(before, app, rule) then before[app][rule].failureReason else Null)
            && row.remediationRequired ==
               (if HasRow(before, app, rule) then before[app][rule].remediationRequired else Null)
    case ComplianceRuleFailed =>
      && GoodFailure(p)
      && var app, rule := p[ApplicationId].s, p[RuleId].s;
         && RowChanged(before, after, app, rule)
         && var row := after[app][rule];
            && row.status == FailedStatus && row.ruleVersion == p[RuleVersion]
            && row.failureReason == (if FailureReason in p then p[FailureReason] else Null)
            && row.remediationRequired == (if RemediationRequired in p then p[RemediationRequired] else Flag(true))
            && row.evidenceHash == (if HasRow(before, app, rule) then before[app][rule].evidenceHash else Null)
    case _ => after == before
  }

  predicate HasRow(v: View, app: string, rule: string)
  {
    app in v && rule in v[app]
  }

  /** One row of one application is there, and no other row has changed. */
  ghost predicate RowChanged(before: View, after: View, app: string, rule: string)
  {
    && HasRow(after, app, rule) && after.Keys == before.Keys + {app}
    && (forall other | other in before && other != app :: after[other] == before[other])
    && after[app].Keys == (if app in before then before[app].Keys else {}) + {rule}
    && (app in before ==> forall r | r in before[app] && r != rule :: after[app][r] == before[app][r])
  }

  /** Every event of the four types that names an application is counted, and each hundredth one of an
      application leaves a snapshot of its rows at the event's position. */
  ghost predicate Counts(before: Audit, after: Audit, e: StoredEvent, now: int)
  {
    if e.eventType in {ComplianceCheckRequested, ComplianceRulePassed, ComplianceRuleFailed, ComplianceClearanceIssued}
       && ApplicationId in e.payload && e.payload[ApplicationId].Text? && e.payload[ApplicationId].s != ""
    then
      var app := e.payload[ApplicationId].s;
      var n := if app in before.eventCounts then before.eventCounts[app] + 1 else 1;
      && after.eventCounts == before.eventCounts[app := n]
      && var rows := if app in after.view then after.view[app] else map[];
         after.snapshots ==
           if n % 100 == 0 then before.snapshots + [Snapshot(app, e.globalPosition, rows, now)] else before.snapshots
    else after.eventCounts == before.eventCounts && after.snapshots == before.snapshots
  }

  lemma TakenExactly(e: StoredEvent)
    ensures Taken(e) <==> !Raises(e)
  {
  }

  lemma UpsertShows(v: View, e: StoredEvent)
    requires !Raises(e)
    ensures Shows(v, Upsert(v, e), e)
  {
  }

  lemma HandleShows(a: Audit, e: StoredEvent, now: int)
    requires !Raises(e)
    ensures Shows(a.view, Handle(a, e, now).view, e) && Counts(a, Handle(a, e, now), e, now)
  {
    UpsertShows(a.view, e);
  }

  /** A replayed verdict leaves exactly its own columns: the replay clears those of the other status. */
  lemma ReplayClears(state: map<string, AuditRow>, e: StoredEvent)
    requires RuleId in e.payload && e.payload[RuleId].Text? && e.payload[RuleId].s != ""
    ensures var p, after := e.payload, ApplyEventToState(state, e);
      match e.eventType
      case ComplianceRulePassed =>
        after == state[p[RuleId].s := AuditRow(Get(p, RuleVersion), PassedStatus, Get(p, EvidenceHash), Null, Null)]
      case ComplianceRuleFailed =>
        after == state[p[RuleId].s := AuditRow(Get(p, RuleVersion), FailedStatus, Null, Get(p, FailureReason),
          if RemediationRequired in p then p[RemediationRequired] else Flag(true))]
      case _ => after == state
  {
  }

  class ComplianceAuditViewProjection {
    var view: View
    var snapshots: seq<Snapshot>
    var eventCounts: map<string, nat>

    function State(): Audit
      reads this
    {
      Audit(view, snapshots, eventCounts)
    }

    /** A new process finds the tables as they are and counts from zero. */
    constructor (view: View, snapshots: seq<Snapshot>)
      ensures State() == Audit(view, snapshots, map[])
    {
      this.view, this.snapshots, eventCounts := view, snapshots, map[];
    }

    /** False stands for an exception, raised before anything is written. */
    method HandleEvent(e: StoredEvent, now: int) returns (ok: bool)
      modifies this
      ensures ok == !Raises(e)
      ensures State() == if ok then Handle(old(State()), e, now) else old(State())
      ensures ok <==> Taken(e)
      ensures ok ==> Shows(old(view), view, e) && Counts(old(State()), State(), e, now)
    {
      TakenExactly(e);
      if !Raises(e) {
        HandleShows(State(), e, now);
      }
      if !Subscribed(e.eventType) {
        return true;
      }
      if IsVerdict(e) {
        if RowRefused(e) {
          return false;
        }
        var app, rule := e.payload[ApplicationId].s, e.payload[RuleId].s;
        var rows := RowsOf(view, app);
        view := view[app := rows[rule := UpsertedRow(rows, rule, e)]];
      }
      if Truthy(Get(e.payload, ApplicationId)) {
        if !Get(e.payload, ApplicationId).Text? {
          return false;
        }
        var app := e.payload[ApplicationId].s;
        eventCounts := eventCounts[app := Count(eventCounts, app) + 1];
        if eventCounts[app] % SNAPSHOT_EVENT_COUNT_TRIGGER == 0 {
          WriteSnapshot(app, e.globalPosition, now);
        }
      }
      return true;
    }

    method WriteSnapshot(app: string, position: nat, now: int)
      modifies this`snapshots
      ensures snapshots == old(snapshots) + [Snapshot(app, position, RowsOf(view, app), now)]
    {
      snapshots := snapshots + [Snapshot(app, position, RowsOf(view, app), now)];
    }

    method Rebuild()
      modifies this
      ensures State() == EmptyAudit && view == map[] && snapshots == [] && eventCounts == map[]
    {
      view, snapshots, eventCounts := map[], [], map[];
    }

    method NearestSnapshot(app: string, timestamp: int) returns (used: Option<Snapshot>)
      ensures Nearest(snapshots, app, timestamp, used)
    {
      used := None;
      for i := 0 to |snapshots|
        invariant Nearest(snapshots[..i], app, timestamp, used)
      {
        assert snapshots[..i + 1] == snapshots[..i] + [snapshots[i]];
        if Usable(snapshots[i], app, timestamp) && (used.None? || used.value.snapshotAt < snapshots[i].snapshotAt) {
          used := Some(snapshots[i]);
        }
      }
      assert snapshots[..|snapshots|] == snapshots;
    }

    method GetComplianceAt(log: seq<StoredEvent>, app: string, timestamp: int)
      returns (state: map<string, AuditRow>, used: Option<Snapshot>)
      ensures Nearest(snapshots, app, timestamp, used)
      ensures state == Query(log, used, app, timestamp)
    {
      used := NearestSnapshot(app, timestamp);
      var start: map<string, AuditRow> := if used.Some? then used.value.rows else map[];
      var position := if used.Some? then used.value.eventPosition else 0;
      state := ApplyDelta(start, log, InDelta(app, position, timestamp));
    }

    /** The delta rows of the events table applied one by one to a copy of the snapshot. */
    method ApplyDelta(start: map<string, AuditRow>, log: seq<StoredEvent>, delta: StoredEvent -> bool)
      returns (state: map<string, AuditRow>)
      ensures state == Fold(ApplyEventToState, start, Filter(log, delta))
    {
      state := start;
      for i := 0 to |log|
        invariant state == Fold(ApplyEventToState, start, Filter(log[..i], delta))
      {
        var done := log[..i];
        assert log[..i + 1] == done + [log[i]];
        FilterSnoc(done, log[i], delta);
        if delta(log[i]) {
          FoldSnoc(ApplyEventToState, start, Filter(done, delta), log[i]);
          state := ApplyEventToState(state, log[i]);
        } else {
          assert Filter(done, delta) + [] == Filter(done, delta);
        }
      }
      assert log[..|log|] == log;
    }
  }

  // ---- what a row says ----

  /** The fields that belong to a row's status. */
  datatype RuleVerdict =
    | PassedRule(version: Value, evidence: Value)
    | FailedRule(version: Value, reason: Value, remediation: Value)

  function VerdictOf(r: AuditRow): RuleVerdict
  {
    match r.status
    case PassedStatus => PassedRule(r.ruleVersion, r.evidenceHash)
    case FailedStatus => FailedRule(r.ruleVersion, r.failureReason, r.remediationRequired)
  }

  type Verdicts = map<string, RuleVerdict>

  /** The verdicts of the rules that have a name. */
  function Named(rows: map<string, AuditRow>): Verdicts
  {
    map rule | rule in rows && rule != "" :: VerdictOf(rows[rule])
  }

  function EventVerdict(e: StoredEvent): RuleVerdict
  {
    var p := e.payload;
    if e.eventType == ComplianceRulePassed then PassedRule(Get(p, RuleVersion), Get(p, EvidenceHash))
    else FailedRule(Get(p, RuleVersion), Get(p, FailureReason), GetOr(p, RemediationRequired, Flag(true)))
  }

  function Apply(vs: Verdicts, e: StoredEvent): Verdicts
  {
    if IsVerdict(e) && IsName(Get(e.payload, RuleId)) then vs[e.payload[RuleId].s := EventVerdict(e)] else vs
  }

  /** The reference answer: the verdicts of a stream's events, folded. */
  function VerdictsOf(es: seq<StoredEvent>): Verdicts
  {
    Fold(Apply, map[], es)
  }

  lemma ReplayStepVerdict(state: map<string, AuditRow>, e: StoredEvent)
    ensures Named(ApplyEventToState(state, e)) == Apply(Named(state), e)
  {
  }

  lemma {:induction false} ReplayVerdicts(state: map<string, AuditRow>, es: seq<StoredEvent>)
    ensures Named(Fold(ApplyEventToState, state, es)) == Fold(Apply, Named(state), es)
  {
    if es != [] {
      var front, last := es[..|es| - 1], es[|es| - 1];
      ReplayVerdicts(state, front);
      ReplayStepVerdict(Fold(ApplyEventToState, state, front), last);
    }
  }

  lemma UpsertVerdict(v: View, e: StoredEvent, app: string)
    requires !Raises(e)
    ensures Named(RowsOf(Upsert(v, e), app)) ==
      if IsVerdict(e) && e.payload[ApplicationId] == Text(app) then Apply(Named(RowsOf(v, app)), e)
      else Named(RowsOf(v, app))
  {
  }

  lemma UpsertIdempotent(v: View, e: StoredEvent)
    requires !Raises(e)
    ensures Upsert(Upsert(v, e), e) == Upsert(v, e)
  {
    if IsVerdict(e) {
      var app, rule := e.payload[ApplicationId].s, e.payload[RuleId].s;
      var once := Upsert(v, e);
      var rows := once[app];
      assert UpsertedRow(rows, rule, e) == rows[rule];
      assert rows[rule := rows[rule]] == rows && once[app := rows] == once;
    }
  }

  // ---- the view against the stream ----

  predicate Quiet(es: seq<StoredEvent>)
  {
    forall e | e in es :: !Raises(e)
  }

  function ViewOf(es: seq<StoredEvent>): View
    requires Quiet(es)
  {
    if es == [] then map[] else Upsert(ViewOf(es[..|es| - 1]), es[|es| - 1])
  }

  /** Verdicts about an application are recorded on its compliance stream and nothing else is. */
  ghost predicate RoutedEvent(e: StoredEvent)
  {
    IsVerdict(e) ==>
      forall app :: e.streamId == ComplianceStream(app) <==> Get(e.payload, ApplicationId) == Text(app)
  }

  ghost predicate Routed(log: seq<StoredEvent>)
  {
    forall j | 0 <= j < |log| :: RoutedEvent(log[j])
  }

  lemma {:induction false} ViewIsReplay(es: seq<StoredEvent>, app: string)
    requires Quiet(es) && Routed(es)
    ensures Named(RowsOf(ViewOf(es), app)) == VerdictsOf(Filter(es, OnStream(ComplianceStream(app))))
  {
    if es != [] {
      var front, last := es[..|es| - 1], es[|es| - 1];
      assert RoutedEvent(es[|es| - 1]);
      ViewIsReplay(front, app);
      UpsertVerdict(ViewOf(front), last, app);
      var kept := Filter(front, OnStream(ComplianceStream(app)));
      FilterSnoc(front, last, OnStream(ComplianceStream(app)));
      if last.streamId == ComplianceStream(app) {
        FoldSnoc(Apply, map[], kept, last);
      } else {
        assert kept + [] == kept;
      }
    }
  }

  lemma {:induction false} FailedVerdictsAgree(es: seq<StoredEvent>, rule: string)
    requires rule != ""
    ensures (rule in VerdictsOf(es) && VerdictsOf(es)[rule].FailedRule?) <==> Text(rule) in Record.Replay(es).failed
  {
    if es != [] {
      FailedVerdictsAgree(es[..|es| - 1], rule);
    }
  }

  /** The FAILED rows of the table are exactly the failed checks of the record of the application's stream. */
  lemma FailedRowsAgree(es: seq<StoredEvent>, app: string, rule: string)
    requires Quiet(es) && Routed(es) && rule != ""
    ensures (rule in RowsOf(ViewOf(es), app) && RowsOf(ViewOf(es), app)[rule].status == FailedStatus) <==>
      Text(rule) in Record.Replay(Filter(es, OnStream(ComplianceStream(app)))).failed
  {
    ViewIsReplay(es, app);
    var rows := RowsOf(ViewOf(es), app);
    assert rule in rows <==> rule in Named(rows);
    FailedVerdictsAgree(Filter(es, OnStream(ComplianceStream(app))), rule);
  }
}
