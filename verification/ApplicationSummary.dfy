/** The application_summary projection, and when its state column agrees with the loan aggregate. */
module ApplicationSummary {
  import opened Events
  import opened Sequences
  import opened EventLog
  import opened Upcasting
  import opened L = LoanApplication

  datatype SummaryRow = SummaryRow(
    state: AppState,
    applicantId: Value,
    requestedAmount: Value,
    approvedAmount: Value,
    riskTier: Value,
    fraudScore: Value,
    cleared: bool,
    decision: Value,
    sessionsCompleted: set<string>,
    lastEventType: EventType,
    lastEventAt: int,
    reviewerId: Value,
    finalDecisionAt: Option<int>)

  type Table = map<string, SummaryRow>

  predicate Subscribed(t: EventType)
  {
    t in {ApplicationSubmitted, CreditAnalysisRequested, CreditAnalysisCompleted, FraudScreeningCompleted,
          ComplianceCheckRequested, ComplianceRulePassed, ComplianceRuleFailed, ComplianceClearanceIssued,
          DecisionGenerated, HumanReviewCompleted, ApplicationApproved, ApplicationDeclined}
  }

  /** The handlers that use .get for the application id; a missing id then matches no row. */
  predicate IdIsOptional(t: EventType)
  {
    t in {CreditAnalysisRequested, ComplianceCheckRequested, ComplianceRulePassed, ComplianceRuleFailed}
  }

  /** A key read without a default is missing, or the id is no text; a submission needs one. */
  predicate KeyRefused(e: StoredEvent)
  {
    var p := e.payload;
    || (!IdIsOptional(e.eventType) && ApplicationId !in p)
    || !TextOrNull(Get(p, ApplicationId))
    || (e.eventType == ApplicationSubmitted
        && (!Get(p, ApplicationId).Text? || ApplicantId !in p || RequestedAmount !in p))
  }

  /** The database refuses the type of a value, whether or not the statement finds a row. */
  predicate ValueRefused(e: StoredEvent)
  {
    var p := e.payload;
    match e.eventType
    case ApplicationSubmitted => !(TextOrNull(Get(p, ApplicantId)) && NumberOrNull(Get(p, RequestedAmount)))
    case CreditAnalysisCompleted => !TextOrNull(Get(p, RiskTier))
    case FraudScreeningCompleted => !NumberOrNull(Get(p, FraudScore))
    case DecisionGenerated => !TextOrNull(Get(p, Recommendation))
    case HumanReviewCompleted => !TextOrNull(Get(p, ReviewerId))
    case ApplicationApproved => !NumberOrNull(Get(p, ApprovedAmount))
    case _ => false
  }

  predicate Raises(e: StoredEvent)
  {
    Subscribed(e.eventType) && (KeyRefused(e) || ValueRefused(e))
  }

  /** A text or null id, if there is one. */
  predicate UsableId(p: Payload)
  {
    ApplicationId in p ==> p[ApplicationId].Text? || p[ApplicationId].Null?
  }

  /** The events that are taken, type by type. */
  predicate Taken(e: StoredEvent)
  {
    var p := e.payload;
    match e.eventType
    case ApplicationSubmitted =>
      && ApplicationId in p && p[ApplicationId].Text?
      && ApplicantId in p && TextOrNull(p[ApplicantId]) && RequestedAmount in p && NumberOrNull(p[RequestedAmount])
    case CreditAnalysisCompleted => ApplicationId in p && UsableId(p) && (RiskTier in p ==> TextOrNull(p[RiskTier]))
    case FraudScreeningCompleted =>
      ApplicationId in p && UsableId(p) && (FraudScore in p ==> NumberOrNull(p[FraudScore]))
    case DecisionGenerated =>
      ApplicationId in p && UsableId(p) && (Recommendation in p ==> TextOrNull(p[Recommendation]))
    case HumanReviewCompleted => ApplicationId in p && UsableId(p) && (ReviewerId in p ==> TextOrNull(p[ReviewerId]))
    case ApplicationApproved =>
      ApplicationId in p && UsableId(p) && (ApprovedAmount in p ==> NumberOrNull(p[ApprovedAmount]))
    case ComplianceClearanceIssued => ApplicationId in p && UsableId(p)
    case ApplicationDeclined => ApplicationId in p && UsableId(p)
    case CreditAnalysisRequested => UsableId(p)
    case ComplianceCheckRequested => UsableId(p)
    case ComplianceRulePassed => UsableId(p)
    case ComplianceRuleFailed => UsableId(p)
    case _ => true
  }

  lemma TakenExactly(e: StoredEvent)
    ensures Taken(e) <==> !Raises(e)
  {
  }

  /** The row an UPDATE statement leaves. */
  function UpdatedRow(r: SummaryRow, e: StoredEvent): SummaryRow
  {
    var p := e.payload;
    var touched := r.(lastEventType := e.eventType, lastEventAt := e.recordedAt);
    match e.eventType
    case CreditAnalysisRequested => touched.(state := AwaitingAnalysis)
    case CreditAnalysisCompleted =>
      touched.(state := AnalysisComplete, riskTier := Get(p, RiskTier),
               sessionsCompleted := r.sessionsCompleted +
                 if IsName(Get(p, AgentId)) && IsName(Get(p, SessionId))
                 then {AgentStream(p[AgentId].s, p[SessionId].s)} else {})
    case FraudScreeningCompleted => touched.(fraudScore := Get(p, FraudScore))
    case ComplianceCheckRequested => touched.(state := ComplianceReview)
    case ComplianceClearanceIssued => touched.(state := PendingDecision, cleared := true)
    case DecisionGenerated =>
      touched.(state := if IsApprove(Get(p, Recommendation)) then ApprovedPendingHuman else DeclinedPendingHuman,
               decision := GetOr(p, Recommendation, Text("")))
    case HumanReviewCompleted =>
      touched.(state := if IsApproved(Get(p, FinalDecision)) then FinalApproved else FinalDeclined,
               reviewerId := Get(p, ReviewerId), finalDecisionAt := Some(e.recordedAt))
    case ApplicationApproved => touched.(state := FinalApproved, approvedAmount := Get(p, ApprovedAmount))
    case ApplicationDeclined => touched.(state := FinalDeclined)
    case _ => touched
  }

  /** What one delivery does to the table; a handler that raises has run no statement. */
  function Handle(t: Table, e: StoredEvent): Table
  {
    var p := e.payload;
    if !Subscribed(e.eventType) || Raises(e) || !Get(p, ApplicationId).Text? then t
    else
      var id := p[ApplicationId].s;
      if e.eventType == ApplicationSubmitted then
        var row := SummaryRow(Submitted, p[ApplicantId], p[RequestedAmount], Null, Null, Null, false, Null, {},
                                e.eventType, e.recordedAt, Null, None);
        t[id := if id in t
                then t[id].(state := Submitted, applicantId := p[ApplicantId], requestedAmount := p[RequestedAmount],
                            lastEventType := e.eventType, lastEventAt := e.recordedAt)
                else row]
      else if id in t then t[id := UpdatedRow(t[id], e)]
      else t
  }

  class ApplicationSummaryProjection {
    var table: Table

    constructor ()
      ensures table == map[]
    {
      table := map[];
    }

    method HandleEvent(e: StoredEvent) returns (ok: bool)
      modifies this
      ensures ok == !Raises(e)
      ensures ok <==> Taken(e)
      ensures table == Handle(old(table), e)
    {
      TakenExactly(e);
      var p := e.payload;
      if !Subscribed(e.eventType) {
        return true;
      }
      if (!IdIsOptional(e.eventType) && ApplicationId !in p) || !TextOrNull(Get(p, ApplicationId)) {
        return false;
      }
      if e.eventType == ApplicationSubmitted && (ApplicantId !in p || RequestedAmount !in p || p[ApplicationId].Null?) {
        return false;
      }
      if ValueRefused(e) {
        return false;
      }
      if e.eventType == ApplicationSubmitted {
        Upsert(p[ApplicationId].s, p[ApplicantId], p[RequestedAmount], e);
        return true;
      }
      if Get(p, ApplicationId).Text? && p[ApplicationId].s in table {
        table := table[p[ApplicationId].s := UpdatedRow(table[p[ApplicationId].s], e)];
      }
      ok := true;
    }

    method Upsert(id: string, applicant: Value, amount: Value, e: StoredEvent)
      modifies this
      ensures id in table && table.Keys == old(table.Keys) + {id}
      ensures table[id].state == Submitted && table[id].applicantId == applicant && table[id].requestedAmount == amount
      ensures id in old(table) ==>
        table == old(table)[id := old(table)[id].(state := Submitted, applicantId := applicant,
        requestedAmount := amount, lastEventType := e.eventType, lastEventAt := e.recordedAt)]
      ensures id !in old(table) ==> table == old(table)[id := SummaryRow(Submitted, applicant, amount, Null, Null, Null,
        false, Null, {}, e.eventType, e.recordedAt, Null, None)]
    {
      if id in table {
        table := table[id := table[id].(state := Submitted, applicantId := applicant, requestedAmount := amount,
                                        lastEventType := e.eventType, lastEventAt := e.recordedAt)];
      } else {
        table := table[id := SummaryRow(Submitted, applicant, amount, Null, Null, Null, false, Null, {},
                                        e.eventType, e.recordedAt, Null, None)];
      }
    }

    method Rebuild()
      modifies this
      ensures table == map[]
    {
      table := map[];
    }
  }

  /** Delivering the same event twice in a row is delivering it once. */
  lemma HandleIdempotent(t: Table, e: StoredEvent)
    ensures Handle(Handle(t, e), e) == Handle(t, e)
  {
    if Subscribed(e.eventType) && !Raises(e) && Get(e.payload, ApplicationId).Text? && e.payload[ApplicationId].s in t {
      UpdateIdempotent(t[e.payload[ApplicationId].s], e);
    }
  }

  lemma UpdateIdempotent(r: SummaryRow, e: StoredEvent)
    ensures UpdatedRow(UpdatedRow(r, e), e) == UpdatedRow(r, e)
  {
  }

  /** The registered upcasters are invisible to the table. */
  lemma HandleIgnoresUpcasting(t: Table, e: StoredEvent)
    ensures Handle(t, Migrated(Registered(), e)) == Handle(t, e)
    ensures Raises(Migrated(Registered(), e)) == Raises(e)
  {
    RegisteredUpcast(e);
  }

  // ---- what the columns mean ----

  predicate About(e: StoredEvent, app: string)
  {
    Subscribed(e.eventType) && !Raises(e) && Get(e.payload, ApplicationId) == Text(app)
  }

  /** The events that reach an application's row: those about it, from its first submission on. */
  function Reaching(log: seq<StoredEvent>, app: string): seq<StoredEvent>
  {
    if log == [] then []
    else
      var before, e := Reaching(log[..|log| - 1], app), log[|log| - 1];
      if About(e, app) && (before != [] || e.eventType == ApplicationSubmitted) then before + [e] else before
  }

  /** The columns copied from payloads. */
  predicate ValuesHold(r: SummaryRow, es: seq<StoredEvent>)
  {
    && r.applicantId == LatestValue(es, ApplicationSubmitted, ApplicantId, Null)
    && r.requestedAmount == LatestValue(es, ApplicationSubmitted, RequestedAmount, Null)
    && r.riskTier == LatestValue(es, CreditAnalysisCompleted, RiskTier, Null)
    && r.fraudScore == LatestValue(es, FraudScreeningCompleted, FraudScore, Null)
    && r.approvedAmount == LatestValue(es, ApplicationApproved, ApprovedAmount, Null)
    && r.reviewerId == LatestValue(es, HumanReviewCompleted, ReviewerId, Null)
  }

  /** The columns derived from events. */
  predicate MarksHold(r: SummaryRow, es: seq<StoredEvent>)
  {
    && es != []
    && r.cleared == Latest(es, ComplianceClearanceIssued).Some?
    && r.decision == (if Latest(es, DecisionGenerated).Some?
                      then GetOr(Latest(es, DecisionGenerated).value.payload, Recommendation, Text("")) else Null)
    && r.finalDecisionAt == (if Latest(es, HumanReviewCompleted).Some?
                             then Some(Latest(es, HumanReviewCompleted).value.recordedAt) else None)
    && r.lastEventType == es[|es| - 1].eventType && r.lastEventAt == es[|es| - 1].recordedAt
  }

  /** The credit analysis names the agent and session it came from. */
  predicate Completes(e: StoredEvent, session: string)
  {
    && e.eventType == CreditAnalysisCompleted
    && IsName(Get(e.payload, AgentId)) && IsName(Get(e.payload, SessionId))
    && session == AgentStream(e.payload[AgentId].s, e.payload[SessionId].s)
  }

  /** The collected sessions are exactly those that some credit analysis names. */
  ghost predicate SessionsHold(r: SummaryRow, es: seq<StoredEvent>)
  {
    forall session :: session in r.sessionsCompleted <==> exists e :: e in es && Completes(e, session)
  }

  /** Every column but the state holds the value of the last event that reached the row and carries it, and the sessions
      column the sessions of all of them. */
  ghost predicate ColumnsHold(r: SummaryRow, es: seq<StoredEvent>)
  {
    ValuesHold(r, es) && MarksHold(r, es) && SessionsHold(r, es)
  }

  lemma FirstRowHolds(e: StoredEvent, app: string)
    requires About(e, app) && e.eventType == ApplicationSubmitted
    ensures app in Handle(map[], e) && ColumnsHold(Handle(map[], e)[app], [e])
  {
    var p := e.payload;
    var row := SummaryRow(Submitted, p[ApplicantId], p[RequestedAmount], Null, Null, Null, false, Null, {},
                          e.eventType, e.recordedAt, Null, None);
    assert Handle(map[], e) == map[app := row];
    FirstIsLatest(e);
    FirstSessionsHold(row, e);
  }

  lemma FirstIsLatest(e: StoredEvent)
    ensures forall t :: Latest([e], t) == if e.eventType == t then Some(e) else None
  {
    LatestSnocAll([], e);
    assert [] + [e] == [e];
  }

  lemma FirstSessionsHold(row: SummaryRow, e: StoredEvent)
    requires row.sessionsCompleted == {} && e.eventType == ApplicationSubmitted
    ensures SessionsHold(row, [e])
  {
  }

  /** The row an event leaves that reaches one. */
  function MovedRow(r: SummaryRow, e: StoredEvent): SummaryRow
  {
    if e.eventType == ApplicationSubmitted then
      r.(state := Submitted, applicantId := Get(e.payload, ApplicantId),
         requestedAmount := Get(e.payload, RequestedAmount),
         lastEventType := e.eventType, lastEventAt := e.recordedAt)
    else UpdatedRow(r, e)
  }

  lemma MovedValuesHold(r: SummaryRow, e: StoredEvent, es: seq<StoredEvent>)
    requires ValuesHold(r, es) && Subscribed(e.eventType)
    ensures ValuesHold(MovedRow(r, e), es + [e])
  {
    LatestValueSnoc(es, e, ApplicationSubmitted, ApplicantId, Null);
    LatestValueSnoc(es, e, ApplicationSubmitted, RequestedAmount, Null);
    LatestValueSnoc(es, e, CreditAnalysisCompleted, RiskTier, Null);
    LatestValueSnoc(es, e, FraudScreeningCompleted, FraudScore, Null);
    LatestValueSnoc(es, e, ApplicationApproved, ApprovedAmount, Null);
    LatestValueSnoc(es, e, HumanReviewCompleted, ReviewerId, Null);
  }

  lemma MovedMarksHold(r: SummaryRow, e: StoredEvent, es: seq<StoredEvent>)
    requires MarksHold(r, es) && Subscribed(e.eventType)
    ensures MarksHold(MovedRow(r, e), es + [e])
  {
    LatestSnocAll(es, e);
  }

  lemma MovedSessionsHold(r: SummaryRow, e: StoredEvent, es: seq<StoredEvent>)
    requires SessionsHold(r, es) && Subscribed(e.eventType)
    ensures SessionsHold(MovedRow(r, e), es + [e])
  {
    forall session ensures session in MovedRow(r, e).sessionsCompleted <==>
      exists x :: x in es + [e] && Completes(x, session)
    {
      assert session in MovedRow(r, e).sessionsCompleted <==> session in r.sessionsCompleted || Completes(e, session);
      assert (exists x :: x in es + [e] && Completes(x, session)) <==>
        (exists x :: x in es && Completes(x, session)) || Completes(e, session);
    }
  }

  /** One more event moves the columns on. */
  lemma NextRowHolds(t: Table, e: StoredEvent, app: string, es: seq<StoredEvent>)
    requires app in t && ColumnsHold(t[app], es) && About(e, app)
    ensures ColumnsHold(Handle(t, e)[app], es + [e])
  {
    MovedValuesHold(t[app], e, es);
    MovedMarksHold(t[app], e, es);
    MovedSessionsHold(t[app], e, es);
    assert Handle(t, e)[app] == MovedRow(t[app], e);
  }

  lemma RowOnlyFor(t: Table, e: StoredEvent, app: string)
    ensures !About(e, app) ==> (app in Handle(t, e) <==> app in t)
    ensures !About(e, app) && app in t ==> Handle(t, e)[app] == t[app]
    ensures About(e, app) && app !in t && e.eventType != ApplicationSubmitted ==> app !in Handle(t, e)
    ensures About(e, app) && app !in t && e.eventType == ApplicationSubmitted ==>
      app in Handle(t, e) && Handle(t, e)[app] == Handle(map[], e)[app]
    ensures About(e, app) && app in t ==> app in Handle(t, e)
  {
  }

  /** Over every log, an application has a row exactly when a submission of it was delivered, and every column but the
      state holds the value of the last event that reached it and carries one, or the sessions of all of them. */
  lemma {:induction false} ColumnsHoldLatest(log: seq<StoredEvent>, app: string)
    ensures app in Summary(log) <==> Reaching(log, app) != []
    ensures app in Summary(log) ==> ColumnsHold(Summary(log)[app], Reaching(log, app))
  {
    if log != [] {
      var front, e := log[..|log| - 1], log[|log| - 1];
      ColumnsHoldLatest(front, app);
      RowOnlyFor(Summary(front), e, app);
      if About(e, app) && app in Summary(front) {
        NextRowHolds(Summary(front), e, app, Reaching(front, app));
      } else if About(e, app) && e.eventType == ApplicationSubmitted {
        FirstRowHolds(e, app);
      }
    }
  }

  // ---- agreement with the aggregate ----

  function Summary(log: seq<StoredEvent>): Table
  {
    Fold(Handle, map[], log)
  }

  function RowState(t: Table, app: string): Option<AppState>
  {
    if app in t then Some(t[app].state) else None
  }

  function LoanState(log: seq<StoredEvent>, app: string): Option<AppState>
  {
    Replay(Filter(log, OnStream(LoanStream(app)))).state
  }

  predicate StateBearing(t: EventType)
  {
    t in {ApplicationSubmitted, CreditAnalysisRequested, CreditAnalysisCompleted, FraudScreeningRequested,
          ComplianceCheckRequested, ComplianceClearanceIssued, DecisionGenerated, HumanReviewCompleted,
          ApplicationApproved, ApplicationDeclined}
  }

  /** State-bearing events about an application sit on its loan stream, and nothing else does. */
  ghost predicate Routed(log: seq<StoredEvent>)
  {
    forall e, app | e in log && StateBearing(e.eventType) ::
      e.streamId == LoanStream(app) <==> Get(e.payload, ApplicationId) == Text(app)
  }

  /** No delivery of the log raises. */
  predicate Quiet(log: seq<StoredEvent>)
  {
    forall e | e in log :: !Raises(e)
  }

  /** The guard under which one event keeps table and aggregate together. */
  predicate InStep(state: Option<AppState>, t: EventType)
  {
    match t
    case FraudScreeningRequested => state == Some(AnalysisComplete)
    case ApplicationSubmitted => true
    case _ => StateBearing(t) ==> state.Some?
  }

  ghost predicate Agrees(log: seq<StoredEvent>, app: string)
  {
    RowState(Summary(log), app) == LoanState(log, app)
  }

  lemma ApplyState(l: Loan, e: StoredEvent)
    ensures Apply(l, e).state == if NextState(e).Some? then NextState(e) else l.state
  {
  }

  lemma StateSnoc(log: seq<StoredEvent>, e: StoredEvent, app: string)
    ensures LoanState(log + [e], app) == LoanNext(LoanState(log, app), e, e.streamId == LoanStream(app))
  {
    var es := Filter(log, OnStream(LoanStream(app)));
    FilterSnoc(log, e, OnStream(LoanStream(app)));
    if e.streamId == LoanStream(app) {
      ReplaySnoc(es, e);
      ApplyState(Replay(es), e);
    } else {
      assert es + [] == es;
    }
  }

  /** The state a row has after one event about its application (mine) or another one. */
  function RowNext(state: Option<AppState>, e: StoredEvent, mine: bool): Option<AppState>
  {
    if mine && StateBearing(e.eventType) && e.eventType != FraudScreeningRequested
       && (state.Some? || e.eventType == ApplicationSubmitted)
    then NextState(e) else state
  }

  /** One more event leaves the row of an application alone or moves it as the aggregate does. */
  lemma RowStateNext(t: Table, e: StoredEvent, app: string)
    requires !Raises(e)
    ensures RowState(Handle(t, e), app) == RowNext(RowState(t, app), e, Get(e.payload, ApplicationId) == Text(app))
  {
  }

  lemma StatesAfter(log: seq<StoredEvent>, e: StoredEvent, app: string)
    requires !Raises(e)
    ensures RowState(Summary(log + [e]), app) ==
      RowNext(RowState(Summary(log), app), e, Get(e.payload, ApplicationId) == Text(app))
    ensures LoanState(log + [e], app) == LoanNext(LoanState(log, app), e, e.streamId == LoanStream(app))
  {
    FoldSnoc(Handle, map[], log, e);
    RowStateNext(Summary(log), e, app);
    StateSnoc(log, e, app);
  }

  function LoanNext(state: Option<AppState>, e: StoredEvent, onStream: bool): Option<AppState>
  {
    if onStream && NextState(e).Some? then NextState(e) else state
  }

  /** From a common state the two sides stay together exactly when the event is in step. */
  lemma InStepIsExact(state: Option<AppState>, e: StoredEvent, mine: bool, onStream: bool)
    requires StateBearing(e.eventType) ==> mine == onStream
    ensures RowNext(state, e, mine) == LoanNext(state, e, onStream) <==> (onStream ==> InStep(state, e.eventType))
  {
  }

  /** One event, exactly: agreement survives it if and only if the event is off the loan stream or in step. */
  lemma OneEventKeepsAgreement(log: seq<StoredEvent>, e: StoredEvent, app: string)
    requires Routed(log + [e]) && Quiet(log + [e])
    requires Agrees(log, app)
    ensures Agrees(log + [e], app) <==> (e.streamId == LoanStream(app) ==> InStep(LoanState(log, app), e.eventType))
  {
    assert (log + [e])[|log|] in log + [e];
    StatesAfter(log, e, app);
    InStepIsExact(LoanState(log, app), e, Get(e.payload, ApplicationId) == Text(app), e.streamId == LoanStream(app));
  }

  /** Table and aggregate agree after every prefix of the log. */
  ghost predicate AgreesThroughout(log: seq<StoredEvent>, app: string)
  {
    Agrees(log, app) && (log != [] ==> AgreesThroughout(log[..|log| - 1], app))
  }

  /** Every event on the application's loan stream occurs in step with the state before it. */
  ghost predicate InStepThroughout(log: seq<StoredEvent>, app: string)
  {
    log != [] ==>
      var front, e := log[..|log| - 1], log[|log| - 1];
      && InStepThroughout(front, app)
      && (e.streamId == LoanStream(app) ==> InStep(LoanState(front, app), e.eventType))
  }

  /** Over a routed log whose deliveries raise nothing, the row and the aggregate of an application agree at
      every prefix if and only if each event on its loan stream occurs in step: a fraud screening request
      only in ANALYSIS_COMPLETE, and any other state-bearing event only after a submission. */
  lemma {:induction false} SummaryAgreesExactly(log: seq<StoredEvent>, app: string)
    requires Routed(log) && Quiet(log)
    ensures AgreesThroughout(log, app) <==> InStepThroughout(log, app)
  {
    if log != [] {
      var front, e := log[..|log| - 1], log[|log| - 1];
      assert log == front + [e];
      SummaryAgreesExactly(front, app);
      if AgreesThroughout(front, app) {
        OneEventKeepsAgreement(front, e, app);
      }
    }
  }

  /** The divergence the fraud request causes: a loan in compliance review whose stream receives one
      reads ANALYSIS_COMPLETE from the aggregate and COMPLIANCE_REVIEW from the table. */
  lemma FraudRequestDiverges(log: seq<StoredEvent>, e: StoredEvent, app: string)
    requires Routed(log + [e]) && Quiet(log + [e]) && Agrees(log, app)
    requires LoanState(log, app) == Some(ComplianceReview)
    requires e.streamId == LoanStream(app) && e.eventType == FraudScreeningRequested
    ensures LoanState(log + [e], app) == Some(AnalysisComplete)
    ensures RowState(Summary(log + [e]), app) == Some(ComplianceReview)
  {
    assert (log + [e])[|log|] in log + [e];
    StatesAfter(log, e, app);
  }
}
