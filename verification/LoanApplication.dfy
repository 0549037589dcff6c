/** The loan aggregate: a fold over its stream, and the guards the command handlers ask. */
module LoanApplication {
  import opened Events
  import opened Sequences
  import opened EventLog
  import opened Upcasting
  import opened Store

  datatype AppState =
    | Submitted
    | AwaitingAnalysis
    | AnalysisComplete
    | ComplianceReview
    | PendingDecision
    | ApprovedPendingHuman
    | DeclinedPendingHuman
    | FinalApproved
    | FinalDeclined

  datatype Loan = Loan(
    state: Option<AppState>,
    version: nat,
    applicantId: Value,
    requestedAmount: Value,
    approvedAmount: Value,
    creditCompleted: bool,
    clearanceIssued: bool,
    requiredChecks: Value,
    completedChecks: seq<Value>,
    contributingSessions: Value)

  const NewLoan := Loan(None, 0, Text(""), Real(0.0), Null, false, false, List([]), [], List([]))

  predicate IsApprove(v: Value)
  {
    v == Text("APPROVE")
  }

  predicate IsApproved(v: Value)
  {
    v == Text("APPROVED") || v == Text("APPROVE")
  }

  /** The state an event type moves a loan to; None for the types that leave it alone. */
  function NextState(e: StoredEvent): Option<AppState>
  {
    match e.eventType
    case ApplicationSubmitted => Some(Submitted)
    case CreditAnalysisRequested => Some(AwaitingAnalysis)
    case CreditAnalysisCompleted => Some(AnalysisComplete)
    case FraudScreeningRequested => Some(AnalysisComplete)
    case ComplianceCheckRequested => Some(ComplianceReview)
    case ComplianceClearanceIssued => Some(PendingDecision)
    case DecisionGenerated =>
      Some(if IsApprove(Get(e.payload, Recommendation)) then ApprovedPendingHuman else DeclinedPendingHuman)
    case HumanReviewCompleted =>
      Some(if IsApproved(Get(e.payload, FinalDecision)) then FinalApproved else FinalDeclined)
    case ApplicationApproved => Some(FinalApproved)
    case ApplicationDeclined => Some(FinalDeclined)
    case _ => None
  }

  /** The keys an event handler reads without a default; a missing one raises KeyError. */
  predicate Readable(e: StoredEvent)
  {
    match e.eventType
    case ApplicationSubmitted => ApplicantId in e.payload && RequestedAmount in e.payload
    case ComplianceRulePassed => RuleId in e.payload
    case DecisionGenerated => Recommendation in e.payload
    case HumanReviewCompleted => FinalDecision in e.payload
    case ApplicationApproved => ApprovedAmount in e.payload
    case _ => true
  }

  function Apply(l: Loan, e: StoredEvent): Loan
  {
    var p := e.payload;
    var moved := l.(state := if NextState(e).Some? then NextState(e) else l.state, version := e.streamPosition);
    match e.eventType
    case ApplicationSubmitted =>
      moved.(applicantId := Get(p, ApplicantId), requestedAmount := Get(p, RequestedAmount))
    case CreditAnalysisCompleted => moved.(creditCompleted := true)
    case ComplianceCheckRequested => moved.(requiredChecks := GetOr(p, ChecksRequired, List([])))
    case ComplianceRulePassed =>
      if Get(p, RuleId) in l.completedChecks then moved
      else moved.(completedChecks := l.completedChecks + [Get(p, RuleId)])
    case ComplianceClearanceIssued => moved.(clearanceIssued := true)
    case DecisionGenerated => moved.(contributingSessions := GetOr(p, ContributingSessions, List([])))
    case ApplicationApproved => moved.(approvedAmount := Get(p, ApprovedAmount))
    case _ => moved
  }

  function Replay(es: seq<StoredEvent>): (l: Loan)
    ensures l.version == LastPosition(es)
  {
    Fold(Apply, NewLoan, es)
  }

  predicate Loadable(es: seq<StoredEvent>)
  {
    forall e | e in es :: Readable(e)
  }

  // ---- the guards ----

  predicate AwaitingCreditAnalysis(l: Loan) { l.state == Some(AwaitingAnalysis) }
  predicate CreditNotLocked(l: Loan) { !l.creditCompleted }
  predicate AwaitingDecision(l: Loan) { l.state == Some(PendingDecision) }
  predicate AwaitingHumanReview(l: Loan) { l.state in {Some(ApprovedPendingHuman), Some(DeclinedPendingHuman)} }
  predicate Cleared(l: Loan) { l.clearanceIssued }
  predicate ConfidenceFloor(confidence: real, recommendation: string) { confidence < 0.6 ==> recommendation == "REFER" }

  class LoanApplicationAggregate {
    const applicationId: string
    var state: Option<AppState>
    var version: nat
    var applicantId: Value
    var requestedAmount: Value
    var approvedAmount: Value
    var creditCompleted: bool
    var clearanceIssued: bool
    var requiredChecks: Value
    var completedChecks: seq<Value>
    var contributingSessions: Value

    function Model(): Loan
      reads this
    {
      Loan(state, version, applicantId, requestedAmount, approvedAmount, creditCompleted, clearanceIssued,
           requiredChecks, completedChecks, contributingSessions)
    }

    constructor (applicationId: string)
      ensures Model() == NewLoan && this.applicationId == applicationId
    {
      this.applicationId := applicationId;
      state, version := None, 0;
      applicantId, requestedAmount, approvedAmount := Text(""), Real(0.0), Null;
      creditCompleted, clearanceIssued := false, false;
      requiredChecks, completedChecks, contributingSessions := List([]), [], List([]);
    }

    /** False stands for the KeyError of a payload without a key the handler needs. */
    method ApplyEvent(e: StoredEvent) returns (ok: bool)
      modifies this
      ensures ok == Readable(e)
      ensures ok ==> Model() == Apply(old(Model()), e)
    {
      var p := e.payload;
      match e.eventType {
        case ApplicationSubmitted =>
          state := Some(Submitted);
          if ApplicantId !in p || RequestedAmount !in p { return false; }
          applicantId := p[ApplicantId];
          requestedAmount := p[RequestedAmount];
        case CreditAnalysisRequested =>
          state := Some(AwaitingAnalysis);
        case CreditAnalysisCompleted =>
          state := Some(AnalysisComplete);
          creditCompleted := true;
        case FraudScreeningRequested =>
          state := Some(AnalysisComplete);
        case ComplianceCheckRequested =>
          state := Some(ComplianceReview);
          requiredChecks := GetOr(p, ChecksRequired, List([]));
        case ComplianceRulePassed =>
          if RuleId !in p { return false; }
          if p[RuleId] !in completedChecks {
            completedChecks := completedChecks + [p[RuleId]];
          }
        case ComplianceClearanceIssued =>
          state := Some(PendingDecision);
          clearanceIssued := true;
        case DecisionGenerated =>
          if Recommendation !in p { return false; }
          state := Some(if IsApprove(p[Recommendation]) then ApprovedPendingHuman else DeclinedPendingHuman);
          contributingSessions := GetOr(p, ContributingSessions, List([]));
        case HumanReviewCompleted =>
          if FinalDecision !in p { return false; }
          state := Some(if IsApproved(p[FinalDecision]) then FinalApproved else FinalDeclined);
        case ApplicationApproved =>
          state := Some(FinalApproved);
          if ApprovedAmount !in p { return false; }
          approvedAmount := p[ApprovedAmount];
        case ApplicationDeclined =>
          state := Some(FinalDeclined);
        case _ =>
      }
      version := e.streamPosition;
      ok := true;
    }

    /** Null stands for the KeyError that aborts the load. */
    static method Load(store: EventStore, applicationId: string) returns (agg: LoanApplicationAggregate?)
      requires store.Valid() && store.upcasters == Registered()
      ensures (agg != null) == Loadable(Stream(store.State(), LoanStream(applicationId)))
      ensures agg != null ==> fresh(agg) && agg.Model() == Replay(Stream(store.State(), LoanStream(applicationId)))
    {
      var rows := store.LoadStream(LoanStream(applicationId), 0, None);
      ReplayIgnoresUpcasting(Stream(store.State(), LoanStream(applicationId)));
      var loan := new LoanApplicationAggregate(applicationId);
      var ok := loan.ReplayAll(rows);
      agg := if ok then loan else null;
    }

    /** Reconstruction by replaying a loaded stream. */
    method ReplayAll(es: seq<StoredEvent>) returns (ok: bool)
      requires Model() == NewLoan
      modifies this
      ensures ok == Loadable(es)
      ensures ok ==> Model() == Replay(es)
    {
      for i := 0 to |es|
        invariant Model() == Replay(es[..i])
        invariant Loadable(es[..i])
      {
        ghost var before := Model();
        var applied := ApplyEvent(es[i]);
        if !applied {
          return false;
        }
        assert es[..i + 1] == es[..i] + [es[i]];
        FoldSnoc(Apply, NewLoan, es[..i], es[i]);
      }
      assert es[..|es|] == es;
      ok := true;
    }
  }

  // ---- facts about the fold ----

  lemma ReplaySnoc(es: seq<StoredEvent>, e: StoredEvent)
    ensures Replay(es + [e]) == Apply(Replay(es), e)
  {
    FoldSnoc(Apply, NewLoan, es, e);
  }

  /** The state the last state-bearing event moved to, read directly off the events. */
  function LastMove(es: seq<StoredEvent>): Option<AppState>
  {
    if es == [] then None
    else if NextState(es[|es| - 1]).Some? then NextState(es[|es| - 1])
    else LastMove(es[..|es| - 1])
  }

  /** What the status fields of a loan mean. */
  predicate HoldsStatus(l: Loan, es: seq<StoredEvent>)
  {
    && l.state == LastMove(es)
    && l.creditCompleted == Latest(es, CreditAnalysisCompleted).Some?
    && l.clearanceIssued == Latest(es, ComplianceClearanceIssued).Some?
  }

  /** What the value fields of a loan mean: the values of the last events that carry them. */
  predicate HoldsValues(l: Loan, es: seq<StoredEvent>)
  {
    && l.applicantId == LatestValue(es, ApplicationSubmitted, ApplicantId, Text(""))
    && l.requestedAmount == LatestValue(es, ApplicationSubmitted, RequestedAmount, Real(0.0))
    && l.approvedAmount == LatestValue(es, ApplicationApproved, ApprovedAmount, Null)
  }

  /** The list fields, empty before an event carries them. */
  predicate HoldsLists(l: Loan, es: seq<StoredEvent>)
  {
    && l.requiredChecks == LatestOr(es, ComplianceCheckRequested, ChecksRequired, List([]))
    && l.contributingSessions == LatestOr(es, DecisionGenerated, ContributingSessions, List([]))
  }

  lemma NextHoldsStatus(l: Loan, es: seq<StoredEvent>, e: StoredEvent)
    requires HoldsStatus(l, es)
    ensures HoldsStatus(Apply(l, e), es + [e])
  {
    LatestSnoc(es, e, CreditAnalysisCompleted);
    LatestSnoc(es, e, ComplianceClearanceIssued);
    assert (es + [e])[..|es|] == es;
    assert LastMove(es + [e]) == if NextState(e).Some? then NextState(e) else LastMove(es);
  }

  lemma NextHoldsValues(l: Loan, es: seq<StoredEvent>, e: StoredEvent)
    requires HoldsValues(l, es)
    ensures HoldsValues(Apply(l, e), es + [e])
  {
    LatestValueSnoc(es, e, ApplicationSubmitted, ApplicantId, Text(""));
    LatestValueSnoc(es, e, ApplicationSubmitted, RequestedAmount, Real(0.0));
    LatestValueSnoc(es, e, ApplicationApproved, ApprovedAmount, Null);
  }

  lemma NextHoldsLists(l: Loan, es: seq<StoredEvent>, e: StoredEvent)
    requires HoldsLists(l, es)
    ensures HoldsLists(Apply(l, e), es + [e])
  {
    LatestOrSnoc(es, e, ComplianceCheckRequested, ChecksRequired, List([]));
    LatestOrSnoc(es, e, DecisionGenerated, ContributingSessions, List([]));
  }

  /** A loan holds the values of the last events that carry them, and nothing else. */
  lemma {:induction false} LoanHoldsLatest(es: seq<StoredEvent>)
    ensures HoldsStatus(Replay(es), es) && HoldsValues(Replay(es), es) && HoldsLists(Replay(es), es)
  {
    if es != [] {
      var front, last := es[..|es| - 1], es[|es| - 1];
      LoanHoldsLatest(front);
      ReplaySnoc(front, last);
      NextHoldsStatus(Replay(front), front, last);
      NextHoldsValues(Replay(front), front, last);
      NextHoldsLists(Replay(front), front, last);
      assert es == front + [last];
    }
  }

  predicate Passes(e: StoredEvent, rule: Value)
  {
    e.eventType == ComplianceRulePassed && Get(e.payload, RuleId) == rule
  }

  lemma NextChecks(l: Loan, e: StoredEvent)
    requires Distinct(l.completedChecks)
    ensures Distinct(Apply(l, e).completedChecks)
    ensures forall c :: c in Apply(l, e).completedChecks <==> c in l.completedChecks || Passes(e, c)
  {
    if e.eventType == ComplianceRulePassed && Get(e.payload, RuleId) !in l.completedChecks {
      DistinctSnoc(l.completedChecks, Get(e.payload, RuleId));
    }
  }

  /** The completed checks are exactly the rules passed, each once. */
  lemma {:induction false} CompletedChecksExactly(es: seq<StoredEvent>)
    ensures Distinct(Replay(es).completedChecks)
    ensures forall c :: c in Replay(es).completedChecks <==> exists e :: e in es && Passes(e, c)
  {
    if es != [] {
      var front, last := es[..|es| - 1], es[|es| - 1];
      CompletedChecksExactly(front);
      NextChecks(Replay(front), last);
      assert es == front + [last];
      forall c ensures c in Replay(es).completedChecks <==> exists e :: e in es && Passes(e, c) {
        assert (exists e :: e in es && Passes(e, c)) <==> (exists e :: e in front && Passes(e, c)) || Passes(last, c);
      }
    }
  }

  lemma ApplyIgnoresUpcasting(l: Loan, e: StoredEvent)
    ensures Apply(l, Migrated(Registered(), e)) == Apply(l, e)
    ensures Readable(Migrated(Registered(), e)) == Readable(e)
  {
    RegisteredUpcast(e);
  }

  /** The registered upcasters are invisible to the loan: replaying migrated events
      gives the same loan, and fails on the same streams, as replaying the stored ones. */
  lemma ReplayIgnoresUpcasting(es: seq<StoredEvent>)
    ensures Replay(MigratedAll(Registered(), es)) == Replay(es)
    ensures Loadable(MigratedAll(Registered(), es)) == Loadable(es)
  {
    forall l: Loan, e ensures Apply(l, Migrated(Registered(), e)) == Apply(l, e) {
      ApplyIgnoresUpcasting(l, e);
    }
    forall e ensures Readable(Migrated(Registered(), e)) == Readable(e) {
      ApplyIgnoresUpcasting(NewLoan, e);
    }
    FoldIgnoresUpcasting(Registered(), Apply, NewLoan, Readable, es);
  }
}
