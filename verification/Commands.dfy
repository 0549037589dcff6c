/** The commands, the events they write, and when a written event was justified by the log before it. */
module Commands {
  import opened Events
  import opened Sequences
  import opened EventLog
  import Loan = LoanApplication
  import Session = AgentSession

  datatype CreditCommand = CreditCommand(
    applicationId: string, agentId: string, sessionId: string, modelVersion: string,
    confidence: real, riskTier: string, recommendedLimit: real, durationMs: int)

  datatype DecisionCommand = DecisionCommand(
    applicationId: string, orchestratorId: string, recommendation: string, confidence: real,
    contributingSessions: seq<string>, modelVersions: map<Key, Value>)

  datatype ReviewCommand = ReviewCommand(
    applicationId: string, reviewerId: string, override: bool, finalDecision: string, overrideReason: Option<string>)

  function Texts(xs: seq<string>): (r: seq<Value>)
    ensures |r| == |xs| && forall i | 0 <= i < |xs| :: r[i] == Text(xs[i])
  {
    seq(|xs|, i requires 0 <= i < |xs| => Text(xs[i]))
  }

  function CreditEvent(cmd: CreditCommand): NewEvent
  {
    NewEvent(CreditAnalysisCompleted, 2, map[
      ApplicationId := Text(cmd.applicationId), AgentId := Text(cmd.agentId), SessionId := Text(cmd.sessionId),
      ModelVersion := Text(cmd.modelVersion), ConfidenceScore := Real(cmd.confidence), RiskTier := Text(cmd.riskTier),
      RecommendedLimit := Real(cmd.recommendedLimit), AnalysisDuration := Int(cmd.durationMs), RegulatoryBasis := Null])
  }

  function FraudRequest(applicationId: string): NewEvent
  {
    NewEvent(FraudScreeningRequested, 1, map[ApplicationId := Text(applicationId)])
  }

  function DecisionEvent(cmd: DecisionCommand): NewEvent
  {
    NewEvent(DecisionGenerated, 2, map[
      ApplicationId := Text(cmd.applicationId), OrchestratorId := Text(cmd.orchestratorId),
      Recommendation := Text(cmd.recommendation), ConfidenceScore := Real(cmd.confidence),
      ContributingSessions := List(Texts(cmd.contributingSessions)), ModelVersions := Object(cmd.modelVersions)])
  }

  function ReviewEvent(cmd: ReviewCommand): NewEvent
  {
    NewEvent(HumanReviewCompleted, 1, map[
      ApplicationId := Text(cmd.applicationId), ReviewerId := Text(cmd.reviewerId),
      FinalDecision := Text(cmd.finalDecision)])
  }

  function SubmittedEvent(applicationId: string, applicantId: string, amount: real): NewEvent
  {
    NewEvent(ApplicationSubmitted, 1, map[
      ApplicationId := Text(applicationId), ApplicantId := Text(applicantId), RequestedAmount := Real(amount)])
  }

  function ContextEvent(agentId: string, sessionId: string, source: string, model: string, tokens: int): NewEvent
  {
    NewEvent(AgentContextLoaded, 1, map[
      AgentId := Text(agentId), SessionId := Text(sessionId), ContextSource := Text(source),
      ContextTokenCount := Int(tokens), ModelVersion := Text(model)])
  }

  function FraudEvent(applicationId: string, agentId: string, fraudScore: real): NewEvent
  {
    NewEvent(FraudScreeningCompleted, 1, map[
      ApplicationId := Text(applicationId), AgentId := Text(agentId), FraudScore := Real(fraudScore)])
  }

  function ComplianceRequest(applicationId: string, checks: seq<string>): NewEvent
  {
    NewEvent(ComplianceCheckRequested, 1, map[
      ApplicationId := Text(applicationId), ChecksRequired := List(Texts(checks))])
  }

  function RuleEvent(applicationId: string, ruleId: string, ruleVersion: string, passed: bool,
                     failureReason: string, remediation: bool, evidence: string): NewEvent
  {
    if passed then
      NewEvent(ComplianceRulePassed, 1, map[ApplicationId := Text(applicationId), RuleId := Text(ruleId),
        RuleVersion := Text(ruleVersion), EvidenceHash := Text(evidence)])
    else
      NewEvent(ComplianceRuleFailed, 1, map[ApplicationId := Text(applicationId), RuleId := Text(ruleId),
        RuleVersion := Text(ruleVersion), FailureReason := Text(failureReason),
        RemediationRequired := Flag(remediation)])
  }

  // ---- justification of a stored event by the log before it ----

  predicate IsLoanStream(sid: string)
  {
    |sid| >= 5 && sid[..5] == "loan-"
  }

  lemma LoanStreamShape(app: string)
    ensures IsLoanStream(LoanStream(app)) && LoanStream(app)[5..] == app
  {
  }

  /** The loan as a reader of the stream up to log index n sees it. */
  function SeenLoan(log: seq<StoredEvent>, n: nat): Loan.Loan
    requires n < |log|
  {
    Loan.Replay(Filter(log[..n], OnStream(log[n].streamId)))
  }

  /** An AgentContextLoaded earlier in the log, on the session the event names, whose declared
      model version is the event's (or null). */
  ghost predicate SessionVouches(log: seq<StoredEvent>, n: nat, m: nat)
    requires n < |log|
  {
    var p := log[n].payload;
    && m < n
    && Get(p, AgentId).Text? && Get(p, SessionId).Text?
    && log[m].streamId == AgentStream(p[AgentId].s, p[SessionId].s)
    && log[m].eventType == AgentContextLoaded
    && (Get(log[m].payload, ModelVersion) == Null || Get(log[m].payload, ModelVersion) == Get(p, ModelVersion))
  }

  ghost predicate CreditJustified(log: seq<StoredEvent>, n: nat)
    requires n < |log|
  {
    && Loan.AwaitingCreditAnalysis(SeenLoan(log, n))
    && Loan.CreditNotLocked(SeenLoan(log, n))
    && exists m: nat :: SessionVouches(log, n, m)
  }

  /** The event names the session on the application's loan stream, or sits on the
      session's own stream and names the application. */
  predicate Names(e: StoredEvent, session: string, app: string)
  {
    || (e.streamId == LoanStream(app) && NamesSession(e.payload, session))
    || (e.streamId == session && Get(e.payload, ApplicationId) == Text(app))
  }

  predicate NamesSession(p: Payload, session: string)
  {
    IsName(Get(p, AgentId)) && IsName(Get(p, SessionId)) && AgentStream(p[AgentId].s, p[SessionId].s) == session
  }

  ghost predicate Evidence(log: seq<StoredEvent>, session: string, app: string)
  {
    exists e :: e in log && Names(e, session, app)
  }

  /** BR-4: a score below the floor only ever carries REFER. */
  predicate FloorRespected(p: Payload)
  {
    && Get(p, ConfidenceScore).Real?
    && (p[ConfidenceScore].x < 0.6 ==> Get(p, Recommendation) == Text("REFER"))
  }

  ghost predicate DecisionJustified(log: seq<StoredEvent>, n: nat)
    requires n < |log| && IsLoanStream(log[n].streamId)
  {
    var p := log[n].payload;
    && Loan.AwaitingDecision(SeenLoan(log, n))
    && Loan.Cleared(SeenLoan(log, n))
    && FloorRespected(p)
    && Get(p, ContributingSessions).List?
    && (forall x | x in p[ContributingSessions].items :: x.Text? && Evidence(log[..n], x.s, log[n].streamId[5..]))
  }

  ghost predicate ReviewJustified(log: seq<StoredEvent>, n: nat)
    requires n < |log|
  {
    Loan.AwaitingHumanReview(SeenLoan(log, n))
  }

  ghost predicate Justified(log: seq<StoredEvent>, n: nat)
    requires n < |log|
  {
    IsLoanStream(log[n].streamId) ==>
      match log[n].eventType
      case CreditAnalysisCompleted => CreditJustified(log, n)
      case DecisionGenerated => DecisionJustified(log, n)
      case HumanReviewCompleted => ReviewJustified(log, n)
      case _ => true
  }

  /** Every credit analysis, decision and review on a loan stream was justified when it was written. */
  ghost predicate Guarded(log: seq<StoredEvent>)
  {
    forall n | 0 <= n < |log| :: Justified(log, n)
  }

  lemma JustifiedIsStable(log: seq<StoredEvent>, log': seq<StoredEvent>, n: nat)
    requires log <= log' && n < |log|
    ensures Justified(log, n) ==> Justified(log', n)
  {
    assert log'[..n] == log[..n] && log'[n] == log[n];
    if IsLoanStream(log[n].streamId) && log[n].eventType == CreditAnalysisCompleted && CreditJustified(log, n) {
      var m: nat :| SessionVouches(log, n, m);
      assert log'[m] == log[m];
      assert SessionVouches(log', n, m);
    }
  }

  lemma GuardedGrows(log: seq<StoredEvent>, rows: seq<StoredEvent>)
    requires Guarded(log)
    requires forall i | |log| <= i < |log| + |rows| :: Justified(log + rows, i)
    ensures Guarded(log + rows)
  {
    forall n | 0 <= n < |log| ensures Justified(log + rows, n) {
      JustifiedIsStable(log, log + rows, n);
    }
  }

  // ---- appends that keep every event justified ----

  predicate Protected(t: EventType)
  {
    t == CreditAnalysisCompleted || t == DecisionGenerated || t == HumanReviewCompleted
  }

  predicate ForeignTo(sid: string, inserts: seq<Insert>)
  {
    IsLoanStream(sid) ==> forall i | 0 <= i < |inserts| :: !Protected(inserts[i].event.eventType)
  }

  /** Any other writer, writing anything but the three guarded event types to loan streams. */
  lemma ForeignAppend(l: Ledger, sid: string, inserts: seq<Insert>, expected: int, meta: Metadata)
    requires Guarded(l.events) && ForeignTo(sid, inserts)
    ensures Guarded(Append(l, sid, inserts, expected, meta).0.events)
  {
    if inserts != [] && Admit(l, sid, expected).Appended? {
      GuardedGrows(l.events, Rows(sid, Admit(l, sid, expected).version, inserts, meta));
    }
  }

  /** A one-event append at the version of a stream read earlier puts the event right after
      exactly the events that were read. */
  lemma AppendAfterLoad(seen: Ledger, now: Ledger, sid: string, ins: Insert, meta: Metadata)
    requires Sound(seen) && Sound(now) && Extends(seen, now)
    ensures var (l, r) := Append(now, sid, [ins], Version(seen, sid), meta);
      r.Appended? ==>
        && l.events == now.events + [Row(sid, Version(seen, sid) + 1, ins, meta)]
        && r.version == Version(seen, sid) + 1
        && SeenLoan(l.events, |now.events|) == Loan.Replay(Stream(seen, sid))
  {
    var (l, r) := Append(now, sid, [ins], Version(seen, sid), meta);
    if r.Appended? {
      ExactVersionMeansUnchanged(seen, now, sid);
      AppendsOneRow(now, sid, ins, Version(seen, sid), meta);
      SeenBefore(now.events, Row(sid, Version(seen, sid) + 1, ins, meta));
    }
  }

  lemma SeenBefore(log: seq<StoredEvent>, e: StoredEvent)
    ensures SeenLoan(log + [e], |log|) == Loan.Replay(Filter(log, OnStream(e.streamId)))
  {
    assert (log + [e])[..|log|] == log;
  }

  lemma AppendsOneRow(l: Ledger, sid: string, ins: Insert, version: nat, meta: Metadata)
    ensures var (l', r) := Append(l, sid, [ins], version, meta);
      r.Appended? ==> l'.events == l.events + [Row(sid, version + 1, ins, meta)] && r.version == version + 1
  {
    assert Rows(sid, version, [ins], meta) == [Row(sid, version + 1, ins, meta)];
  }

  /** A session that passes the two session guards was loaded by an event already in the log. */
  lemma GuardsFindContext(session: Ledger, now: Ledger, cmd: CreditCommand) returns (m: nat)
    requires session.events <= now.events
    requires var agent := Session.Replay(Stream(session, AgentStream(cmd.agentId, cmd.sessionId)));
      Session.ContextIsLoaded(agent) && Session.ModelIsCurrent(agent, cmd.modelVersion)
    ensures m < |now.events| && now.events[m].streamId == AgentStream(cmd.agentId, cmd.sessionId)
    ensures now.events[m].eventType == AgentContextLoaded
    ensures Get(now.events[m].payload, ModelVersion) in {Null, Text(cmd.modelVersion)}
  {
    var agentStream := AgentStream(cmd.agentId, cmd.sessionId);
    var rows := Stream(session, agentStream);
    Session.LoadedContextHasEvent(rows);
    var i :| Session.DeclaredAt(rows, i, Session.Replay(rows).modelVersion);
    m := FilterIndex(session.events, OnStream(agentStream), i);
    assert now.events[m] == session.events[m] == rows[i];
  }

  lemma CreditRowJustified(log: seq<StoredEvent>, n: nat, cmd: CreditCommand, m: nat)
    requires m < n < |log| && log[n].payload == CreditEvent(cmd).payload
    requires Loan.AwaitingCreditAnalysis(SeenLoan(log, n)) && Loan.CreditNotLocked(SeenLoan(log, n))
    requires log[m].streamId == AgentStream(cmd.agentId, cmd.sessionId)
    requires log[m].eventType == AgentContextLoaded
    requires Get(log[m].payload, ModelVersion) in {Null, Text(cmd.modelVersion)}
    ensures CreditJustified(log, n)
  {
    assert SessionVouches(log, n, m);
  }

  lemma CreditNext(log: seq<StoredEvent>, before: seq<StoredEvent>, row: StoredEvent, cmd: CreditCommand, m: nat)
    requires Guarded(before) && log == before + [row] && row.payload == CreditEvent(cmd).payload
    requires row.eventType == CreditAnalysisCompleted
    requires Loan.AwaitingCreditAnalysis(SeenLoan(log, |before|)) && Loan.CreditNotLocked(SeenLoan(log, |before|))
    requires m < |before| && before[m].streamId == AgentStream(cmd.agentId, cmd.sessionId)
    requires before[m].eventType == AgentContextLoaded
    requires Get(before[m].payload, ModelVersion) in {Null, Text(cmd.modelVersion)}
    ensures Guarded(log)
  {
    assert log[m] == before[m] && log[|before|] == row;
    CreditRowJustified(log, |before|, cmd, m);
    GuardedGrows(before, [row]);
  }

  lemma CreditAppend(seen: Ledger, session: Ledger, now: Ledger, cmd: CreditCommand, stamp: Stamp, meta: Metadata)
    requires Sound(seen) && Sound(now) && Extends(seen, now) && Extends(session, now) && Guarded(now.events)
    requires var app := Loan.Replay(Stream(seen, LoanStream(cmd.applicationId)));
      Loan.AwaitingCreditAnalysis(app) && Loan.CreditNotLocked(app)
    requires var agent := Session.Replay(Stream(session, AgentStream(cmd.agentId, cmd.sessionId)));
      Session.ContextIsLoaded(agent) && Session.ModelIsCurrent(agent, cmd.modelVersion)
    ensures var sid := LoanStream(cmd.applicationId);
      Guarded(Append(now, sid, [Insert(CreditEvent(cmd), stamp)], Version(seen, sid), meta).0.events)
  {
    var sid := LoanStream(cmd.applicationId);
    var ins := Insert(CreditEvent(cmd), stamp);
    var (l, r) := Append(now, sid, [ins], Version(seen, sid), meta);
    if r.Appended? {
      AppendAfterLoad(seen, now, sid, ins, meta);
      var m := GuardsFindContext(session, now, cmd);
      CreditNext(l.events, now.events, Row(sid, Version(seen, sid) + 1, ins, meta), cmd, m);
    }
  }

  lemma OneRowAppend(l: Ledger, sid: string, ins: Insert, expected: int, meta: Metadata)
    requires Append(l, sid, [ins], expected, meta).1.Appended?
    ensures var (l', r) := Append(l, sid, [ins], expected, meta);
      && r.version == Version(l, sid) + 1 == Version(l', sid)
      && Stream(l', sid) == Stream(l, sid) + [Row(sid, r.version, ins, meta)]
  {
    AppendStream(l, sid, [ins], expected, meta, sid);
    assert Rows(sid, Version(l, sid), [ins], meta) == [Row(sid, Version(l, sid) + 1, ins, meta)];
  }

  /** An append at an exact version is refused only on a stream that was archived or has another version. */
  lemma RefusedMeansMoved(l: Ledger, sid: string, ins: Insert, expected: int, meta: Metadata)
    requires expected >= 0
    ensures var (l', r) := Append(l, sid, [ins], expected, meta);
      !r.Appended? ==> l' == l && (Archived(l, sid) || Version(l, sid) != expected)
  {
  }

  lemma CreditCompletesAnalysis(l: Ledger, cmd: CreditCommand, expected: int, stamp: Stamp, meta: Metadata)
    requires Append(l, LoanStream(cmd.applicationId), [Insert(CreditEvent(cmd), stamp)], expected, meta).1.Appended?
    ensures var sid := LoanStream(cmd.applicationId);
      var (l', r) := Append(l, sid, [Insert(CreditEvent(cmd), stamp)], expected, meta);
      Version(l', sid) == r.version && Loan.Replay(Stream(l', sid)).state == Some(Loan.AnalysisComplete)
  {
    var sid := LoanStream(cmd.applicationId);
    var ins := Insert(CreditEvent(cmd), stamp);
    OneRowAppend(l, sid, ins, expected, meta);
    Loan.ReplaySnoc(Stream(l, sid), Row(sid, Version(l, sid) + 1, ins, meta));
  }

  /** The fraud request of the credit handler is in step: appended at the version its analysis got, it lands on a loan
      whose state is ANALYSIS_COMPLETE, whatever other writers did meanwhile. */
  lemma FraudRequestFollowsAnalysis(before: Ledger, written: Ledger, now: Ledger, cmd: CreditCommand, expected: int,
                                    version: nat,
                                    stamp: Stamp, stamp2: Stamp, meta: Metadata)
    requires Sound(before) && Sound(now) && Extends(written, now)
    requires (written, Appended(version)) ==
      Append(before, LoanStream(cmd.applicationId), [Insert(CreditEvent(cmd), stamp)], expected, meta)
    ensures var request := Insert(FraudRequest(cmd.applicationId), stamp2);
      var (l, r) := Append(now, LoanStream(cmd.applicationId), [request], version, meta);
      r.Appended? ==>
        |l.events| == |now.events| + 1 && SeenLoan(l.events, |now.events|).state == Some(Loan.AnalysisComplete)
  {
    AppendKeepsSound(before, LoanStream(cmd.applicationId), [Insert(CreditEvent(cmd), stamp)], expected, meta);
    CreditCompletesAnalysis(before, cmd, expected, stamp, meta);
    AppendAfterLoad(written, now, LoanStream(cmd.applicationId), Insert(FraudRequest(cmd.applicationId), stamp2), meta);
  }

  lemma DecisionRowJustified(log: seq<StoredEvent>, n: nat, cmd: DecisionCommand)
    requires n < |log| && log[n].payload == DecisionEvent(cmd).payload
    requires log[n].streamId == LoanStream(cmd.applicationId)
    requires Loan.AwaitingDecision(SeenLoan(log, n)) && Loan.Cleared(SeenLoan(log, n))
    requires Loan.ConfidenceFloor(cmd.confidence, cmd.recommendation)
    requires forall s | s in cmd.contributingSessions :: Evidence(log[..n], s, cmd.applicationId)
    ensures IsLoanStream(log[n].streamId) && DecisionJustified(log, n)
  {
    LoanStreamShape(cmd.applicationId);
    var xs := Texts(cmd.contributingSessions);
    assert log[n].payload[ContributingSessions] == List(xs);
    forall x | x in xs ensures x.Text? && Evidence(log[..n], x.s, cmd.applicationId) {
      var i :| 0 <= i < |xs| && xs[i] == x;
      assert cmd.contributingSessions[i] in cmd.contributingSessions;
    }
  }

  lemma DecisionNext(log: seq<StoredEvent>, before: seq<StoredEvent>, row: StoredEvent, cmd: DecisionCommand)
    requires Guarded(before) && log == before + [row]
    requires row.eventType == DecisionGenerated && row.payload == DecisionEvent(cmd).payload
    requires row.streamId == LoanStream(cmd.applicationId)
    requires Loan.AwaitingDecision(SeenLoan(log, |before|)) && Loan.Cleared(SeenLoan(log, |before|))
    requires Loan.ConfidenceFloor(cmd.confidence, cmd.recommendation)
    requires forall s | s in cmd.contributingSessions :: Evidence(before, s, cmd.applicationId)
    ensures Guarded(log)
  {
    assert log[..|before|] == before;
    DecisionRowJustified(log, |before|, cmd);
    GuardedGrows(before, [row]);
  }

  lemma DecisionAppend(seen: Ledger, now: Ledger, cmd: DecisionCommand, stamp: Stamp, meta: Metadata)
    requires Sound(seen) && Sound(now) && Extends(seen, now) && Guarded(now.events)
    requires var app := Loan.Replay(Stream(seen, LoanStream(cmd.applicationId)));
      Loan.AwaitingDecision(app) && Loan.Cleared(app) && Loan.ConfidenceFloor(cmd.confidence, cmd.recommendation)
    requires forall s | s in cmd.contributingSessions :: Evidence(now.events, s, cmd.applicationId)
    ensures var sid := LoanStream(cmd.applicationId);
      Guarded(Append(now, sid, [Insert(DecisionEvent(cmd), stamp)], Version(seen, sid), meta).0.events)
  {
    var sid := LoanStream(cmd.applicationId);
    var ins := Insert(DecisionEvent(cmd), stamp);
    var (l, r) := Append(now, sid, [ins], Version(seen, sid), meta);
    if r.Appended? {
      AppendAfterLoad(seen, now, sid, ins, meta);
      DecisionNext(l.events, now.events, Row(sid, Version(seen, sid) + 1, ins, meta), cmd);
    }
  }

  lemma ReviewNext(log: seq<StoredEvent>, before: seq<StoredEvent>, row: StoredEvent)
    requires Guarded(before) && log == before + [row] && row.eventType == HumanReviewCompleted
    requires Loan.AwaitingHumanReview(SeenLoan(log, |before|))
    ensures Guarded(log)
  {
    GuardedGrows(before, [row]);
  }

  lemma ReviewAppend(seen: Ledger, now: Ledger, cmd: ReviewCommand, stamp: Stamp, meta: Metadata)
    requires Sound(seen) && Sound(now) && Extends(seen, now) && Guarded(now.events)
    requires Loan.AwaitingHumanReview(Loan.Replay(Stream(seen, LoanStream(cmd.applicationId))))
    ensures var sid := LoanStream(cmd.applicationId);
      Guarded(Append(now, sid, [Insert(ReviewEvent(cmd), stamp)], Version(seen, sid), meta).0.events)
  {
    var sid := LoanStream(cmd.applicationId);
    var ins := Insert(ReviewEvent(cmd), stamp);
    var (l, r) := Append(now, sid, [ins], Version(seen, sid), meta);
    if r.Appended? {
      AppendAfterLoad(seen, now, sid, ins, meta);
      ReviewNext(l.events, now.events, Row(sid, Version(seen, sid) + 1, ins, meta));
    }
  }

  /** Appending at -1 succeeds on every stream that is not archived, existing or not, and the new
      event is the last one of its stream. */
  lemma WildcardAppend(l: Ledger, sid: string, ins: Insert, meta: Metadata)
    ensures var (l', r) := Append(l, sid, [ins], -1, meta);
      && (r == if Archived(l, sid) then StreamArchived else Appended(Version(l, sid) + 1))
      && (r.Appended? ==> Stream(l', sid) == Stream(l, sid) + [Row(sid, r.version, ins, meta)])
  {
    if Archived(l, sid) {
      assert Admit(l, sid, -1) == StreamArchived;
    } else {
      assert Admit(l, sid, -1) == Appended(Version(l, sid));
      OneRowAppend(l, sid, ins, -1, meta);
    }
  }

  lemma SubmittedFields(applicationId: string, applicantId: string, amount: real)
    ensures var e := SubmittedEvent(applicationId, applicantId, amount);
      && e.eventType == ApplicationSubmitted
      && Get(e.payload, ApplicantId) == Text(applicantId) && Get(e.payload, RequestedAmount) == Real(amount)
  {
  }

  /** What a submission makes of any loan. */
  function Reset(loan: Loan.Loan, version: nat, applicantId: string, amount: real): Loan.Loan
  {
    loan.(state := Some(Loan.Submitted), version := version, applicantId := Text(applicantId),
          requestedAmount := Real(amount))
  }

  lemma SubmissionResets(loan: Loan.Loan, row: StoredEvent, applicantId: string, amount: real)
    requires row.eventType == ApplicationSubmitted
    requires Get(row.payload, ApplicantId) == Text(applicantId) && Get(row.payload, RequestedAmount) == Real(amount)
    ensures Loan.Apply(loan, row) == Reset(loan, row.streamPosition, applicantId, amount)
  {
  }

  lemma SubmissionAppend(l: Ledger, sid: string, ins: Insert, applicantId: string, amount: real, meta: Metadata)
    requires ins.event.eventType == ApplicationSubmitted
    requires Get(ins.event.payload, ApplicantId) == Text(applicantId)
    requires Get(ins.event.payload, RequestedAmount) == Real(amount)
    ensures var (l', r) := Append(l, sid, [ins], -1, meta);
      && (r.Appended? <==> !Archived(l, sid))
      && var reset := Reset(Loan.Replay(Stream(l, sid)), Version(l, sid) + 1, applicantId, amount);
         r.Appended? ==> Loan.Replay(Stream(l', sid)) == reset
  {
    var row := Row(sid, Version(l, sid) + 1, ins, meta);
    WildcardAppend(l, sid, ins, meta);
    Loan.ReplaySnoc(Stream(l, sid), row);
    SubmissionResets(Loan.Replay(Stream(l, sid)), row, applicantId, amount);
  }

  /** Submitting an application never refuses one that already exists: unless its stream is archived the
      submission is appended and the loan is back in SUBMITTED, whatever state it had reached. */
  lemma ResubmissionResets(l: Ledger, applicationId: string, applicantId: string, amount: real, stamp: Stamp,
                           meta: Metadata)
    ensures var sid := LoanStream(applicationId);
      var (l', r) := Append(l, sid, [Insert(SubmittedEvent(applicationId, applicantId, amount), stamp)], -1, meta);
      && (r.Appended? <==> !Archived(l, sid))
      && var reset := Reset(Loan.Replay(Stream(l, sid)), Version(l, sid) + 1, applicantId, amount);
         r.Appended? ==> Loan.Replay(Stream(l', sid)) == reset
  {
    SubmittedFields(applicationId, applicantId, amount);
    SubmissionAppend(l, LoanStream(applicationId), Insert(SubmittedEvent(applicationId, applicantId, amount), stamp),
                     applicantId, amount, meta);
  }

  lemma ContextLoads(s: Session.Session, row: StoredEvent, model: string)
    requires row.eventType == AgentContextLoaded && Get(row.payload, ModelVersion) == Text(model)
    ensures Session.ContextIsLoaded(Session.Apply(s, row)) && Session.Apply(s, row).modelVersion == Text(model)
  {
  }

  lemma SessionStarts(l: Ledger, agentId: string, sessionId: string, source: string, model: string, tokens: int,
                      stamp: Stamp, meta: Metadata)
    requires Sound(l)
    ensures var sid := AgentStream(agentId, sessionId);
      var (l', r) := Append(l, sid, [Insert(ContextEvent(agentId, sessionId, source, model, tokens), stamp)], -1, meta);
      && (r.Appended? <==> !Archived(l, sid))
      && (r.Appended? ==> Session.ContextIsLoaded(Session.Replay(Stream(l', sid))))
      && (r.Appended? ==> Session.Replay(Stream(l', sid)).modelVersion == Text(model))
  {
    var sid := AgentStream(agentId, sessionId);
    var ins := Insert(ContextEvent(agentId, sessionId, source, model, tokens), stamp);
    WildcardAppend(l, sid, ins, meta);
    var row := Row(sid, Version(l, sid) + 1, ins, meta);
    assert Get(row.payload, ModelVersion) == Text(model);
    FoldSnoc(Session.Apply, Session.NewSession, Stream(l, sid), row);
    ContextLoads(Session.Replay(Stream(l, sid)), row, model);
  }

  lemma EvidenceGrows(log: seq<StoredEvent>, log': seq<StoredEvent>, session: string, app: string)
    requires log <= log' && Evidence(log, session, app)
    ensures Evidence(log', session, app)
  {
    var e :| e in log && Names(e, session, app);
    assert e in log';
  }

  // ---- what guarded logs guarantee ----

  lemma {:induction false} CreditLocks(es: seq<StoredEvent>)
    ensures Loan.Replay(es).creditCompleted <==> exists e :: e in es && e.eventType == CreditAnalysisCompleted
  {
    if es != [] {
      CreditLocks(es[..|es| - 1]);
      assert es == es[..|es| - 1] + [es[|es| - 1]];
    }
  }

  /** A loan stream never holds two credit analyses. */
  lemma AtMostOneCreditAnalysis(log: seq<StoredEvent>, app: string, i: nat, j: nat)
    requires Guarded(log)
    requires i < j < |Filter(log, OnStream(LoanStream(app)))|
    ensures var es := Filter(log, OnStream(LoanStream(app)));
      !(es[i].eventType == CreditAnalysisCompleted && es[j].eventType == CreditAnalysisCompleted)
  {
    var sid := LoanStream(app);
    var es := Filter(log, OnStream(sid));
    if es[j].eventType == CreditAnalysisCompleted {
      var n := FilterIndex(log, OnStream(sid), j);
      assert Justified(log, n);
      CreditLocks(es[..j]);
      assert es[i] == es[..j][i] && es[i] in es[..j];
    }
  }

  function OfType(t: EventType): StoredEvent -> bool
  {
    (e: StoredEvent) => e.eventType == t
  }

  function Count(es: seq<StoredEvent>, t: EventType): nat
  {
    |Filter(es, OfType(t))|
  }

  /** Decisions and reviews of one stream were written in the states the handlers demand. */
  ghost predicate StatesGuarded(es: seq<StoredEvent>)
  {
    forall j | 0 <= j < |es| ::
      && (es[j].eventType == DecisionGenerated ==> Loan.AwaitingDecision(Loan.Replay(es[..j])))
      && (es[j].eventType == HumanReviewCompleted ==> Loan.AwaitingHumanReview(Loan.Replay(es[..j])))
  }

  lemma {:induction false} CountsOfGuardedStates(es: seq<StoredEvent>)
    requires StatesGuarded(es)
    ensures Count(es, HumanReviewCompleted) <= Count(es, DecisionGenerated) <= Count(es, ComplianceClearanceIssued)
    ensures Loan.AwaitingDecision(Loan.Replay(es)) ==>
      Count(es, DecisionGenerated) < Count(es, ComplianceClearanceIssued)
    ensures Loan.AwaitingHumanReview(Loan.Replay(es)) ==> Count(es, HumanReviewCompleted) < Count(es, DecisionGenerated)
  {
    if es != [] {
      var front, last := es[..|es| - 1], es[|es| - 1];
      forall j | 0 <= j < |front|
        ensures front[j].eventType == DecisionGenerated ==> Loan.AwaitingDecision(Loan.Replay(front[..j]))
        ensures front[j].eventType == HumanReviewCompleted ==> Loan.AwaitingHumanReview(Loan.Replay(front[..j]))
      {
        assert front[..j] == es[..j] && front[j] == es[j];
      }
      CountsOfGuardedStates(front);
      assert Loan.Replay(es) == Loan.Apply(Loan.Replay(front), last);
    }
  }

  /** In every prefix of a loan stream, reviews never outnumber decisions and decisions
      never outnumber clearances. */
  lemma ReviewsDecisionsClearances(log: seq<StoredEvent>, app: string, k: nat)
    requires Guarded(log)
    requires k <= |Filter(log, OnStream(LoanStream(app)))|
    ensures var es := Filter(log, OnStream(LoanStream(app)))[..k];
      Count(es, HumanReviewCompleted) <= Count(es, DecisionGenerated) <= Count(es, ComplianceClearanceIssued)
  {
    var all := Filter(log, OnStream(LoanStream(app)));
    var es := all[..k];
    forall j | 0 <= j < |es|
      ensures es[j].eventType == DecisionGenerated ==> Loan.AwaitingDecision(Loan.Replay(es[..j]))
      ensures es[j].eventType == HumanReviewCompleted ==> Loan.AwaitingHumanReview(Loan.Replay(es[..j]))
    {
      var n := FilterIndex(log, OnStream(LoanStream(app)), j);
      assert es[..j] == all[..j];
      assert Justified(log, n);
    }
    CountsOfGuardedStates(es);
  }
}
