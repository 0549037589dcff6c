/** The command handlers as the code runs them: load, validate, append, with other writers
    free to commit at every await in between. */
module Handlers {
  import opened Events
  import opened Sequences
  import opened EventLog
  import opened Upcasting
  import opened Store
  import opened Commands
  import Loan = LoanApplication
  import Session = AgentSession
  import Compliance = ComplianceRecord

  datatype Reason =
    | MissingPayloadKey
    | WrongState
    | ContextNotLoaded
    | ModelMismatch
    | CreditLocked
    | BelowConfidenceFloor
    | NotCleared
    | BrokenCausalChain(invalid: seq<string>)
    | InvalidRecommendation
    | ConfidenceOutOfRange
    | FraudScoreOutOfRange
    | OverrideNeedsReason
    | NotInRegulationSet

  datatype Outcome = Done(version: nat) | Refused(reason: Reason) | StoreRefused(error: AppendResult)

  function FromStore(r: AppendResult): Outcome
  {
    if r.Appended? then Done(r.version) else StoreRefused(r)
  }

  ghost predicate Ready(store: EventStore)
    reads store
  {
    store.Valid() && Guarded(store.events) && store.upcasters == Registered()
  }

  /** The row an accepted one-event command leaves at its stream position. */
  ghost predicate Wrote(log: seq<StoredEvent>, from: nat, sid: string, position: int, event: NewEvent)
  {
    exists n :: from <= n < |log| && log[n].streamId == sid && log[n].streamPosition == position
      && log[n].eventType == event.eventType && log[n].version == event.version && log[n].payload == event.payload
  }

  lemma WroteStays(log: seq<StoredEvent>, log': seq<StoredEvent>, from: nat, from': nat, sid: string, position: int,
                   event: NewEvent)
    requires log <= log' && from' <= from && Wrote(log, from, sid, position, event)
    ensures Wrote(log', from', sid, position, event)
  {
    var n :| from <= n < |log| && log[n].streamId == sid && log[n].streamPosition == position
      && log[n].eventType == event.eventType && log[n].version == event.version && log[n].payload == event.payload;
    assert log'[n] == log[n];
  }

  /** What other writers may have done at an await: appended events, each justified. */
  method Await(store: EventStore, ghost start: Ledger)
    requires Ready(store) && Extends(start, store.State())
    modifies store`events, store`streams, store`outbox
    ensures Ready(store) && Extends(old(store.State()), store.State()) && Extends(start, store.State())
  {
  }

  /** One event appended on behalf of a handler that began at start. */
  method AppendOne(store: EventStore, sid: string, event: NewEvent, stamp: Stamp, expected: int, ghost start: Ledger)
    returns (r: AppendResult)
    requires Ready(store) && Extends(start, store.State())
    requires Guarded(Append(store.State(), sid, [Insert(event, stamp)], expected, NoMeta).0.events)
    modifies store`events, store`streams, store`outbox
    ensures Ready(store) && Extends(start, store.State())
    ensures store.State() == Append(old(store.State()), sid, [Insert(event, stamp)], expected, NoMeta).0
    ensures r == Append(old(store.State()), sid, [Insert(event, stamp)], expected, NoMeta).1
    ensures r.Appended? ==> Wrote(store.events, |start.events|, sid, r.version, event)
    ensures r.Appended? && expected >= 0 ==> r.version == expected + 1
    ensures !r.Appended? && expected >= 0 ==> Moved(store.State(), sid, expected)
  {
    ghost var before := store.State();
    if expected >= 0 {
      RefusedMeansMoved(before, sid, Insert(event, stamp), expected, NoMeta);
    }
    r := store.Append(sid, [Insert(event, stamp)], expected, None, None);
    ExtendsTransitive(start, before, store.State());
    if r.Appended? {
      ghost var rows := Rows(sid, Admit(before, sid, expected).version, [Insert(event, stamp)], NoMeta);
      assert store.events == before.events + rows;
      assert store.events[|before.events|].streamId == sid;
    }
  }

  /** The outcome of one event appended at -1: the next version, unless the stream is archived. */
  function AtWildcard(l: Ledger, sid: string): Outcome
  {
    if Archived(l, sid) then StoreRefused(StreamArchived) else Done(Version(l, sid) + 1)
  }

  /** One event appended at -1. */
  method AppendAtWildcard(store: EventStore, sid: string, event: NewEvent, stamp: Stamp) returns (r: Outcome)
    requires Ready(store) && ForeignTo(sid, [Insert(event, stamp)])
    modifies store`events, store`streams, store`outbox
    ensures Ready(store) && Extends(old(store.State()), store.State())
    ensures store.State() == Append(old(store.State()), sid, [Insert(event, stamp)], -1, NoMeta).0
    ensures r == AtWildcard(old(store.State()), sid)
    ensures r.Done? ==> Wrote(store.events, |old(store.events)|, sid, r.version, event)
  {
    ghost var l := store.State();
    ForeignAppend(l, sid, [Insert(event, stamp)], -1, NoMeta);
    WildcardAppend(l, sid, Insert(event, stamp), NoMeta);
    var a := store.Append(sid, [Insert(event, stamp)], -1, None, None);
    r := FromStore(a);
    if a.Appended? {
      assert store.events == l.events + Rows(sid, Version(l, sid), [Insert(event, stamp)], NoMeta);
      assert store.events[|l.events|].streamId == sid;
    }
  }

  /** Always appends at -1, so an existing application is resubmitted rather than refused. */
  method HandleSubmitApplication(store: EventStore, applicationId: string, applicantId: string, amount: real,
                                 stamp: Stamp)
    returns (r: Outcome)
    requires Ready(store)
    modifies store`events, store`streams, store`outbox
    ensures Ready(store) && Extends(old(store.State()), store.State())
    ensures r == AtWildcard(old(store.State()), LoanStream(applicationId))
    ensures r.Done? ==>
      Wrote(store.events, |old(store.events)|, LoanStream(applicationId), r.version,
            NewEvent(ApplicationSubmitted, 1, map[ApplicationId := Text(applicationId),
              ApplicantId := Text(applicantId), RequestedAmount := Real(amount)]))
    ensures r.Done? ==>
      var loan := Loan.Replay(Stream(store.State(), LoanStream(applicationId)));
      && loan.state == Some(Loan.Submitted) && loan.version == r.version
      && loan.applicantId == Text(applicantId) && loan.requestedAmount == Real(amount)
  {
    ResubmissionResets(store.State(), applicationId, applicantId, amount, stamp, NoMeta);
    r := AppendAtWildcard(store, LoanStream(applicationId), SubmittedEvent(applicationId, applicantId, amount), stamp);
  }

  method HandleStartAgentSession(store: EventStore, agentId: string, sessionId: string, source: string,
                                 model: string, tokens: int, stamp: Stamp) returns (r: Outcome)
    requires Ready(store)
    modifies store`events, store`streams, store`outbox
    ensures Ready(store) && Extends(old(store.State()), store.State())
    ensures r == AtWildcard(old(store.State()), AgentStream(agentId, sessionId))
    ensures r.Done? ==>
      Wrote(store.events, |old(store.events)|, AgentStream(agentId, sessionId), r.version,
            NewEvent(AgentContextLoaded, 1, map[AgentId := Text(agentId), SessionId := Text(sessionId),
              ContextSource := Text(source), ContextTokenCount := Int(tokens), ModelVersion := Text(model)]))
    ensures r.Done? ==> var s := Session.Replay(Stream(store.State(), AgentStream(agentId, sessionId)));
      s.contextLoaded && s.modelVersion == Text(model)
  {
    SessionStarts(store.State(), agentId, sessionId, source, model, tokens, stamp, NoMeta);
    r := AppendAtWildcard(store, AgentStream(agentId, sessionId),
                          ContextEvent(agentId, sessionId, source, model, tokens), stamp);
  }

  /** The first guard of the credit handler that fails. */
  function CreditRefusal(loan: Loan.Loan, session: Session.Session, model: string): Option<Reason>
  {
    if loan.state != Some(Loan.AwaitingAnalysis) then Some(WrongState)
    else if !session.contextLoaded then Some(ContextNotLoaded)
    else if session.modelVersion != Null && session.modelVersion != Text(model) then Some(ModelMismatch)
    else if loan.creditCompleted then Some(CreditLocked)
    else None
  }

  /** What the guards make of the loan as first read and the session as read after it. */
  ghost predicate CreditVerdict(r: Outcome, loan: seq<StoredEvent>, session: seq<StoredEvent>, model: string)
  {
    if !Loan.Loadable(loan) || !Session.Loadable(session) then r == Refused(MissingPayloadKey)
    else
      var refusal := CreditRefusal(Loan.Replay(loan), Session.Replay(session), model);
      if refusal.Some? then r == Refused(refusal.value) else !r.Refused?
  }

  /** What became of the two writes of the credit handler: the analysis was refused and the loan stream has moved; or it
      stands right behind the version read, and late is what became of the fraud request at the version behind it. */
  ghost predicate CreditWritten(r: Outcome, late: Option<Outcome>, start: Ledger, now: Ledger, cmd: CreditCommand,
                                version: nat)
  {
    var sid := LoanStream(cmd.applicationId);
    match late
    case None => r.StoreRefused? && Moved(now, sid, version)
    case Some(request) =>
      && r == request && !request.Refused?
      && Version(now, sid) > version
      && Wrote(now.events, |start.events|, sid, version + 1,
               NewEvent(CreditAnalysisCompleted, 2, map[ApplicationId := Text(cmd.applicationId),
                 AgentId := Text(cmd.agentId), SessionId := Text(cmd.sessionId),
                 ModelVersion := Text(cmd.modelVersion), ConfidenceScore := Real(cmd.confidence),
                 RiskTier := Text(cmd.riskTier), RecommendedLimit := Real(cmd.recommendedLimit),
                 AnalysisDuration := Int(cmd.durationMs), RegulatoryBasis := Null]))
      && (request.StoreRefused? ==> Moved(now, sid, version + 1))
      && (request.Done? ==>
            && request.version == version + 2
            && Wrote(now.events, |start.events|, sid, version + 2,
                     NewEvent(FraudScreeningRequested, 1, map[ApplicationId := Text(cmd.applicationId)])))
  }

  /** Two appends: the analysis at the validated version, then the fraud request right behind it. The guards refuse
      exactly as CreditVerdict says; past them late exists exactly when the analysis was written, and the analysis
      stays whatever became of the request. */
  method HandleCreditAnalysisCompleted(store: EventStore, cmd: CreditCommand, stamp: Stamp, stamp2: Stamp)
    returns (r: Outcome, ghost late: Option<Outcome>, ghost sessionSeen: Ledger)
    requires Ready(store)
    modifies store`events, store`streams, store`outbox
    ensures Ready(store) && Extends(old(store.State()), store.State())
    ensures Extends(old(store.State()), sessionSeen) && Extends(sessionSeen, store.State())
    ensures CreditVerdict(r, old(Stream(store.State(), LoanStream(cmd.applicationId))),
                          Stream(sessionSeen, AgentStream(cmd.agentId, cmd.sessionId)), cmd.modelVersion)
    ensures !r.Refused? ==>
      CreditWritten(r, late, old(store.State()), store.State(), cmd,
                    old(Version(store.State(), LoanStream(cmd.applicationId))))
  {
    var sid := LoanStream(cmd.applicationId);
    ghost var seen := store.State();
    sessionSeen, late := seen, None;
    ExtendsReflexive(seen);
    LoadedVersionIsStreamVersion(seen, sid);
    var app := Loan.LoanApplicationAggregate.Load(store, cmd.applicationId);
    if app == null { return Refused(MissingPayloadKey), late, sessionSeen; }
    Await(store, seen);
    sessionSeen := store.State();
    ExtendsReflexive(sessionSeen);
    var agent := Session.AgentSessionAggregate.Load(store, cmd.agentId, cmd.sessionId);
    if agent == null { return Refused(MissingPayloadKey), late, sessionSeen; }
    Await(store, sessionSeen);
    ExtendsTransitive(seen, sessionSeen, store.State());
    if !Loan.AwaitingCreditAnalysis(app.Model()) { return Refused(WrongState), late, sessionSeen; }
    if !Session.ContextIsLoaded(agent.Model()) { return Refused(ContextNotLoaded), late, sessionSeen; }
    if !Session.ModelIsCurrent(agent.Model(), cmd.modelVersion) { return Refused(ModelMismatch), late, sessionSeen; }
    if !Loan.CreditNotLocked(app.Model()) { return Refused(CreditLocked), late, sessionSeen; }
    r, late := WriteCredit(store, cmd, app.version, stamp, stamp2, seen, sessionSeen);
  }

  /** The guards of the credit handler passed on the loan as first read and the session as read after it. */
  ghost predicate CreditValidated(cmd: CreditCommand, seen: Ledger, sessionSeen: Ledger)
  {
    && Sound(seen) && Extends(seen, sessionSeen)
    && CreditRefusal(Loan.Replay(Stream(seen, LoanStream(cmd.applicationId))),
                     Session.Replay(Stream(sessionSeen, AgentStream(cmd.agentId, cmd.sessionId))),
                     cmd.modelVersion).None?
  }

  /** The append of the analysis, once the guards have passed. */
  method WriteAnalysis(store: EventStore, cmd: CreditCommand, version: nat, stamp: Stamp, ghost seen: Ledger,
                       ghost sessionSeen: Ledger)
    returns (a: AppendResult)
    requires Ready(store) && Extends(sessionSeen, store.State()) && CreditValidated(cmd, seen, sessionSeen)
    requires version == Version(seen, LoanStream(cmd.applicationId))
    modifies store`events, store`streams, store`outbox
    ensures Ready(store) && Extends(sessionSeen, store.State())
    ensures a.Appended? ==> a.version == version + 1 == Version(store.State(), LoanStream(cmd.applicationId))
    ensures a.Appended? ==>
      Wrote(store.events, |sessionSeen.events|, LoanStream(cmd.applicationId), a.version, CreditEvent(cmd))
    ensures !a.Appended? ==> Moved(store.State(), LoanStream(cmd.applicationId), version)
  {
    ExtendsTransitive(seen, sessionSeen, store.State());
    CreditAppend(seen, sessionSeen, store.State(), cmd, stamp, NoMeta);
    a := AppendOne(store, LoanStream(cmd.applicationId), CreditEvent(cmd), stamp, version, sessionSeen);
  }

  /** The two appends of the credit handler, once its guards have passed. */
  method WriteCredit(store: EventStore, cmd: CreditCommand, version: nat, stamp: Stamp, stamp2: Stamp,
                     ghost seen: Ledger, ghost sessionSeen: Ledger)
    returns (r: Outcome, ghost late: Option<Outcome>)
    requires Ready(store) && Extends(sessionSeen, store.State()) && CreditValidated(cmd, seen, sessionSeen)
    requires version == Version(seen, LoanStream(cmd.applicationId))
    modifies store`events, store`streams, store`outbox
    ensures Ready(store) && Extends(sessionSeen, store.State()) && Extends(seen, store.State())
    ensures !r.Refused? && CreditWritten(r, late, seen, store.State(), cmd, version)
  {
    var a := WriteAnalysis(store, cmd, version, stamp, seen, sessionSeen);
    ghost var written := store.State();
    ExtendsTransitive(seen, sessionSeen, written);
    if !a.Appended? {
      return StoreRefused(a), None;
    }
    WroteStays(written.events, written.events, |sessionSeen.events|, |seen.events|, LoanStream(cmd.applicationId),
               a.version, CreditEvent(cmd));
    r := WriteRequest(store, cmd, version, stamp2, seen);
    late := Some(r);
    ExtendsTransitive(sessionSeen, written, store.State());
    ExtendsTransitive(seen, written, store.State());
  }

  /** The second append, behind the analysis. */
  method WriteRequest(store: EventStore, cmd: CreditCommand, version: nat, stamp: Stamp, ghost seen: Ledger)
    returns (r: Outcome)
    requires Ready(store) && Extends(seen, store.State())
    requires Version(store.State(), LoanStream(cmd.applicationId)) == version + 1
    requires Wrote(store.events, |seen.events|, LoanStream(cmd.applicationId), version + 1, CreditEvent(cmd))
    modifies store`events, store`streams, store`outbox
    ensures Ready(store) && Extends(old(store.State()), store.State())
    ensures !r.Refused? && CreditWritten(r, Some(r), seen, store.State(), cmd, version)
  {
    ghost var written := store.State();
    ExtendsReflexive(written);
    Await(store, written);
    r := RequestScreening(store, cmd.applicationId, version + 1, stamp, written);
    BothWritten(seen, written, store.State(), cmd, version, r);
  }

  /** What holds right behind the analysis still holds at the end. */
  lemma BothWritten(seen: Ledger, written: Ledger, now: Ledger, cmd: CreditCommand, version: nat, r: Outcome)
    requires Extends(seen, written) && Extends(written, now) && !r.Refused?
    requires Version(written, LoanStream(cmd.applicationId)) == version + 1
    requires Wrote(written.events, |seen.events|, LoanStream(cmd.applicationId), version + 1, CreditEvent(cmd))
    requires r.StoreRefused? ==> Moved(now, LoanStream(cmd.applicationId), version + 1)
    requires r.Done? ==> r.version == version + 2
    requires r.Done? ==>
      Wrote(now.events, |written.events|, LoanStream(cmd.applicationId), r.version, FraudRequest(cmd.applicationId))
    ensures CreditWritten(r, Some(r), seen, now, cmd, version)
  {
    WroteStays(written.events, now.events, |seen.events|, |seen.events|, LoanStream(cmd.applicationId), version + 1,
               CreditEvent(cmd));
    assert Version(written, LoanStream(cmd.applicationId)) <= Version(now, LoanStream(cmd.applicationId));
    if r.Done? {
      WroteStays(now.events, now.events, |written.events|, |seen.events|, LoanStream(cmd.applicationId), r.version,
                 FraudRequest(cmd.applicationId));
    }
  }

  /** The fraud request behind the analysis, at the version the analysis got. */
  method RequestScreening(store: EventStore, applicationId: string, version: nat, stamp: Stamp, ghost start: Ledger)
    returns (r: Outcome)
    requires Ready(store) && Extends(start, store.State())
    modifies store`events, store`streams, store`outbox
    ensures Ready(store) && Extends(start, store.State())
    ensures !r.Refused?
    ensures r.StoreRefused? ==> Moved(store.State(), LoanStream(applicationId), version)
    ensures r.Done? ==> r.version == version + 1
    ensures r.Done? ==>
      Wrote(store.events, |start.events|, LoanStream(applicationId), r.version, FraudRequest(applicationId))
  {
    var request := FraudRequest(applicationId);
    ForeignAppend(store.State(), LoanStream(applicationId), [Insert(request, stamp)], version, NoMeta);
    var b := AppendOne(store, LoanStream(applicationId), request, stamp, version, start);
    r := FromStore(b);
  }

  /** The first refusal before the screening is written: the session guards on the session as read, then the
      range check of the event's score. */
  function ScreeningRefusal(session: seq<StoredEvent>, model: string, fraudScore: real): Option<Reason>
  {
    if !Session.Loadable(session) then Some(MissingPayloadKey)
    else if !Session.Replay(session).contextLoaded then Some(ContextNotLoaded)
    else if Session.Replay(session).modelVersion !in {Null, Text(model)} then Some(ModelMismatch)
    else if !(0.0 <= fraudScore <= 1.0) then Some(FraudScoreOutOfRange)
    else None
  }

  const DefaultChecks := ["AML-001", "KYC-002"]

  /** What becomes of the compliance request, given the loan as read for it: an unloadable loan refuses, a loan in
      COMPLIANCE_REVIEW is left alone, and from every other state one request is appended at the
      next version unless the loan stream has moved. */
  ghost predicate ComplianceVerdict(r: Outcome, seen: Ledger, now: Ledger, applicationId: string)
  {
    var sid := LoanStream(applicationId);
    var rows := Stream(seen, sid);
    if !Loan.Loadable(rows) then r == Refused(MissingPayloadKey)
    else if Loan.Replay(rows).state == Some(Loan.ComplianceReview) then r == Done(Version(seen, sid))
    else
      && !r.Refused?
      && (r.StoreRefused? ==> Moved(now, sid, Version(seen, sid)))
      && (r.Done? ==>
            && r.version == Version(seen, sid) + 1
            && Wrote(now.events, |seen.events|, sid, r.version,
                     NewEvent(ComplianceCheckRequested, 1, map[ApplicationId := Text(applicationId),
                       ChecksRequired := List([Text("AML-001"), Text("KYC-002")])])))
  }

  /** Whether the compliance request writes nothing. */
  ghost predicate NothingToRequest(seen: Ledger, applicationId: string)
  {
    var rows := Stream(seen, LoanStream(applicationId));
    !Loan.Loadable(rows) || Loan.Replay(rows).state == Some(Loan.ComplianceReview)
  }

  /** The append of the screening. */
  method WriteScreening(store: EventStore, sid: string, event: NewEvent, version: nat, stamp: Stamp,
                        ghost start: Ledger)
    returns (a: AppendResult)
    requires Ready(store) && Extends(start, store.State()) && event.eventType == FraudScreeningCompleted
    modifies store`events, store`streams, store`outbox
    ensures Ready(store) && Extends(start, store.State())
    ensures a.Appended? ==> a.version == version + 1 && Wrote(store.events, |start.events|, sid, a.version, event)
    ensures !a.Appended? ==> Moved(store.State(), sid, version)
  {
    ForeignAppend(store.State(), sid, [Insert(event, stamp)], version, NoMeta);
    a := AppendOne(store, sid, event, stamp, version, start);
  }

  /** The loan-stream half of the fraud handler; its only guard is the idempotence test. */
  method RequestCompliance(store: EventStore, applicationId: string, stamp: Stamp) returns (r: Outcome)
    requires Ready(store)
    modifies store`events, store`streams, store`outbox
    ensures Ready(store) && Extends(old(store.State()), store.State())
    ensures ComplianceVerdict(r, old(store.State()), store.State(), applicationId)
    ensures NothingToRequest(old(store.State()), applicationId) ==> store.State() == old(store.State())
  {
    ghost var seen := store.State();
    ExtendsReflexive(seen);
    LoadedVersionIsStreamVersion(seen, LoanStream(applicationId));
    var app := Loan.LoanApplicationAggregate.Load(store, applicationId);
    if app == null { return Refused(MissingPayloadKey); }
    if app.state == Some(Loan.ComplianceReview) { return Done(app.version); }
    Await(store, seen);
    var request := ComplianceRequest(applicationId, DefaultChecks);
    ForeignAppend(store.State(), LoanStream(applicationId), [Insert(request, stamp)], app.version, NoMeta);
    assert Texts(DefaultChecks) == [Text("AML-001"), Text("KYC-002")];
    var b := AppendOne(store, LoanStream(applicationId), request, stamp, app.version, seen);
    r := FromStore(b);
  }

  /** The screening is on its stream right behind the version that was read, and stays there. */
  ghost predicate Screened(start: Ledger, loanSeen: Ledger, now: Ledger, sid: string, event: NewEvent, version: nat)
  {
    && Wrote(now.events, |start.events|, sid, version + 1, event)
    && Extends(start, loanSeen) && Extends(loanSeen, now)
  }

  ghost predicate Requested(r: Outcome, loanSeen: Ledger, now: Ledger, applicationId: string)
  {
    && ComplianceVerdict(r, loanSeen, now, applicationId)
    && (NothingToRequest(loanSeen, applicationId) ==> now == loanSeen)
  }

  /** What became of the two writes: the screening was refused and its stream has moved; or it is on its stream, and
      late is what became of the request, which decides the result. */
  ghost predicate FraudWritten(r: Outcome, late: Option<Outcome>, start: Ledger, loanSeen: Ledger, now: Ledger,
                               applicationId: string, sid: string, event: NewEvent, version: nat)
  {
    match late
    case None => r.StoreRefused? && Moved(now, sid, version)
    case Some(request) =>
      && Screened(start, loanSeen, now, sid, event, version)
      && Requested(request, loanSeen, now, applicationId)
      && r == if request.Done? then Done(version + 1) else request
  }

  /** The two writes of the fraud handler: the screening at the loaded version, then the request. */
  method WriteFraud(store: EventStore, applicationId: string, sid: string, event: NewEvent, version: nat, stamp: Stamp,
                    stamp2: Stamp, ghost start: Ledger)
    returns (r: Outcome, ghost late: Option<Outcome>, ghost loanSeen: Ledger)
    requires Ready(store) && Extends(start, store.State()) && event.eventType == FraudScreeningCompleted
    modifies store`events, store`streams, store`outbox
    ensures Ready(store) && Extends(start, store.State())
    ensures FraudWritten(r, late, start, loanSeen, store.State(), applicationId, sid, event, version)
  {
    var a := WriteScreening(store, sid, event, version, stamp, start);
    ghost var written := store.State();
    if !a.Appended? { return StoreRefused(a), None, start; }
    Await(store, start);
    loanSeen := store.State();
    WroteStays(written.events, loanSeen.events, |start.events|, |start.events|, sid, a.version, event);
    var request := RequestCompliance(store, applicationId, stamp2);
    ExtendsTransitive(start, loanSeen, store.State());
    WroteStays(loanSeen.events, store.events, |start.events|, |start.events|, sid, a.version, event);
    late := Some(request);
    r := if request.Done? then Done(a.version) else request;
  }

  /** Loads the session and evaluates its guards, and the range check of the event built from the command. */
  method CheckScreening(store: EventStore, agentId: string, sessionId: string, model: string, fraudScore: real)
    returns (refusal: Option<Reason>, version: nat)
    requires Ready(store)
    modifies store`events, store`streams, store`outbox
    ensures Ready(store) && Extends(old(store.State()), store.State())
    ensures refusal == ScreeningRefusal(old(Stream(store.State(), AgentStream(agentId, sessionId))), model, fraudScore)
    ensures refusal.None? ==> version == old(Version(store.State(), AgentStream(agentId, sessionId)))
  {
    ghost var seen := store.State();
    ExtendsReflexive(seen);
    LoadedVersionIsStreamVersion(seen, AgentStream(agentId, sessionId));
    var agent := Session.AgentSessionAggregate.Load(store, agentId, sessionId);
    if agent == null { return Some(MissingPayloadKey), 0; }
    version := agent.version;
    Await(store, seen);
    if !Session.ContextIsLoaded(agent.Model()) { return Some(ContextNotLoaded), version; }
    if !Session.ModelIsCurrent(agent.Model(), model) { return Some(ModelMismatch), version; }
    if fraudScore < 0.0 || fraudScore > 1.0 { return Some(FraudScoreOutOfRange), version; }
    refusal := None;
  }

  /** Writes the screening on the session stream, then requests compliance on the loan stream. late is the
      outcome of that request, with the loan as read in loanSeen; it exists exactly when the screening was
      written, and the screening stays whatever it is. */
  method HandleFraudScreeningCompleted(store: EventStore, applicationId: string, agentId: string, sessionId: string,
                                       fraudScore: real, model: string, stamp: Stamp, stamp2: Stamp)
    returns (r: Outcome, ghost late: Option<Outcome>, ghost loanSeen: Ledger)
    requires Ready(store)
    modifies store`events, store`streams, store`outbox
    ensures Ready(store) && Extends(old(store.State()), store.State())
    ensures var sid := AgentStream(agentId, sessionId);
      var refusal := ScreeningRefusal(old(Stream(store.State(), sid)), model, fraudScore);
      if refusal.Some? then r == Refused(refusal.value) && late.None?
      else FraudWritten(r, late, old(store.State()), loanSeen, store.State(), applicationId, sid,
                        NewEvent(FraudScreeningCompleted, 1, map[ApplicationId := Text(applicationId),
                          AgentId := Text(agentId), FraudScore := Real(fraudScore)]),
                        old(Version(store.State(), sid)))
  {
    ghost var seen := store.State();
    var refusal, version := CheckScreening(store, agentId, sessionId, model, fraudScore);
    if refusal.Some? { return Refused(refusal.value), None, seen; }
    r, late, loanSeen := WriteFraud(store, applicationId, AgentStream(agentId, sessionId),
                                    FraudEvent(applicationId, agentId, fraudScore), version, stamp, stamp2, seen);
  }

  method HandleRequestComplianceCheck(store: EventStore, applicationId: string, checks: seq<string>, stamp: Stamp)
    returns (r: Outcome)
    requires Ready(store)
    modifies store`events, store`streams, store`outbox
    ensures Ready(store) && Extends(old(store.State()), store.State())
    ensures var loan := old(Stream(store.State(), LoanStream(applicationId)));
      if !Loan.Loadable(loan) then r == Refused(MissingPayloadKey)
      else if Loan.Replay(loan).state !in {Some(Loan.ComplianceReview), Some(Loan.AnalysisComplete)}
      then r == Refused(WrongState)
      else !r.Refused?
    ensures r.StoreRefused? ==>
      Moved(store.State(), LoanStream(applicationId), old(Version(store.State(), LoanStream(applicationId))))
    ensures r.Done? ==>
      var seen := Loan.Replay(old(Stream(store.State(), LoanStream(applicationId))));
      || (seen.state == Some(Loan.ComplianceReview) && r.version == seen.version)
      || (seen.state == Some(Loan.AnalysisComplete) && r.version == seen.version + 1
          && Wrote(store.events, |old(store.events)|, LoanStream(applicationId), r.version,
                   NewEvent(ComplianceCheckRequested, 1, map[ApplicationId := Text(applicationId),
                     ChecksRequired := List(Texts(checks))])))
  {
    ghost var seen := store.State();
    var sid := LoanStream(applicationId);
    LoadedVersionIsStreamVersion(seen, sid);
    var app := Loan.LoanApplicationAggregate.Load(store, applicationId);
    if app == null { return Refused(MissingPayloadKey); }
    if app.state == Some(Loan.ComplianceReview) { return Done(app.version); }
    if app.state != Some(Loan.AnalysisComplete) { return Refused(WrongState); }
    Await(store, seen);
    var event := ComplianceRequest(applicationId, checks);
    ForeignAppend(store.State(), sid, [Insert(event, stamp)], app.version, NoMeta);
    var a := AppendOne(store, sid, event, stamp, app.version, seen);
    r := FromStore(a);
  }

  method HandleRecordComplianceRule(store: EventStore, applicationId: string, ruleId: string, ruleVersion: string,
                                    passed: bool, failureReason: string, remediation: bool, evidence: string,
                                    stamp: Stamp)
    returns (r: Outcome)
    requires Ready(store)
    modifies store`events, store`streams, store`outbox
    ensures Ready(store) && Extends(old(store.State()), store.State())
    ensures var record := old(Stream(store.State(), ComplianceStream(applicationId)));
      if !Compliance.Loadable(record) then r == Refused(MissingPayloadKey)
      else if Compliance.Replay(record).requiredChecks != []
              && Text(ruleId) !in Compliance.Replay(record).requiredChecks
      then r == Refused(NotInRegulationSet)
      else !r.Refused?
    ensures r.StoreRefused? ==>
      Moved(store.State(), ComplianceStream(applicationId),
            old(Version(store.State(), ComplianceStream(applicationId))))
    ensures r.Done? ==> var seen := Compliance.Replay(old(Stream(store.State(), ComplianceStream(applicationId))));
      && r.version == seen.version + 1
      && Wrote(store.events, |old(store.events)|, ComplianceStream(applicationId), r.version,
               if passed then
                 NewEvent(ComplianceRulePassed, 1, map[ApplicationId := Text(applicationId), RuleId := Text(ruleId),
                   RuleVersion := Text(ruleVersion), EvidenceHash := Text(evidence)])
               else
                 NewEvent(ComplianceRuleFailed, 1, map[ApplicationId := Text(applicationId), RuleId := Text(ruleId),
                   RuleVersion := Text(ruleVersion), FailureReason := Text(failureReason),
                   RemediationRequired := Flag(remediation)]))
  {
    ghost var seen := store.State();
    var sid := ComplianceStream(applicationId);
    LoadedVersionIsStreamVersion(seen, sid);
    var record := Compliance.ComplianceRecordAggregate.Load(store, applicationId);
    if record == null { return Refused(MissingPayloadKey); }
    if !Compliance.RuleInRegulationSet(record.Model(), Text(ruleId)) { return Refused(NotInRegulationSet); }
    Await(store, seen);
    var event := RuleEvent(applicationId, ruleId, ruleVersion, passed, failureReason, remediation, evidence);
    StreamKindsDisjoint("", applicationId, "");
    ForeignAppend(store.State(), sid, [Insert(event, stamp)], record.version, NoMeta);
    var a := AppendOne(store, sid, event, stamp, record.version, seen);
    r := FromStore(a);
  }

  /** Some event of the application's loan stream names the session. */
  ghost predicate NamedByLoan(log: seq<StoredEvent>, session: string, app: string)
  {
    exists e :: e in log && e.streamId == LoanStream(app) && NamesSession(e.payload, session)
  }

  /** Some event of the session's own stream names the application. */
  ghost predicate NamedByItself(log: seq<StoredEvent>, session: string, app: string)
  {
    exists e :: e in log && e.streamId == session && Get(e.payload, ApplicationId) == Text(app)
  }

  lemma EvidenceIsEither(log: seq<StoredEvent>, session: string, app: string)
    ensures Evidence(log, session, app) <==> NamedByLoan(log, session, app) || NamedByItself(log, session, app)
  {
    if NamedByLoan(log, session, app) {
      var e :| e in log && e.streamId == LoanStream(app) && NamesSession(e.payload, session);
      assert Names(e, session, app);
    }
    if NamedByItself(log, session, app) {
      var e :| e in log && e.streamId == session && Get(e.payload, ApplicationId) == Text(app);
      assert Names(e, session, app);
    }
  }

  ghost predicate RowsName(rows: seq<StoredEvent>, n: nat, session: string)
    requires n <= |rows|
  {
    exists k :: 0 <= k < n && NamesSession(rows[k].payload, session)
  }

  method SessionsNamedIn(events: seq<StoredEvent>) returns (sessions: set<string>)
    ensures forall s :: s in sessions <==> RowsName(events, |events|, s)
  {
    sessions := {};
    for i := 0 to |events|
      invariant forall s :: s in sessions <==> RowsName(events, i, s)
    {
      var p := events[i].payload;
      ghost var before := sessions;
      if IsName(Get(p, AgentId)) && IsName(Get(p, SessionId)) {
        sessions := sessions + {AgentStream(p[AgentId].s, p[SessionId].s)};
      }
      forall s ensures s in sessions <==> RowsName(events, i + 1, s) {
        assert s in sessions <==> s in before || NamesSession(events[i].payload, s);
      }
    }
  }

  lemma UpcastKeepsNames(rows: seq<StoredEvent>, session: string, app: string)
    ensures var loaded := MigratedAll(Registered(), rows);
      && (RowsName(loaded, |loaded|, session) <==> RowsName(rows, |rows|, session))
      && (RowsAbout(loaded, |loaded|, app) <==> RowsAbout(rows, |rows|, app))
  {
    var loaded := MigratedAll(Registered(), rows);
    forall k | 0 <= k < |rows|
      ensures NamesSession(loaded[k].payload, session) <==> NamesSession(rows[k].payload, session)
      ensures Get(loaded[k].payload, ApplicationId) == Get(rows[k].payload, ApplicationId)
    {
      UpcastKeepsName(rows[k], session);
    }
  }

  lemma UpcastKeepsName(e: StoredEvent, session: string)
    ensures NamesSession(Migrated(Registered(), e).payload, session) <==> NamesSession(e.payload, session)
    ensures Get(Migrated(Registered(), e).payload, ApplicationId) == Get(e.payload, ApplicationId)
  {
    RegisteredUpcast(e);
  }

  /** The first scan of BR-6: exactly the sessions the loan stream names. */
  method LoanSessions(store: EventStore, applicationId: string) returns (sessions: set<string>)
    requires Ready(store)
    ensures forall s :: s in sessions <==> NamedByLoan(store.events, s, applicationId)
  {
    var loanEvents := store.LoadStream(LoanStream(applicationId), 0, None);
    sessions := SessionsNamedIn(loanEvents);
    forall s ensures s in sessions <==> NamedByLoan(store.events, s, applicationId) {
      UpcastKeepsNames(Stream(store.State(), LoanStream(applicationId)), s, applicationId);
      RowsNameSession(store.events, s, applicationId);
    }
  }

  lemma RowsNameSession(log: seq<StoredEvent>, session: string, app: string)
    ensures var rows := Filter(log, OnStream(LoanStream(app)));
      RowsName(rows, |rows|, session) <==> NamedByLoan(log, session, app)
  {
    var rows := Filter(log, OnStream(LoanStream(app)));
    FilterMembers(log, OnStream(LoanStream(app)));
    if NamedByLoan(log, session, app) {
      var e :| e in log && e.streamId == LoanStream(app) && NamesSession(e.payload, session);
      assert e in rows;
    }
    if RowsName(rows, |rows|, session) {
      var k :| 0 <= k < |rows| && NamesSession(rows[k].payload, session);
      assert rows[k] in rows;
    }
  }

  method AnyAbout(events: seq<StoredEvent>, applicationId: string) returns (found: bool)
    ensures found <==> RowsAbout(events, |events|, applicationId)
  {
    for i := 0 to |events|
      invariant !RowsAbout(events, i, applicationId)
    {
      if Get(events[i].payload, ApplicationId) == Text(applicationId) {
        return true;
      }
    }
    found := false;
  }

  /** The second scan of BR-6, one session: whether an event of its own stream names the application. */
  method NamesApplication(store: EventStore, session: string, applicationId: string) returns (found: bool)
    requires Ready(store)
    ensures found <==> NamedByItself(store.events, session, applicationId)
  {
    var events := store.LoadStream(session, 0, None);
    found := AnyAbout(events, applicationId);
    UpcastKeepsNames(Stream(store.State(), session), session, applicationId);
    RowsAboutApplication(store.events, session, applicationId);
  }

  ghost predicate RowsAbout(rows: seq<StoredEvent>, n: nat, app: string)
    requires n <= |rows|
  {
    exists k :: 0 <= k < n && Get(rows[k].payload, ApplicationId) == Text(app)
  }

  lemma RowsAboutApplication(log: seq<StoredEvent>, session: string, app: string)
    ensures var rows := Filter(log, OnStream(session));
      RowsAbout(rows, |rows|, app) <==> NamedByItself(log, session, app)
  {
    var rows := Filter(log, OnStream(session));
    FilterMembers(log, OnStream(session));
    if NamedByItself(log, session, app) {
      var e :| e in log && e.streamId == session && Get(e.payload, ApplicationId) == Text(app);
      assert e in rows;
    }
    if RowsAbout(rows, |rows|, app) {
      var k :| 0 <= k < |rows| && Get(rows[k].payload, ApplicationId) == Text(app);
      assert rows[k] in rows;
    }
  }

  /** The scan behind BR-6. Every session it collects is vouched for by an event in the log, and no contributing
      session is missed that an event in the log at the start vouches for. */
  method SessionsWithDecisions(store: EventStore, applicationId: string, contributing: seq<string>)
    returns (sessions: set<string>)
    requires Ready(store)
    modifies store`events, store`streams, store`outbox
    ensures Ready(store) && Extends(old(store.State()), store.State())
    ensures forall s | s in sessions :: Evidence(store.events, s, applicationId)
    ensures forall s | s in contributing && Evidence(old(store.events), s, applicationId) :: s in sessions
  {
    ghost var start := store.State();
    var named := LoanSessions(store, applicationId);
    forall s
      ensures Evidence(start.events, s, applicationId) <==> s in named || NamedByItself(start.events, s, applicationId)
    {
      EvidenceIsEither(start.events, s, applicationId);
    }
    ExtendsReflexive(start);
    sessions := ScanContributing(store, applicationId, contributing, named, start);
  }

  /** The second scan over the contributing sessions the first one did not find. */
  method ScanContributing(store: EventStore, applicationId: string, contributing: seq<string>, named: set<string>,
                          ghost start: Ledger)
    returns (sessions: set<string>)
    requires Ready(store) && Extends(start, store.State())
    requires forall s | s in named :: Evidence(store.events, s, applicationId)
    modifies store`events, store`streams, store`outbox
    ensures Ready(store) && Extends(start, store.State())
    ensures named <= sessions && forall s | s in sessions :: Evidence(store.events, s, applicationId)
    ensures forall s | s in contributing && NamedByItself(start.events, s, applicationId) :: s in sessions
  {
    sessions := named;
    for i := 0 to |contributing|
      invariant Ready(store) && Extends(start, store.State())
      invariant named <= sessions
      invariant forall s | s in sessions :: Evidence(store.events, s, applicationId)
      invariant forall k | 0 <= k < i && NamedByItself(start.events, contributing[k], applicationId) ::
        contributing[k] in sessions
    {
      if contributing[i] !in sessions {
        ghost var before := store.events;
        var found := CheckSession(store, contributing[i], applicationId, start);
        EvidenceOfAllGrows(before, store.events, sessions, applicationId);
        if found {
          sessions := sessions + {contributing[i]};
        }
      }
    }
  }

  /** One turn of the second scan. */
  method CheckSession(store: EventStore, session: string, applicationId: string,
                      ghost start: Ledger) returns (found: bool)
    requires Ready(store) && Extends(start, store.State())
    modifies store`events, store`streams, store`outbox
    ensures Ready(store) && Extends(start, store.State()) && old(store.events) <= store.events
    ensures found ==> Evidence(store.events, session, applicationId)
    ensures NamedByItself(start.events, session, applicationId) ==> found
  {
    Await(store, start);
    found := NamesApplication(store, session, applicationId);
    EvidenceIsEither(store.events, session, applicationId);
    NamedByItselfGrows(start.events, store.events, session, applicationId);
  }

  lemma EvidenceOfAllGrows(log: seq<StoredEvent>, log': seq<StoredEvent>, sessions: set<string>, app: string)
    requires log <= log' && forall s | s in sessions :: Evidence(log, s, app)
    ensures forall s | s in sessions :: Evidence(log', s, app)
  {
    forall s | s in sessions ensures Evidence(log', s, app) {
      EvidenceGrows(log, log', s, app);
    }
  }

  lemma NamedByItselfGrows(log: seq<StoredEvent>, log': seq<StoredEvent>, session: string, app: string)
    requires log <= log'
    ensures NamedByItself(log, session, app) ==> NamedByItself(log', session, app)
  {
  }

  /** The first of the loan's own guards on a decision that fails. */
  function DecisionRefusal(loan: Loan.Loan, cmd: DecisionCommand): Option<Reason>
  {
    if loan.state != Some(Loan.PendingDecision) then Some(WrongState)
    else if cmd.confidence < 0.6 && cmd.recommendation != "REFER" then Some(BelowConfidenceFloor)
    else if !loan.clearanceIssued then Some(NotCleared)
    else None
  }

  predicate LegalDecision(cmd: DecisionCommand)
  {
    cmd.recommendation in {"APPROVE", "DECLINE", "REFER"} && 0.0 <= cmd.confidence <= 1.0
  }

  /** assert_causal_chain: the contributing sessions nothing vouches for, in order. */
  method InvalidSessions(contributing: seq<string>, sessions: set<string>) returns (invalid: seq<string>)
    ensures invalid == [] <==> forall s | s in contributing :: s in sessions
    ensures forall s :: s in invalid <==> s in contributing && s !in sessions
  {
    invalid := [];
    for i := 0 to |contributing|
      invariant invalid == [] <==> forall s | s in contributing[..i] :: s in sessions
      invariant forall s :: s in invalid <==> s in contributing[..i] && s !in sessions
    {
      assert contributing[..i + 1] == contributing[..i] + [contributing[i]];
      if contributing[i] !in sessions {
        invalid := invalid + [contributing[i]];
      }
    }
    assert contributing[..|contributing|] == contributing;
  }

  /** A broken chain names exactly the contributing sessions the scan did not find: none of them had left an event about
      the application when the scan began, and each of the others has left one by the end. */
  ghost predicate ChainBroken(invalid: seq<string>, scanned: Ledger, now: Ledger, cmd: DecisionCommand)
  {
    && invalid != []
    && (forall s | s in invalid :: s in cmd.contributingSessions && !Evidence(scanned.events, s, cmd.applicationId))
    && (forall s | s in cmd.contributingSessions && s !in invalid :: Evidence(now.events, s, cmd.applicationId))
  }

  /** What the decision handler answers: the loan's guards on the loan as read, then the broken chain, then the checks
      of the event's own fields, in this order; past all of them nothing is refused. */
  ghost predicate DecisionVerdict(r: Outcome, l: Ledger, scanned: Ledger, now: Ledger, cmd: DecisionCommand)
  {
    var rows := Stream(l, LoanStream(cmd.applicationId));
    if !Loan.Loadable(rows) then r == Refused(MissingPayloadKey)
    else if DecisionRefusal(Loan.Replay(rows), cmd).Some?
    then r == Refused(DecisionRefusal(Loan.Replay(rows), cmd).value)
    else if r.Refused? && r.reason.BrokenCausalChain? then ChainBroken(r.reason.invalid, scanned, now, cmd)
    else
      && (forall s | s in cmd.contributingSessions :: Evidence(now.events, s, cmd.applicationId))
      && (if cmd.recommendation !in {"APPROVE", "DECLINE", "REFER"} then r == Refused(InvalidRecommendation)
          else if !LegalDecision(cmd) then r == Refused(ConfidenceOutOfRange)
          else !r.Refused?)
  }

  method HandleGenerateDecision(store: EventStore, cmd: DecisionCommand, stamp: Stamp)
    returns (r: Outcome, ghost scanned: Ledger)
    requires Ready(store)
    modifies store`events, store`streams, store`outbox
    ensures Ready(store) && Extends(old(store.State()), store.State())
    ensures Extends(old(store.State()), scanned) && Extends(scanned, store.State())
    ensures r.Done? ==>
      && r.version == old(Version(store.State(), LoanStream(cmd.applicationId))) + 1
      && Wrote(store.events, |old(store.events)|, LoanStream(cmd.applicationId), r.version,
               NewEvent(DecisionGenerated, 2, map[ApplicationId := Text(cmd.applicationId),
                 OrchestratorId := Text(cmd.orchestratorId), Recommendation := Text(cmd.recommendation),
                 ConfidenceScore := Real(cmd.confidence),
                 ContributingSessions := List(Texts(cmd.contributingSessions)),
                 ModelVersions := Object(cmd.modelVersions)]))
    ensures r.Done? ==>
      DecidedAs(Loan.Replay(Stream(store.State(), LoanStream(cmd.applicationId))), cmd)
    ensures DecisionVerdict(r, old(store.State()), scanned, store.State(), cmd)
    ensures r.StoreRefused? ==>
      Moved(store.State(), LoanStream(cmd.applicationId), old(Version(store.State(), LoanStream(cmd.applicationId))))
  {
    ghost var seen := store.State();
    scanned := seen;
    ExtendsReflexive(seen);
    LoadedVersionIsStreamVersion(seen, LoanStream(cmd.applicationId));
    var app := Loan.LoanApplicationAggregate.Load(store, cmd.applicationId);
    if app == null { return Refused(MissingPayloadKey), scanned; }
    if !Loan.AwaitingDecision(app.Model()) { return Refused(WrongState), scanned; }
    if !Loan.ConfidenceFloor(cmd.confidence, cmd.recommendation) { return Refused(BelowConfidenceFloor), scanned; }
    if !Loan.Cleared(app.Model()) { return Refused(NotCleared), scanned; }
    Await(store, seen);
    scanned := store.State();
    var invalid := CausalChain(store, cmd);
    ExtendsTransitive(seen, scanned, store.State());
    if invalid != [] { return Refused(BrokenCausalChain(invalid)), scanned; }
    if cmd.recommendation !in {"APPROVE", "DECLINE", "REFER"} { return Refused(InvalidRecommendation), scanned; }
    if cmd.confidence < 0.0 || cmd.confidence > 1.0 { return Refused(ConfidenceOutOfRange), scanned; }
    ghost var before := store.State();
    r := WriteDecision(store, cmd, app.version, stamp, seen);
    ExtendsTransitive(scanned, before, store.State());
    forall s | s in cmd.contributingSessions ensures Evidence(store.events, s, cmd.applicationId) {
      EvidenceGrows(before.events, store.events, s, cmd.applicationId);
    }
  }

  /** The scan and assert_causal_chain. */
  method CausalChain(store: EventStore, cmd: DecisionCommand) returns (invalid: seq<string>)
    requires Ready(store)
    modifies store`events, store`streams, store`outbox
    ensures Ready(store) && Extends(old(store.State()), store.State())
    ensures invalid != [] ==> ChainBroken(invalid, old(store.State()), store.State(), cmd)
    ensures invalid == [] ==> forall s | s in cmd.contributingSessions :: Evidence(store.events, s, cmd.applicationId)
  {
    var sessions := SessionsWithDecisions(store, cmd.applicationId, cmd.contributingSessions);
    invalid := InvalidSessions(cmd.contributingSessions, sessions);
  }

  /** The loan as its readers see it behind the decision. */
  predicate DecidedAs(loan: Loan.Loan, cmd: DecisionCommand)
  {
    && loan.state == Some(if cmd.recommendation == "APPROVE" then Loan.ApprovedPendingHuman
                          else Loan.DeclinedPendingHuman)
    && loan.contributingSessions == List(Texts(cmd.contributingSessions))
  }

  lemma DecisionMoves(loan: Loan.Loan, row: StoredEvent, cmd: DecisionCommand)
    requires row.eventType == DecisionGenerated && row.payload == DecisionEvent(cmd).payload
    ensures DecidedAs(Loan.Apply(loan, row), cmd)
  {
  }

  /** What a decision makes of the loan it is appended to. */
  lemma DecisionMovesLoan(l: Ledger, cmd: DecisionCommand, expected: int, stamp: Stamp)
    ensures var sid := LoanStream(cmd.applicationId);
      var (l', r) := Append(l, sid, [Insert(DecisionEvent(cmd), stamp)], expected, NoMeta);
      r.Appended? ==> DecidedAs(Loan.Replay(Stream(l', sid)), cmd)
  {
    var sid, ins := LoanStream(cmd.applicationId), Insert(DecisionEvent(cmd), stamp);
    var (l', r) := Append(l, sid, [ins], expected, NoMeta);
    if r.Appended? {
      OneRowAppend(l, sid, ins, expected, NoMeta);
      Loan.ReplaySnoc(Stream(l, sid), Row(sid, r.version, ins, NoMeta));
      DecisionMoves(Loan.Replay(Stream(l, sid)), Row(sid, r.version, ins, NoMeta), cmd);
    }
  }

  /** The append of the decision, once every guard has passed. */
  method WriteDecision(store: EventStore, cmd: DecisionCommand, version: nat, stamp: Stamp, ghost seen: Ledger)
    returns (r: Outcome)
    requires Ready(store) && Sound(seen) && Extends(seen, store.State())
    requires DecisionRefusal(Loan.Replay(Stream(seen, LoanStream(cmd.applicationId))), cmd).None?
    requires forall s | s in cmd.contributingSessions :: Evidence(store.events, s, cmd.applicationId)
    requires version == Version(seen, LoanStream(cmd.applicationId))
    modifies store`events, store`streams, store`outbox
    ensures Ready(store) && Extends(seen, store.State()) && Extends(old(store.State()), store.State())
    ensures !r.Refused?
    ensures r.Done? ==>
      && r.version == version + 1
      && Wrote(store.events, |seen.events|, LoanStream(cmd.applicationId), r.version, DecisionEvent(cmd))
    ensures r.Done? ==>
      DecidedAs(Loan.Replay(Stream(store.State(), LoanStream(cmd.applicationId))), cmd)
    ensures r.StoreRefused? ==> Moved(store.State(), LoanStream(cmd.applicationId), version)
  {
    DecisionAppend(seen, store.State(), cmd, stamp, NoMeta);
    DecisionMovesLoan(store.State(), cmd, version, stamp);
    var a := AppendOne(store, LoanStream(cmd.applicationId), DecisionEvent(cmd), stamp, version, seen);
    AppendKeepsSound(old(store.State()), LoanStream(cmd.applicationId), [Insert(DecisionEvent(cmd), stamp)], version,
                     NoMeta);
    r := FromStore(a);
  }

  lemma ReviewMoves(loan: Loan.Loan, row: StoredEvent, cmd: ReviewCommand)
    requires row.eventType == HumanReviewCompleted && row.payload == ReviewEvent(cmd).payload
    ensures Loan.Apply(loan, row).state ==
      Some(if cmd.finalDecision in {"APPROVED", "APPROVE"} then Loan.FinalApproved else Loan.FinalDeclined)
  {
  }

  /** What a review makes of the loan it is appended to. */
  lemma ReviewMovesLoan(l: Ledger, cmd: ReviewCommand, expected: int, stamp: Stamp)
    ensures var sid := LoanStream(cmd.applicationId);
      var (l', r) := Append(l, sid, [Insert(ReviewEvent(cmd), stamp)], expected, NoMeta);
      r.Appended? ==>
        Loan.Replay(Stream(l', sid)).state ==
        Some(if cmd.finalDecision in {"APPROVED", "APPROVE"} then Loan.FinalApproved else Loan.FinalDeclined)
  {
    var sid, ins := LoanStream(cmd.applicationId), Insert(ReviewEvent(cmd), stamp);
    var (l', r) := Append(l, sid, [ins], expected, NoMeta);
    if r.Appended? {
      OneRowAppend(l, sid, ins, expected, NoMeta);
      Loan.ReplaySnoc(Stream(l, sid), Row(sid, r.version, ins, NoMeta));
      ReviewMoves(Loan.Replay(Stream(l, sid)), Row(sid, r.version, ins, NoMeta), cmd);
    }
  }

  method HandleHumanReviewCompleted(store: EventStore, cmd: ReviewCommand, stamp: Stamp) returns (r: Outcome)
    requires Ready(store)
    modifies store`events, store`streams, store`outbox
    ensures Ready(store) && Extends(old(store.State()), store.State())
    ensures r.Done? ==>
      && r.version == old(Version(store.State(), LoanStream(cmd.applicationId))) + 1
      && Wrote(store.events, |old(store.events)|, LoanStream(cmd.applicationId), r.version,
               NewEvent(HumanReviewCompleted, 1, map[ApplicationId := Text(cmd.applicationId),
                 ReviewerId := Text(cmd.reviewerId), FinalDecision := Text(cmd.finalDecision)]))
    ensures r.Done? ==>
      Loan.Replay(Stream(store.State(), LoanStream(cmd.applicationId))).state ==
        Some(if cmd.finalDecision in {"APPROVED", "APPROVE"} then Loan.FinalApproved else Loan.FinalDeclined)
    ensures r.Done? && cmd.override ==> cmd.overrideReason.Some? && cmd.overrideReason.value != ""
    ensures var loan := old(Stream(store.State(), LoanStream(cmd.applicationId)));
      if !Loan.Loadable(loan) then r == Refused(MissingPayloadKey)
      else if Loan.Replay(loan).state !in {Some(Loan.ApprovedPendingHuman), Some(Loan.DeclinedPendingHuman)}
      then r == Refused(WrongState)
      else if cmd.override && cmd.overrideReason in {None, Some("")} then r == Refused(OverrideNeedsReason)
      else !r.Refused?
    ensures r.StoreRefused? ==>
      Moved(store.State(), LoanStream(cmd.applicationId), old(Version(store.State(), LoanStream(cmd.applicationId))))
  {
    ghost var seen := store.State();
    var sid := LoanStream(cmd.applicationId);
    LoadedVersionIsStreamVersion(seen, sid);
    var app := Loan.LoanApplicationAggregate.Load(store, cmd.applicationId);
    if app == null { return Refused(MissingPayloadKey); }
    if !Loan.AwaitingHumanReview(app.Model()) { return Refused(WrongState); }
    if cmd.override && (cmd.overrideReason.None? || cmd.overrideReason.value == "") {
      return Refused(OverrideNeedsReason);
    }
    Await(store, seen);
    ReviewAppend(seen, store.State(), cmd, stamp, NoMeta);
    ReviewMovesLoan(store.State(), cmd, app.version, stamp);
    var a := AppendOne(store, sid, ReviewEvent(cmd), stamp, app.version, seen);
    r := FromStore(a);
  }
}
