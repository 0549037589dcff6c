/** What the writers write, the readers read: every event of the handlers and of the compliance agent against the
    aggregates and read models that take it in. */
module WrittenEvents {
  import opened Events
  import opened Sequences
  import opened Commands
  import Agent = ComplianceAgent
  import Audit = ComplianceAudit
  import Ledger = AgentPerformance
  import Loan = LoanApplication
  import Record = ComplianceRecord
  import Summary = ApplicationSummary
  import WhatIf

  predicate IsRow(row: StoredEvent, event: NewEvent)
  {
    row.eventType == event.eventType && row.version == event.version && row.payload == event.payload
  }

  // ---- verdicts ----

  /** A rule recorded by the handler is taken by the compliance view, whatever the view held, and its row then
      reads what was recorded; the compliance record files it in the same way. */
  lemma RecordedRuleIsShown(v: Audit.View, r: Record.Record, row: StoredEvent, app: string, rule: string,
                            version: string, passed: bool, reason: string, remediation: bool, evidence: string)
    requires IsRow(row, RuleEvent(app, rule, version, passed, reason, remediation, evidence))
    ensures !Audit.Raises(row) && app in Audit.Upsert(v, row) && rule in Audit.Upsert(v, row)[app]
    ensures var shown := Audit.Upsert(v, row)[app][rule];
      && shown.ruleVersion == Text(version)
      && (passed ==> shown.status == Audit.PassedStatus && shown.evidenceHash == Text(evidence))
      && (!passed ==> shown.status == Audit.FailedStatus && shown.failureReason == Text(reason)
                      && shown.remediationRequired == Flag(remediation))
    ensures Record.Readable(row)
    ensures passed ==> var r' := Record.Apply(r, row);
      Text(rule) in r'.passed && r'.passed[Text(rule)] == Text(version) && Text(rule) !in r'.failed
    ensures !passed ==> var r' := Record.Apply(r, row);
      Text(rule) in r'.failed && r'.failed[Text(rule)] == Text(reason)
  {
    Audit.TakenExactly(row);
    Audit.UpsertShows(v, row);
  }

  /** A verdict of the compliance agent is taken too; a failure of its rules reads as one to be remedied. */
  lemma AgentVerdictIsShown(v: Audit.View, row: StoredEvent, app: string, rule: Agent.Rule, passed: bool,
                            evidence: string)
    requires IsRow(row, Agent.RuleEvent(app, rule, passed, evidence))
    ensures !Audit.Raises(row) && app in Audit.Upsert(v, row) && rule.id in Audit.Upsert(v, row)[app]
    ensures var shown := Audit.Upsert(v, row)[app][rule.id];
      && shown.ruleVersion == Text(rule.version)
      && (passed ==> shown.status == Audit.PassedStatus && shown.evidenceHash == Text(evidence))
      && (!passed ==> shown.status == Audit.FailedStatus && shown.failureReason == Text(rule.failReason)
                      && shown.remediationRequired == Flag(true))
  {
    Audit.TakenExactly(row);
    Audit.UpsertShows(v, row);
  }

  /** The checks a handler requests are the checks the record then requires. */
  lemma RequestedChecksAreRequired(r: Record.Record, l: Loan.Loan, row: StoredEvent, app: string, checks: seq<string>)
    requires IsRow(row, ComplianceRequest(app, checks))
    ensures |Record.Apply(r, row).requiredChecks| == |checks|
    ensures forall i | 0 <= i < |checks| :: Record.Apply(r, row).requiredChecks[i] == Text(checks[i])
    ensures Loan.Apply(l, row).requiredChecks == List(Record.Apply(r, row).requiredChecks)
    ensures Loan.Apply(l, row).state == Some(Loan.ComplianceReview)
  {
  }

  // ---- the application's row ----

  /** A submission gives the application a row, new or reset, with its applicant and amount. */
  lemma SubmissionIsShown(t: Summary.Table, row: StoredEvent, app: string, applicant: string, amount: real)
    requires IsRow(row, SubmittedEvent(app, applicant, amount))
    ensures !Summary.Raises(row) && app in Summary.Handle(t, row)
    ensures var shown := Summary.Handle(t, row)[app];
      && shown.state == Loan.Submitted && shown.applicantId == Text(applicant) && shown.requestedAmount == Real(amount)
      && shown.lastEventType == ApplicationSubmitted && shown.lastEventAt == row.recordedAt
  {
  }

  /** The other handlers move the row of an application that has one, and give no row to one that has none. */
  lemma AnalysisIsShown(t: Summary.Table, row: StoredEvent, cmd: CreditCommand)
    requires IsRow(row, CreditEvent(cmd))
    ensures !Summary.Raises(row) && Summary.Handle(t, row).Keys == t.Keys
    ensures cmd.applicationId in t ==>
      var before, shown := t[cmd.applicationId], Summary.Handle(t, row)[cmd.applicationId];
      && shown.state == Loan.AnalysisComplete && shown.riskTier == Text(cmd.riskTier)
      && (cmd.agentId != "" && cmd.sessionId != "" ==>
            shown.sessionsCompleted == before.sessionsCompleted + {"agent-" + cmd.agentId + "-" + cmd.sessionId})
  {
    if cmd.agentId != "" && cmd.sessionId != "" {
      StreamNames(cmd.agentId, cmd.sessionId);
      assert AgentStream(cmd.agentId, cmd.sessionId) == "agent-" + cmd.agentId + "-" + cmd.sessionId;
    }
  }

  lemma ScreeningIsShown(t: Summary.Table, row: StoredEvent, app: string, agent: string, score: real)
    requires IsRow(row, FraudEvent(app, agent, score))
    ensures !Summary.Raises(row) && Summary.Handle(t, row).Keys == t.Keys
    ensures app in t ==> Summary.Handle(t, row)[app].fraudScore == Real(score)
    ensures app in t ==> Summary.Handle(t, row)[app].state == t[app].state
  {
  }

  lemma DecisionIsShown(t: Summary.Table, row: StoredEvent, cmd: DecisionCommand)
    requires IsRow(row, DecisionEvent(cmd))
    ensures !Summary.Raises(row) && Summary.Handle(t, row).Keys == t.Keys
    ensures cmd.applicationId in t ==>
      var shown := Summary.Handle(t, row)[cmd.applicationId];
      && shown.decision == Text(cmd.recommendation)
      && shown.state ==
         if cmd.recommendation == "APPROVE" then Loan.ApprovedPendingHuman else Loan.DeclinedPendingHuman
  {
  }

  lemma ReviewIsShown(t: Summary.Table, row: StoredEvent, cmd: ReviewCommand)
    requires IsRow(row, ReviewEvent(cmd))
    ensures !Summary.Raises(row) && Summary.Handle(t, row).Keys == t.Keys
    ensures cmd.applicationId in t ==>
      var shown := Summary.Handle(t, row)[cmd.applicationId];
      && shown.reviewerId == Text(cmd.reviewerId) && shown.finalDecisionAt == Some(row.recordedAt)
      && shown.state == if cmd.finalDecision in {"APPROVED", "APPROVE"} then Loan.FinalApproved else Loan.FinalDeclined
  {
  }

  // ---- the ledger of agents and the replayed outcome ----

  /** An analysis is counted for its agent and model, with its duration and score. */
  lemma AnalysisIsCounted(t: Ledger.Table, row: StoredEvent, cmd: CreditCommand)
    requires IsRow(row, CreditEvent(cmd))
    ensures !Ledger.Raises(row)
    ensures var k := (cmd.agentId, cmd.modelVersion);
      && k in Ledger.Handle(t, row)
      && var before, after := Ledger.RowIn(t, k), Ledger.Handle(t, row)[k];
         && after.analyses == before.analyses + 1 && after.decisions == before.decisions
         && after.avgDuration == Ledger.RunningAverage(before.avgDuration, before.analyses, cmd.durationMs as real)
         && after.avgConfidence == Ledger.RunningAverage(before.avgConfidence, before.analyses, cmd.confidence)
  {
    Ledger.TakenExactly(row);
    Ledger.ConcernsExactly(row, cmd.agentId, cmd.modelVersion);
    Ledger.HandleMoves(t, row, cmd.agentId, cmd.modelVersion);
  }

  /** A decision is counted for its orchestrator under the model the command names for it. */
  lemma DecisionIsCounted(t: Ledger.Table, row: StoredEvent, cmd: DecisionCommand, model: string)
    requires IsRow(row, DecisionEvent(cmd))
    requires var k := OtherKey(cmd.orchestratorId);
      if k in cmd.modelVersions then cmd.modelVersions[k] == Text(model) else model == "unknown"
    ensures !Ledger.Raises(row)
    ensures var k := (cmd.orchestratorId, model);
      && k in Ledger.Handle(t, row)
      && var before, after := Ledger.RowIn(t, k), Ledger.Handle(t, row)[k];
         && after.decisions == before.decisions + 1 && after.analyses == before.analyses
         && after.approveRate ==
            Ledger.RunningRate(before.approveRate, before.decisions, cmd.recommendation == "APPROVE")
         && after.declineRate ==
            Ledger.RunningRate(before.declineRate, before.decisions, cmd.recommendation == "DECLINE")
         && after.referRate == Ledger.RunningRate(before.referRate, before.decisions, cmd.recommendation == "REFER")
  {
    Ledger.ConcernsExactly(row, cmd.orchestratorId, model);
    Ledger.TakenExactly(row);
    Ledger.HandleMoves(t, row, cmd.orchestratorId, model);
  }

  /** A flat counterfactual analysis leaves its own figures in the outcome of a replay. */
  lemma AnalysisIsReplayed(o: WhatIf.Outcome, cmd: CreditCommand)
    ensures WhatIf.OutcomeStep(o, CreditEvent(cmd)) ==
      WhatIf.Outcome(WhatIf.AnalysisCompleteState, Text(cmd.riskTier), Real(cmd.recommendedLimit), o.decision,
                     Real(cmd.confidence))
  {
  }
}
