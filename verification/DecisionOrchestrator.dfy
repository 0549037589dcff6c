/** The decision orchestrator: the hard constraints over a synthesized recommendation, and the events it writes. */
module DecisionOrchestrator {
  import opened Events
  import opened Sequences
  import opened EventLog
  import opened Upcasting
  import opened Store
  import Agent = ComplianceAgent

  /** What the language model proposes. */
  datatype Synthesis = Synthesis(recommendation: string, confidence: real, approvedAmount: real)

  /** What a decision rests on: the sessions of the three results, as their payloads name them, and the model. */
  datatype Basis = Basis(sessions: seq<Value>, model: string)

  function Number(v: Value): real
  {
    match v
    case Int(n) => n as real
    case Real(x) => x
    case Flag(b) => if b then 1.0 else 0.0
    case _ => 0.0
  }

  /** str(value or default), for text values. */
  function TextOr(v: Value, d: string): string
  {
    if !Truthy(v) then d else if v.Text? then v.s else ""
  }

  function VerdictIn(compliance: Payload): string
  {
    TextOr(Get(compliance, OverallVerdict), "CONDITIONAL")
  }

  function RiskTierIn(credit: Payload): string
  {
    match Get(credit, NestedDecision)
    case Object(fields) => TextOr(Get(fields, RiskTier), "MEDIUM")
    case _ => "MEDIUM"
  }

  function FraudScoreIn(fraud: Payload): real
  {
    Number(Get(fraud, FraudScore))
  }

  // ---- the constraints ----

  /** A case the constraints send to a person, whatever compliance said. */
  predicate Deferred(confidence: real, fraudScore: real, riskTier: string)
  {
    confidence < 0.6 || fraudScore > 0.6 || (riskTier == "HIGH" && confidence < 0.7)
  }

  datatype Constraint = ComplianceBlocked | LowConfidence | HighFraud | HighRiskLowConfidence

  /** The overwrites in order. The last ones win: a deferred case is REFER even when compliance blocked it; BLOCKED
      means DECLINE exactly when the case is not deferred; every other proposal stands; APPROVE comes out only when it
      went in, unblocked and not deferred. */
  method ApplyConstraints(proposed: string, confidence: real, fraudScore: real, verdict: string, riskTier: string)
    returns (recommendation: string, applied: seq<Constraint>)
    ensures Deferred(confidence, fraudScore, riskTier) ==> recommendation == "REFER"
    ensures !Deferred(confidence, fraudScore, riskTier) ==>
      recommendation == if verdict == "BLOCKED" then "DECLINE" else proposed
    ensures recommendation == "APPROVE" <==>
      proposed == "APPROVE" && verdict != "BLOCKED" && !Deferred(confidence, fraudScore, riskTier)
    ensures ComplianceBlocked in applied <==> verdict == "BLOCKED"
    ensures LowConfidence in applied <==> confidence < 0.6
    ensures HighFraud in applied <==> fraudScore > 0.6
    ensures HighRiskLowConfidence in applied <==> riskTier == "HIGH" && confidence < 0.7
  {
    recommendation, applied := proposed, [];
    if verdict == "BLOCKED" {
      recommendation := "DECLINE";
      applied := applied + [ComplianceBlocked];
    }
    if confidence < 0.6 {
      recommendation := "REFER";
      applied := applied + [LowConfidence];
    }
    if fraudScore > 0.6 {
      recommendation := "REFER";
      applied := applied + [HighFraud];
    }
    if riskTier == "HIGH" && confidence < 0.7 {
      recommendation := "REFER";
      applied := applied + [HighRiskLowConfidence];
    }
  }

  // ---- what is written ----

  /** The event that follows the decision. */
  function OutcomeType(recommendation: string): EventType
  {
    if recommendation == "APPROVE" then ApplicationApproved
    else if recommendation == "DECLINE" then ApplicationDeclined
    else HumanReviewRequested
  }

  function DecisionOf(app: string, recommendation: string, s: Synthesis, b: Basis): NewEvent
  {
    NewEvent(DecisionGenerated, 2, map[
      ApplicationId := Text(app), Recommendation := Text(recommendation), Confidence := Real(s.confidence),
      ApprovedAmount := if recommendation == "APPROVE" then Real(s.approvedAmount) else Null,
      ContributingSessions := List(b.sessions),
      ModelVersions := Object(map[OtherKey("orchestrator") := Text(b.model)])])
  }

  function OutcomeOf(app: string, recommendation: string, s: Synthesis): NewEvent
  {
    NewEvent(OutcomeType(recommendation), 1,
      if recommendation == "APPROVE" then map[ApplicationId := Text(app), ApprovedAmount := Real(s.approvedAmount)]
      else map[ApplicationId := Text(app)])
  }

  predicate IsRow(row: StoredEvent, event: NewEvent)
  {
    row.eventType == event.eventType && row.version == event.version && row.payload == event.payload
  }

  /** One event, alone or followed by another, or nothing, at consecutive positions behind a version. */
  predicate InSequence(rows: seq<StoredEvent>, sid: string, version: nat, first: NewEvent, second: NewEvent)
  {
    && |rows| <= 2
    && (forall i | 0 <= i < |rows| :: rows[i].streamId == sid && rows[i].streamPosition == version + 1 + i)
    && (|rows| > 0 ==> IsRow(rows[0], first))
    && (|rows| > 1 ==> IsRow(rows[1], second))
  }

  lemma StaysInLog(log: seq<StoredEvent>, log': seq<StoredEvent>, row: StoredEvent)
    requires log <= log' && row in log
    ensures row in log'
  {
  }

  /** One event appended at a version: a row at the next position, unless the stream has moved. */
  method AppendOne(store: EventStore, sid: string, event: NewEvent, version: nat, stamp: Stamp)
    returns (r: AppendResult, ghost row: StoredEvent)
    requires store.Valid()
    modifies store`events, store`streams, store`outbox
    ensures store.Valid() && Extends(old(store.State()), store.State())
    ensures r.Appended? ==>
      && r.version == version + 1 && row in store.events && IsRow(row, event)
      && row.streamId == sid && row.streamPosition == version + 1
    ensures !r.Appended? ==> Moved(store.State(), sid, version)
  {
    ghost var l := store.State();
    r := store.Append(sid, [Insert(event, stamp)], version, None, None);
    row := Row(sid, version + 1, Insert(event, stamp), NoMeta);
    OneRow(l, sid, Insert(event, stamp), version);
  }

  lemma OneRow(l: Ledger, sid: string, ins: Insert, expected: nat)
    ensures var (l', r) := Append(l, sid, [ins], expected, NoMeta);
      && (r.Appended? ==> r.version == expected + 1 && Row(sid, expected + 1, ins, NoMeta) in l'.events)
      && (!r.Appended? ==> Moved(l', sid, expected))
  {
    if Append(l, sid, [ins], expected, NoMeta).1.Appended? {
      assert Rows(sid, expected, [ins], NoMeta)[0] == Row(sid, expected + 1, ins, NoMeta);
    }
  }

  /** Two appends at consecutive versions, with other writers free to commit before each. What was written before a
      refusal stays; a refusal means the stream has moved from the version the append needs. */
  method AppendTwo(store: EventStore, sid: string, event: NewEvent, event2: NewEvent, stamp: Stamp, stamp2: Stamp)
    returns (refused: Option<AppendResult>, ghost rows: seq<StoredEvent>)
    requires store.Valid()
    modifies store`events, store`streams, store`outbox
    ensures store.Valid() && Extends(old(store.State()), store.State())
    ensures InSequence(rows, sid, old(Version(store.State(), sid)), event, event2)
    ensures forall row | row in rows :: row in store.events
    ensures refused.None? <==> |rows| == 2
    ensures refused.Some? ==> Moved(store.State(), sid, old(Version(store.State(), sid)) + |rows|)
  {
    ghost var start := store.State();
    var version := store.StreamVersion(sid);
    Interfere(store);
    ghost var mid := store.State();
    var a, first := AppendOne(store, sid, event, version, stamp);
    ExtendsTransitive(start, mid, store.State());
    if !a.Appended? {
      return Some(a), [];
    }
    refused, rows := AppendSecond(store, sid, event2, a.version, stamp2, start, first);
  }

  method AppendSecond(store: EventStore, sid: string, event: NewEvent, version: nat, stamp: Stamp, ghost start: Ledger,
                      ghost first: StoredEvent)
    returns (refused: Option<AppendResult>, ghost rows: seq<StoredEvent>)
    requires store.Valid() && Extends(start, store.State()) && first in store.events
    modifies store`events, store`streams, store`outbox
    ensures store.Valid() && Extends(start, store.State())
    ensures refused.None? ==>
      && |rows| == 2 && rows[0] == first && IsRow(rows[1], event)
      && rows[1].streamId == sid && rows[1].streamPosition == version + 1
    ensures refused.Some? ==> rows == [first] && Moved(store.State(), sid, version)
    ensures forall row | row in rows :: row in store.events
  {
    ghost var written := store.State();
    Interfere(store);
    ghost var mid := store.State();
    StaysInLog(written.events, mid.events, first);
    ExtendsTransitive(start, written, mid);
    var b, second := AppendOne(store, sid, event, version, stamp);
    ExtendsTransitive(start, mid, store.State());
    StaysInLog(mid.events, store.events, first);
    if b.Appended? {
      return None, [first, second];
    }
    return Some(b), [first];
  }

  /** What a run wrote behind a version of the loan stream: the decision, and behind it an approval for APPROVE, a
      decline for DECLINE, and a request for a human review for everything else. */
  predicate Written(rows: seq<StoredEvent>, app: string, version: nat, recommendation: string, s: Synthesis, b: Basis)
  {
    && |rows| <= 2
    && (forall i | 0 <= i < |rows| :: rows[i].streamId == "loan-" + app && rows[i].streamPosition == version + 1 + i)
    && (|rows| > 0 ==>
          && rows[0].eventType == DecisionGenerated && rows[0].version == 2
          && rows[0].payload == map[
               ApplicationId := Text(app), Recommendation := Text(recommendation), Confidence := Real(s.confidence),
               ApprovedAmount := if recommendation == "APPROVE" then Real(s.approvedAmount) else Null,
               ContributingSessions := List(b.sessions),
               ModelVersions := Object(map[OtherKey("orchestrator") := Text(b.model)])])
    && (|rows| > 1 ==>
          && (rows[1].eventType == ApplicationApproved <==> recommendation == "APPROVE")
          && (rows[1].eventType == ApplicationDeclined <==> recommendation == "DECLINE")
          && (rows[1].eventType == HumanReviewRequested <==> recommendation !in {"APPROVE", "DECLINE"})
          && rows[1].version == 1 && Get(rows[1].payload, ApplicationId) == Text(app)
          && (recommendation == "APPROVE" ==> Get(rows[1].payload, ApprovedAmount) == Real(s.approvedAmount)))
  }

  method WriteOutput(store: EventStore, app: string, recommendation: string, s: Synthesis, b: Basis, stamp: Stamp,
                     stamp2: Stamp)
    returns (refused: Option<AppendResult>, ghost rows: seq<StoredEvent>)
    requires store.Valid()
    modifies store`events, store`streams, store`outbox
    ensures store.Valid() && Extends(old(store.State()), store.State())
    ensures Written(rows, app, old(Version(store.State(), LoanStream(app))), recommendation, s, b)
    ensures forall row | row in rows :: row in store.events
    ensures refused.None? <==> |rows| == 2
    ensures refused.Some? ==>
      Moved(store.State(), LoanStream(app), old(Version(store.State(), LoanStream(app))) + |rows|)
  {
    refused, rows := AppendTwo(store, LoanStream(app), DecisionOf(app, recommendation, s, b),
                               OutcomeOf(app, recommendation, s), stamp, stamp2);
  }

  /** The last event of a type on a stream, as loaded. */
  function LatestIn(l: Ledger, reg: Registry, sid: string, t: EventType): Option<StoredEvent>
  {
    Latest(MigratedAll(reg, Stream(l, sid)), t)
  }

  method FindLatest(store: EventStore, sid: string, t: EventType) returns (p: Option<StoredEvent>)
    requires store.Valid()
    ensures p == LatestIn(store.State(), store.upcasters, sid, t)
  {
    var es := store.LoadStream(sid, 0, None);
    var i := |es|;
    assert es[..i] == es;
    while i > 0
      invariant 0 <= i <= |es| && Latest(es[..i], t) == Latest(es, t)
    {
      assert es[..i][..i - 1] == es[..i - 1];
      if es[i - 1].eventType == t {
        return Some(es[i - 1]);
      }
      i := i - 1;
    }
    p := None;
  }

  /** What a run loads before it decides. */
  datatype Inputs = Inputs(credit: StoredEvent, fraud: StoredEvent, compliance: StoredEvent)

  /** The ledger at each of the four loads. */
  datatype Reads = Reads(loan: Ledger, credit: Ledger, fraud: Ledger, compliance: Ledger)

  ghost predicate InOrder(start: Ledger, at: Reads, now: Ledger)
  {
    && Extends(start, at.loan) && Extends(at.loan, at.credit) && Extends(at.credit, at.fraud)
    && Extends(at.fraud, at.compliance) && Extends(at.compliance, now)
  }

  ghost predicate AreLatest(i: Inputs, at: Reads, reg: Registry, app: string)
  {
    && LatestIn(at.credit, reg, "credit-" + app, CreditAnalysisCompleted) == Some(i.credit)
    && LatestIn(at.fraud, reg, "fraud-" + app, FraudScreeningCompleted) == Some(i.fraud)
    && LatestIn(at.compliance, reg, ComplianceStream(app), ComplianceCheckCompleted) == Some(i.compliance)
  }

  ghost predicate AllThere(at: Reads, reg: Registry, app: string)
  {
    && LatestIn(at.loan, reg, LoanStream(app), ApplicationSubmitted).Some?
    && LatestIn(at.credit, reg, "credit-" + app, CreditAnalysisCompleted).Some?
    && LatestIn(at.fraud, reg, "fraud-" + app, FraudScreeningCompleted).Some?
    && LatestIn(at.compliance, reg, ComplianceStream(app), ComplianceCheckCompleted).Some?
  }

  /** One load and the await behind it. */
  method ReadLatest(store: EventStore, sid: string, t: EventType) returns (p: Option<StoredEvent>)
    requires store.Valid()
    modifies store`events, store`streams, store`outbox
    ensures store.Valid() && Extends(old(store.State()), store.State())
    ensures p == LatestIn(old(store.State()), store.upcasters, sid, t)
  {
    p := FindLatest(store, sid, t);
    Interfere(store);
  }

  /** The four loads, each with other writers behind it. None stands for the ValueError of a missing result. */
  method LoadInputs(store: EventStore, app: string) returns (i: Option<Inputs>, ghost at: Reads)
    requires store.Valid()
    modifies store`events, store`streams, store`outbox
    ensures store.Valid() && InOrder(old(store.State()), at, store.State())
    ensures i.Some? <==> AllThere(at, store.upcasters, app)
    ensures i.Some? ==> AreLatest(i.value, at, store.upcasters, app)
  {
    ghost var l := store.State();
    ExtendsReflexive(l);
    var submitted := ReadLatest(store, LoanStream(app), ApplicationSubmitted);
    ghost var c := store.State();
    ExtendsReflexive(c);
    if submitted.None? { return None, Reads(l, c, c, c); }
    var credit := ReadLatest(store, "credit-" + app, CreditAnalysisCompleted);
    ghost var f := store.State();
    ExtendsReflexive(f);
    if credit.None? { return None, Reads(l, c, f, f); }
    var fraud := ReadLatest(store, "fraud-" + app, FraudScreeningCompleted);
    at := Reads(l, c, f, store.State());
    ExtendsReflexive(at.compliance);
    if fraud.None? { return None, at; }
    var compliance := ReadLatest(store, ComplianceStream(app), ComplianceCheckCompleted);
    if compliance.None? { return None, at; }
    i := Some(Inputs(credit.value, fraud.value, compliance.value));
  }

  /** The fraud score of a result is above a bound; a missing one, or one that is no number, counts as zero. */
  predicate FraudAbove(p: Payload, bound: real)
    requires bound >= 0.0
  {
    && FraudScore in p
    && match p[FraudScore]
       case Int(n) => n as real > bound
       case Real(x) => x > bound
       case Flag(b) => b && 1.0 > bound
       case _ => false
  }

  /** The nested credit decision names this risk tier. */
  predicate InTier(p: Payload, tier: string)
  {
    && NestedDecision in p && p[NestedDecision].Object?
    && RiskTier in p[NestedDecision].fields && p[NestedDecision].fields[RiskTier] == Text(tier)
  }

  /** A case for a person: low confidence, a high fraud score, or high risk without good confidence. */
  predicate DefersTo(i: Inputs, s: Synthesis)
  {
    || s.confidence < 0.6
    || FraudAbove(i.fraud.payload, 0.6)
    || (InTier(i.credit.payload, "HIGH") && s.confidence < 0.7)
  }

  predicate Blocked(i: Inputs)
  {
    OverallVerdict in i.compliance.payload && i.compliance.payload[OverallVerdict] == Text("BLOCKED")
  }

  /** The constraints see of the loaded results what these say. */
  lemma ReadRightly(i: Inputs, s: Synthesis)
    ensures Deferred(s.confidence, FraudScoreIn(i.fraud.payload), RiskTierIn(i.credit.payload)) <==> DefersTo(i, s)
    ensures VerdictIn(i.compliance.payload) == "BLOCKED" <==> Blocked(i)
  {
  }

  /** The sessions the three results come from. */
  function BasisOf(i: Inputs, model: string): Basis
  {
    Basis([Get(i.credit.payload, SessionId), Get(i.fraud.payload, SessionId), Get(i.compliance.payload, SessionId)],
          model)
  }

  /** What the constraints make of a proposal, given the results that were loaded. */
  predicate Allowed(recommendation: string, i: Inputs, s: Synthesis)
  {
    recommendation == if DefersTo(i, s) then "REFER" else if Blocked(i) then "DECLINE" else s.recommendation
  }

  /** The nodes before the write: what was loaded and what the constraints made of the proposal. */
  method Decide(store: EventStore, app: string, s: Synthesis)
    returns (i: Option<Inputs>, recommendation: string, ghost at: Reads)
    requires store.Valid()
    modifies store`events, store`streams, store`outbox
    ensures store.Valid() && InOrder(old(store.State()), at, store.State())
    ensures i.Some? <==> AllThere(at, store.upcasters, app)
    ensures i.Some? ==> AreLatest(i.value, at, store.upcasters, app) && Allowed(recommendation, i.value, s)
  {
    recommendation := s.recommendation;
    i, at := LoadInputs(store, app);
    if i.Some? {
      ReadRightly(i.value, s);
      var verdict, riskTier := VerdictIn(i.value.compliance.payload), RiskTierIn(i.value.credit.payload);
      var applied;
      recommendation, applied := ApplyConstraints(s.recommendation, s.confidence, FraudScoreIn(i.value.fraud.payload),
                                                  verdict, riskTier);
    }
  }

  datatype RunResult = Missing | Wrote(recommendation: string, inputs: Inputs, refused: Option<AppendResult>)

  /** What a run did: nothing without its inputs; else it wrote the events of the recommendation which the results as
      loaded allow, behind the version of the loan stream as in decided. */
  ghost predicate RanAs(r: RunResult, rows: seq<StoredEvent>, at: Reads, decided: Ledger, reg: Registry, app: string,
                        s: Synthesis, model: string)
  {
    match r
    case Missing => rows == [] && !AllThere(at, reg, app)
    case Wrote(recommendation, inputs, refused) =>
      && AreLatest(inputs, at, reg, app) && Allowed(recommendation, inputs, s)
      && Written(rows, app, Version(decided, LoanStream(app)), recommendation, s,
                 BasisOf(inputs, model))
      && (refused.None? <==> |rows| == 2)
  }

  /** How a completed run ends: a deferred case with a request for a human review, a blocked one that is not deferred
      with a decline, any other as proposed; and the decision says so, and names the sessions it rests on. */
  ghost predicate EndsAs(rows: seq<StoredEvent>, i: Inputs, s: Synthesis)
  {
    |rows| == 2 ==>
      && Get(rows[0].payload, ContributingSessions) ==
         List([Get(i.credit.payload, SessionId), Get(i.fraud.payload, SessionId), Get(i.compliance.payload, SessionId)])
      && if DefersTo(i, s) then
           rows[1].eventType == HumanReviewRequested && Get(rows[0].payload, Recommendation) == Text("REFER")
         else if Blocked(i) then
           rows[1].eventType == ApplicationDeclined && Get(rows[0].payload, Recommendation) == Text("DECLINE")
         else
           && Get(rows[0].payload, Recommendation) == Text(s.recommendation)
           && (rows[1].eventType == ApplicationApproved <==> s.recommendation == "APPROVE")
           && (rows[1].eventType == ApplicationDeclined <==> s.recommendation == "DECLINE")
  }

  lemma AllowedEnds(rows: seq<StoredEvent>, app: string, version: nat, recommendation: string, i: Inputs, s: Synthesis,
                    model: string)
    requires Written(rows, app, version, recommendation, s, BasisOf(i, model)) && Allowed(recommendation, i, s)
    ensures EndsAs(rows, i, s)
    ensures Blocked(i) ==> forall k | 0 <= k < |rows| :: rows[k].eventType != ApplicationApproved
  {
  }

  /** A whole run, with other writers free to commit at every await: whatever the language model proposes and whatever
      others write meanwhile, the verdict as loaded decides; a run that loaded BLOCKED never writes an
      approval, and declines exactly when the case is not deferred to a person. */
  method RunOrchestrator(store: EventStore, app: string, s: Synthesis, model: string, stamp: Stamp, stamp2: Stamp)
    returns (r: RunResult, ghost rows: seq<StoredEvent>, ghost at: Reads, ghost decided: Ledger)
    requires store.Valid()
    modifies store`events, store`streams, store`outbox
    ensures store.Valid() && InOrder(old(store.State()), at, decided) && Extends(decided, store.State())
    ensures RanAs(r, rows, at, decided, store.upcasters, app, s, model)
    ensures r.Wrote? ==> EndsAs(rows, r.inputs, s)
    ensures forall row | row in rows :: row in store.events
    ensures r.Wrote? && Blocked(r.inputs) ==>
      forall i | 0 <= i < |rows| :: rows[i].eventType != ApplicationApproved
  {
    var inputs, recommendation;
    inputs, recommendation, at := Decide(store, app, s);
    decided, rows := store.State(), [];
    ExtendsReflexive(decided);
    if inputs.None? {
      return Missing, rows, at, decided;
    }
    var basis := BasisOf(inputs.value, model);
    var refused, written := WriteOutput(store, app, recommendation, s, basis, stamp, stamp2);
    r, rows := Wrote(recommendation, inputs.value, refused), written;
    AllowedEnds(written, app, Version(decided, LoanStream(app)), recommendation, inputs.value, s, model);
  }

  /** The verdict the compliance agent writes is the verdict the orchestrator reads, as long as nobody
      completed another check after it. */
  lemma {:induction false} AgentVerdictIsRead(app: string, r: Agent.Evaluation, before: seq<StoredEvent>,
                                              row: StoredEvent,
                                              later: seq<StoredEvent>)
    requires row.eventType == ComplianceCheckCompleted && row.payload == Agent.CompletedEvent(app, r).payload
    requires r.verdict != ""
    requires forall e | e in later :: e.eventType != ComplianceCheckCompleted
    ensures var p := Latest(before + [row] + later, ComplianceCheckCompleted);
      p.Some? && VerdictIn(p.value.payload) == r.verdict
  {
    var es := before + [row] + later;
    if later == [] {
      assert es[|es| - 1] == row;
    } else {
      var front := later[..|later| - 1];
      assert es[|es| - 1] == later[|later| - 1] && later[|later| - 1] in later;
      assert es[..|es| - 1] == before + [row] + front;
      AgentVerdictIsRead(app, r, before, row, front);
    }
  }
}
