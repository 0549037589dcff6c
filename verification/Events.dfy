/** The vocabulary of the ledger: event types, JSON payloads, stored rows and stream names. */
module Events {

  datatype Option<+T> = None | Some(value: T)

  datatype EventType =
    | ApplicationSubmitted
    | CreditAnalysisRequested
    | CreditAnalysisCompleted
    | FraudScreeningRequested
    | FraudScreeningCompleted
    | ComplianceCheckRequested
    | ComplianceRulePassed
    | ComplianceRuleFailed
    | ComplianceRuleNoted
    | ComplianceCheckInitiated
    | ComplianceCheckCompleted
    | ComplianceClearanceIssued
    | DecisionGenerated
    | HumanReviewRequested
    | HumanReviewCompleted
    | ApplicationApproved
    | ApplicationDeclined
    | AgentContextLoaded
    | AuditIntegrityCheckRun
    | OtherEvent(name: string)

  /** The payload keys some code reads or writes; every other key is OtherKey. */
  datatype Key =
    | ApplicationId | ApplicantId | RequestedAmount | ApprovedAmount
    | AgentId | SessionId | OrchestratorId | ReviewerId
    | ModelVersion | ModelVersions | ConfidenceScore | RegulatoryBasis
    | RiskTier | RecommendedLimit | AnalysisDuration | FraudScore
    | ChecksRequired | RuleId | RuleVersion | EvidenceHash
    | FailureReason | RemediationRequired | IsHardBlock
    | Recommendation | ContributingSessions | FinalDecision
    | ContextTokenCount | ContextSource
    | VerifiedCount | IntegrityHash | PreviousHash
    | OverallVerdict | HasHardBlock | RulesEvaluated | RulesPassed | RulesFailed | RulesNoted
    | NestedDecision | Confidence
    | EventTypeName | StreamName
    | OtherKey(name: string)

  datatype Value =
    | Null
    | Flag(b: bool)
    | Int(n: int)
    | Real(x: real)
    | Text(s: string)
    | List(items: seq<Value>)
    | Object(fields: map<Key, Value>)
    | TypeName(t: EventType)

  type Payload = map<Key, Value>

  /** dict.get(key): a missing key and a JSON null read the same. */
  function Get(p: Payload, k: Key): Value
  {
    if k in p then p[k] else Null
  }

  /** dict.get(key, default). */
  function GetOr(p: Payload, k: Key, d: Value): Value
  {
    if k in p then p[k] else d
  }

  /** Python truthiness of a JSON value. */
  predicate Truthy(v: Value)
  {
    match v
    case Null => false
    case Flag(b) => b
    case Int(n) => n != 0
    case Real(x) => x != 0.0
    case Text(s) => s != ""
    case List(items) => items != []
    case Object(fields) => fields != map[]
    case TypeName(_) => true
  }

  /** The values that count as false. */
  lemma FalsyExactly(v: Value)
    ensures !Truthy(v) <==> v in {Null, Flag(false), Int(0), Real(0.0), Text(""), List([]), Object(map[])}
  {
  }

  /** A non-empty string, the only value an identifier field holds usefully. */
  predicate IsName(v: Value)
  {
    v.Text? && v.s != ""
  }

  /** What a TEXT column takes. */
  predicate TextOrNull(v: Value)
  {
    v.Text? || v.Null?
  }

  /** What a NUMERIC column takes; a flag counts as one or zero. */
  predicate NumberOrNull(v: Value)
  {
    v.Null? || v.Int? || v.Real? || v.Flag?
  }

  datatype Metadata = Metadata(correlationId: Option<string>, causationId: Option<string>)

  /** A key is put in the metadata only when its value is truthy. */
  function MakeMetadata(correlation: Option<string>, causation: Option<string>): Metadata
  {
    Metadata(if correlation == Some("") then None else correlation,
             if causation == Some("") then None else causation)
  }

  const NoMeta := MakeMetadata(None, None)

  datatype NewEvent = NewEvent(eventType: EventType, version: int, payload: Payload)

  /** What the database fills in on insertion: primary key, identity column and clock. */
  datatype Stamp = Stamp(eventId: string, globalPosition: nat, recordedAt: int)

  datatype Insert = Insert(event: NewEvent, stamp: Stamp)

  datatype StoredEvent = StoredEvent(
    eventId: string,
    streamId: string,
    streamPosition: nat,
    globalPosition: nat,
    eventType: EventType,
    version: int,
    payload: Payload,
    metadata: Metadata,
    recordedAt: int)

  function LoanStream(applicationId: string): string { "loan-" + applicationId }
  function ComplianceStream(applicationId: string): string { "compliance-" + applicationId }
  function AgentStream(agentId: string, sessionId: string): string { "agent-" + agentId + "-" + sessionId }

  lemma ComplianceStreamInjective(a: string, b: string)
    requires ComplianceStream(a) == ComplianceStream(b)
    ensures a == b
  {
    assert ComplianceStream(a)[11..] == a && ComplianceStream(b)[11..] == b;
  }

  /** What the names of the streams are made of. */
  lemma StreamNames(a: string, s: string)
    ensures LoanStream(a)[..5] == "loan-" && LoanStream(a)[5..] == a
    ensures ComplianceStream(a)[..11] == "compliance-" && ComplianceStream(a)[11..] == a
    ensures AgentStream(a, s)[..6] == "agent-" && AgentStream(a, s)[6..] == a + "-" + s
  {
    assert AgentStream(a, s) == "agent-" + (a + "-" + s);
  }

  /** Loan, compliance and agent streams never share a name; agent streams can collide with each other. */
  lemma StreamKindsDisjoint(a: string, b: string, s: string)
    ensures LoanStream(a) != ComplianceStream(b)
    ensures LoanStream(a) != AgentStream(b, s)
    ensures ComplianceStream(a) != AgentStream(b, s)
  {
    assert LoanStream(a)[0] == 'l';
    assert ComplianceStream(b)[0] == 'c' && ComplianceStream(a)[0] == 'c';
    assert AgentStream(b, s)[0] == 'a';
  }
}
