/** The agent session aggregate and its two guards. */
module AgentSession {
  import opened Events
  import opened Sequences
  import opened EventLog
  import opened Upcasting
  import opened Store

  datatype Session = Session(
    version: nat,
    contextLoaded: bool,
    modelVersion: Value,
    tokenCount: Value,
    contextSource: Value,
    applicationsProcessed: seq<Value>,
    lastDecision: Option<EventType>)

  const NewSession := Session(0, false, Null, Int(0), Text(""), [], None)

  predicate Readable(e: StoredEvent)
  {
    e.eventType == AgentContextLoaded ==> ModelVersion in e.payload
  }

  function Processed(apps: seq<Value>, app: Value): seq<Value>
  {
    if Truthy(app) && app !in apps then apps + [app] else apps
  }

  function Apply(s: Session, e: StoredEvent): Session
  {
    var p := e.payload;
    var moved := s.(version := e.streamPosition);
    match e.eventType
    case AgentContextLoaded =>
      moved.(contextLoaded := true, modelVersion := Get(p, ModelVersion),
             tokenCount := GetOr(p, ContextTokenCount, Int(0)), contextSource := GetOr(p, ContextSource, Text("")))
    case CreditAnalysisCompleted =>
      moved.(applicationsProcessed := Processed(s.applicationsProcessed, GetOr(p, ApplicationId, Text(""))),
             lastDecision := Some(CreditAnalysisCompleted))
    case FraudScreeningCompleted =>
      moved.(applicationsProcessed := Processed(s.applicationsProcessed, GetOr(p, ApplicationId, Text(""))))
    case DecisionGenerated => moved.(lastDecision := Some(DecisionGenerated))
    case _ => moved
  }

  function Replay(es: seq<StoredEvent>): (s: Session)
    ensures s.version == LastPosition(es)
  {
    Fold(Apply, NewSession, es)
  }

  predicate Loadable(es: seq<StoredEvent>)
  {
    forall e | e in es :: Readable(e)
  }

  predicate ContextIsLoaded(s: Session) { s.contextLoaded }
  predicate ModelIsCurrent(s: Session, model: string) { s.modelVersion != Null ==> s.modelVersion == Text(model) }

  class AgentSessionAggregate {
    var version: nat
    var contextLoaded: bool
    var modelVersion: Value
    var tokenCount: Value
    var contextSource: Value
    var applicationsProcessed: seq<Value>
    var lastDecision: Option<EventType>

    function Model(): Session
      reads this
    {
      Session(version, contextLoaded, modelVersion, tokenCount, contextSource, applicationsProcessed, lastDecision)
    }

    constructor ()
      ensures Model() == NewSession
    {
      version, contextLoaded, modelVersion := 0, false, Null;
      tokenCount, contextSource := Int(0), Text("");
      applicationsProcessed, lastDecision := [], None;
    }

    method ApplyEvent(e: StoredEvent) returns (ok: bool)
      modifies this
      ensures ok == Readable(e)
      ensures ok ==> Model() == Apply(old(Model()), e)
    {
      var p := e.payload;
      match e.eventType {
        case AgentContextLoaded =>
          contextLoaded := true;
          if ModelVersion !in p { return false; }
          modelVersion := p[ModelVersion];
          tokenCount := GetOr(p, ContextTokenCount, Int(0));
          contextSource := GetOr(p, ContextSource, Text(""));
        case CreditAnalysisCompleted =>
          var app := GetOr(p, ApplicationId, Text(""));
          if Truthy(app) && app !in applicationsProcessed {
            applicationsProcessed := applicationsProcessed + [app];
          }
          lastDecision := Some(CreditAnalysisCompleted);
        case FraudScreeningCompleted =>
          var app := GetOr(p, ApplicationId, Text(""));
          if Truthy(app) && app !in applicationsProcessed {
            applicationsProcessed := applicationsProcessed + [app];
          }
        case DecisionGenerated =>
          lastDecision := Some(DecisionGenerated);
        case _ =>
      }
      version := e.streamPosition;
      ok := true;
    }

    /** Null stands for the KeyError that aborts the load. */
    static method Load(store: EventStore, agentId: string, sessionId: string) returns (agg: AgentSessionAggregate?)
      requires store.Valid() && store.upcasters == Registered()
      ensures (agg != null) == Loadable(Stream(store.State(), AgentStream(agentId, sessionId)))
      ensures agg != null ==>
        fresh(agg) && agg.Model() == Replay(Stream(store.State(), AgentStream(agentId, sessionId)))
    {
      var es := store.LoadStream(AgentStream(agentId, sessionId), 0, None);
      ReplayIgnoresUpcasting(Stream(store.State(), AgentStream(agentId, sessionId)));
      var session := new AgentSessionAggregate();
      for i := 0 to |es|
        invariant session.Model() == Replay(es[..i])
        invariant Loadable(es[..i])
      {
        var ok := session.ApplyEvent(es[i]);
        if !ok {
          return null;
        }
        assert es[..i + 1] == es[..i] + [es[i]];
        FoldSnoc(Apply, NewSession, es[..i], es[i]);
      }
      assert es[..|es|] == es;
      agg := session;
    }
  }

  lemma ApplyIgnoresUpcasting(s: Session, e: StoredEvent)
    ensures Apply(s, Migrated(Registered(), e)) == Apply(s, e)
    ensures Readable(Migrated(Registered(), e)) == Readable(e)
  {
    RegisteredUpcast(e);
  }

  lemma ReplayIgnoresUpcasting(es: seq<StoredEvent>)
    ensures Replay(MigratedAll(Registered(), es)) == Replay(es)
    ensures Loadable(MigratedAll(Registered(), es)) == Loadable(es)
  {
    forall s: Session, e ensures Apply(s, Migrated(Registered(), e)) == Apply(s, e) {
      ApplyIgnoresUpcasting(s, e);
    }
    forall e ensures Readable(Migrated(Registered(), e)) == Readable(e) {
      ApplyIgnoresUpcasting(NewSession, e);
    }
    FoldIgnoresUpcasting(Registered(), Apply, NewSession, Readable, es);
  }

  /** Event i is the last context load and declares this model version. */
  ghost predicate DeclaredAt(es: seq<StoredEvent>, i: int, model: Value)
  {
    && 0 <= i < |es|
    && es[i].eventType == AgentContextLoaded && Get(es[i].payload, ModelVersion) == model
    && forall j | i < j < |es| :: es[j].eventType != AgentContextLoaded
  }

  /** What the fields of a session that a context load sets mean. */
  lemma {:induction false} SessionHoldsLastContext(es: seq<StoredEvent>)
    ensures Replay(es).contextLoaded <==> Latest(es, AgentContextLoaded).Some?
    ensures Replay(es).modelVersion == LatestValue(es, AgentContextLoaded, ModelVersion, Null)
    ensures Replay(es).tokenCount == LatestOr(es, AgentContextLoaded, ContextTokenCount, Int(0))
    ensures Replay(es).contextSource == LatestOr(es, AgentContextLoaded, ContextSource, Text(""))
  {
    if es != [] {
      SessionHoldsLastContext(es[..|es| - 1]);
    }
  }

  /** A session counts as loaded exactly when its stream holds an AgentContextLoaded, and its
      model version is the one the last such event declared. */
  lemma LoadedContextHasEvent(es: seq<StoredEvent>)
    ensures Replay(es).contextLoaded <==> exists i :: 0 <= i < |es| && es[i].eventType == AgentContextLoaded
    ensures Replay(es).contextLoaded ==> exists i :: DeclaredAt(es, i, Replay(es).modelVersion)
    ensures !Replay(es).contextLoaded ==> Replay(es).modelVersion == Null
  {
    SessionHoldsLastContext(es);
    var n := LatestIsLast(es, AgentContextLoaded);
    if n > 0 {
      assert DeclaredAt(es, n - 1, Replay(es).modelVersion);
    }
  }

  predicate IsDecision(t: EventType)
  {
    t == CreditAnalysisCompleted || t == DecisionGenerated
  }

  /** The type of the last analysis or decision. */
  lemma {:induction false} SessionHoldsLastDecision(es: seq<StoredEvent>) returns (n: nat)
    ensures n <= |es| && forall j | n <= j < |es| :: !IsDecision(es[j].eventType)
    ensures match Replay(es).lastDecision
      case None => n == 0
      case Some(t) => n > 0 && es[n - 1].eventType == t && IsDecision(t)
  {
    if es == [] || IsDecision(es[|es| - 1].eventType) {
      n := |es|;
    } else {
      n := SessionHoldsLastDecision(es[..|es| - 1]);
    }
  }

  predicate Processes(e: StoredEvent, app: Value)
  {
    (e.eventType == CreditAnalysisCompleted || e.eventType == FraudScreeningCompleted)
    && GetOr(e.payload, ApplicationId, Text("")) == app && Truthy(app)
  }

  lemma NextProcessed(s: Session, e: StoredEvent)
    requires Distinct(s.applicationsProcessed)
    ensures Distinct(Apply(s, e).applicationsProcessed)
    ensures forall app :: app in Apply(s, e).applicationsProcessed <==>
      app in s.applicationsProcessed || Processes(e, app)
  {
    var app := GetOr(e.payload, ApplicationId, Text(""));
    if Processes(e, app) && app !in s.applicationsProcessed {
      DistinctSnoc(s.applicationsProcessed, app);
    }
  }

  /** The applications processed are exactly those some analysis or screening of the session names, each once. */
  lemma {:induction false} ProcessedExactly(es: seq<StoredEvent>)
    ensures Distinct(Replay(es).applicationsProcessed)
    ensures forall app :: app in Replay(es).applicationsProcessed <==> exists e :: e in es && Processes(e, app)
  {
    if es != [] {
      var front, last := es[..|es| - 1], es[|es| - 1];
      ProcessedExactly(front);
      NextProcessed(Replay(front), last);
      assert es == front + [last];
      forall app ensures app in Replay(es).applicationsProcessed <==> exists e :: e in es && Processes(e, app) {
        assert (exists e :: e in es && Processes(e, app)) <==>
          (exists e :: e in front && Processes(e, app)) || Processes(last, app);
      }
    }
  }
}
