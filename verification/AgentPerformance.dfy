/** The agent performance ledger: running averages and rates against the statistics they stand for. */
module AgentPerformance {
  import opened Events
  import opened Sequences

  datatype Row = Row(
    analyses: nat, decisions: nat,
    avgConfidence: Option<real>, avgDuration: Option<real>,
    approveRate: Option<real>, declineRate: Option<real>, referRate: Option<real>)

  const NewRow := Row(0, 0, None, None, None, None, None)

  /** The primary key: agent and model version. */
  type Table = map<(string, string), Row>

  // ---- what an event contributes ----

  function Number(v: Value): Option<real>
  {
    match v
    case Int(n) => Some(n as real)
    case Real(x) => Some(x)
    case Flag(b) => Some(if b then 1.0 else 0.0)
    case _ => None
  }

  /** model_versions.get(agent, "unknown") */
  function ModelOf(versions: Value, agent: string): Value
  {
    if versions.Object? then GetOr(versions.fields, OtherKey(agent), Text("unknown")) else Null
  }

  /** The row an event is about; None for the events that touch no row. */
  function RowKey(e: StoredEvent): Option<(Value, Value)>
  {
    var p := e.payload;
    match e.eventType
    case AgentContextLoaded => Some((Get(p, AgentId), Get(p, ModelVersion)))
    case CreditAnalysisCompleted => Some((Get(p, AgentId), GetOr(p, ModelVersion, Text("unknown"))))
    case DecisionGenerated =>
      var agent := GetOr(p, OrchestratorId, Text(""));
      Some((agent, if agent.Text? then ModelOf(GetOr(p, ModelVersions, Object(map[])), agent.s) else Null))
    case _ => None
  }

  /** A subscribed event without usable keys raises before it touches the table. */
  predicate KeyRefused(e: StoredEvent)
  {
    RowKey(e).Some? && !(RowKey(e).value.0.Text? && RowKey(e).value.1.Text?)
  }

  /** A figure that is no number raises when the row is already ensured. */
  predicate ValueRefused(e: StoredEvent)
  {
    && e.eventType == CreditAnalysisCompleted
    && !(NumberOrNull(Get(e.payload, AnalysisDuration)) && NumberOrNull(Get(e.payload, ConfidenceScore)))
  }

  predicate Raises(e: StoredEvent)
  {
    KeyRefused(e) || ValueRefused(e)
  }

  function KeyOf(e: StoredEvent): (string, string)
    requires RowKey(e).Some? && !KeyRefused(e)
  {
    (RowKey(e).value.0.s, RowKey(e).value.1.s)
  }

  /** A missing duration counts as zero. */
  function DurationOf(e: StoredEvent): real
  {
    var d := Number(Get(e.payload, AnalysisDuration));
    if d.Some? then d.value else 0.0
  }

  function ConfidenceOf(e: StoredEvent): Option<real>
  {
    Number(Get(e.payload, ConfidenceScore))
  }

  /** A missing recommendation counts as REFER. */
  function RecommendationOf(e: StoredEvent): Value
  {
    GetOr(e.payload, Recommendation, Text("REFER"))
  }

  // ---- the statements ----

  /** CASE WHEN avg IS NULL THEN x ELSE (avg * n + x) / (n + 1) END */
  function RunningAverage(avg: Option<real>, n: nat, x: real): Option<real>
  {
    match avg
    case None => Some(x)
    case Some(a) => Some((a * n as real + x) / (n + 1) as real)
  }

  /** (COALESCE(rate, 0) * n + increment) / (n + 1) */
  function RunningRate(rate: Option<real>, n: nat, hit: bool): Option<real>
  {
    Some(((if rate.Some? then rate.value else 0.0) * n as real + (if hit then 1.0 else 0.0)) / (n + 1) as real)
  }

  function AnalysisUpdate(r: Row, duration: real, confidence: Option<real>): Row
  {
    r.(analyses := r.analyses + 1,
       avgDuration := RunningAverage(r.avgDuration, r.analyses, duration),
       avgConfidence := if confidence.Some? then RunningAverage(r.avgConfidence, r.analyses, confidence.value)
                        else r.avgConfidence)
  }

  function DecisionUpdate(r: Row, recommendation: Value): Row
  {
    r.(decisions := r.decisions + 1,
       approveRate := RunningRate(r.approveRate, r.decisions, recommendation == Text("APPROVE")),
       declineRate := RunningRate(r.declineRate, r.decisions, recommendation == Text("DECLINE")),
       referRate := RunningRate(r.referRate, r.decisions, recommendation == Text("REFER")))
  }

  function RowStep(r: Row, e: StoredEvent): Row
  {
    match e.eventType
    case CreditAnalysisCompleted => if ValueRefused(e) then r else AnalysisUpdate(r, DurationOf(e), ConfidenceOf(e))
    case DecisionGenerated => DecisionUpdate(r, RecommendationOf(e))
    case _ => r
  }

  function RowIn(t: Table, k: (string, string)): Row
  {
    if k in t then t[k] else NewRow
  }

  /** A delivery steps the row of the event's key. */
  function Stepping(step: (Row, StoredEvent) -> Row): (Table, StoredEvent) -> Table
  {
    (t: Table, e: StoredEvent) =>
      if RowKey(e).None? || KeyRefused(e) then t else t[KeyOf(e) := step(RowIn(t, KeyOf(e)), e)]
  }

  /** What one delivery does to the table; one that raises on a figure has ensured the row and counts nothing. */
  function Handle(t: Table, e: StoredEvent): (r: Table)
    ensures RowKey(e).Some? && !KeyRefused(e) ==> r == t[KeyOf(e) := RowStep(RowIn(t, KeyOf(e)), e)]
  {
    Stepping(RowStep)(t, e)
  }

  // ---- what the handler takes, and whose row it moves ----

  /** Nothing, a null, or a number. */
  predicate NumberAt(p: Payload, k: Key)
  {
    k in p ==> p[k].Null? || p[k].Int? || p[k].Real? || p[k].Flag?
  }

  /** The model a decision names for an agent, with a default for a missing one; the table itself may be missing. */
  predicate ModelNamed(p: Payload, agent: string, model: string)
  {
    if ModelVersions !in p then model == "unknown"
    else
      && p[ModelVersions].Object?
      && var versions := p[ModelVersions].fields;
         if OtherKey(agent) in versions then versions[OtherKey(agent)] == Text(model) else model == "unknown"
  }

  /** The event is taken, and is about this agent and model. */
  ghost predicate Concerns(e: StoredEvent, agent: string, model: string)
  {
    var p := e.payload;
    match e.eventType
    case AgentContextLoaded =>
      AgentId in p && p[AgentId] == Text(agent) && ModelVersion in p && p[ModelVersion] == Text(model)
    case CreditAnalysisCompleted =>
      && AgentId in p && p[AgentId] == Text(agent)
      && (if ModelVersion in p then p[ModelVersion] == Text(model) else model == "unknown")
    case DecisionGenerated =>
      (if OrchestratorId in p then p[OrchestratorId] == Text(agent) else agent == "") && ModelNamed(p, agent, model)
    case _ => false
  }

  /** The events that are taken: those about some agent and model whose figures are numbers, and those the table does
      not count. */
  ghost predicate Taken(e: StoredEvent)
  {
    if e.eventType in {AgentContextLoaded, CreditAnalysisCompleted, DecisionGenerated} then
      && (exists agent, model :: Concerns(e, agent, model))
      && (e.eventType == CreditAnalysisCompleted ==>
            NumberAt(e.payload, AnalysisDuration) && NumberAt(e.payload, ConfidenceScore))
    else true
  }

  /** A number at a key; null and nothing have none. */
  function NumberIn(p: Payload, k: Key): Option<real>
  {
    if k !in p then None
    else
      match p[k]
      case Int(n) => Some(n as real)
      case Real(x) => Some(x)
      case Flag(b) => Some(if b then 1.0 else 0.0)
      case _ => None
  }

  /** The row of the agent and model after the event: there at least, one analysis more with its duration (none counts
      as zero) and its score if it has one, or one decision more with its recommendation (none counts as REFER). */
  ghost predicate RowMoves(r: Row, after: Row, e: StoredEvent)
  {
    var p := e.payload;
    match e.eventType
    case CreditAnalysisCompleted =>
      var d, c := NumberIn(p, AnalysisDuration), NumberIn(p, ConfidenceScore);
      after == r.(analyses := r.analyses + 1,
                  avgDuration := RunningAverage(r.avgDuration, r.analyses, if d.Some? then d.value else 0.0),
                  avgConfidence := if c.Some? then RunningAverage(r.avgConfidence, r.analyses, c.value)
                                   else r.avgConfidence)
    case DecisionGenerated =>
      var recommendation := if Recommendation in p then p[Recommendation] else Text("REFER");
      after == r.(decisions := r.decisions + 1,
                  approveRate := RunningRate(r.approveRate, r.decisions, recommendation == Text("APPROVE")),
                  declineRate := RunningRate(r.declineRate, r.decisions, recommendation == Text("DECLINE")),
                  referRate := RunningRate(r.referRate, r.decisions, recommendation == Text("REFER")))
    case _ => after == r
  }

  lemma ConcernsExactly(e: StoredEvent, agent: string, model: string)
    ensures Concerns(e, agent, model) <==> RowKey(e).Some? && !KeyRefused(e) && KeyOf(e) == (agent, model)
  {
  }

  lemma TakenExactly(e: StoredEvent)
    ensures Taken(e) <==> !Raises(e)
  {
    if RowKey(e).Some? && !KeyRefused(e) {
      ConcernsExactly(e, KeyOf(e).0, KeyOf(e).1);
    }
    forall agent, model ensures Concerns(e, agent, model) ==> RowKey(e).Some? && !KeyRefused(e) {
      ConcernsExactly(e, agent, model);
    }
  }

  /** A taken event moves exactly the row of the agent and model it concerns. */
  lemma HandleMoves(t: Table, e: StoredEvent, agent: string, model: string)
    requires !Raises(e) && Concerns(e, agent, model)
    ensures (agent, model) in Handle(t, e)
    ensures Handle(t, e) == t[(agent, model) := Handle(t, e)[(agent, model)]]
    ensures RowMoves(if (agent, model) in t then t[(agent, model)] else Row(0, 0, None, None, None, None, None),
                     Handle(t, e)[(agent, model)], e)
  {
    ConcernsExactly(e, agent, model);
  }

  class AgentPerformanceLedgerProjection {
    var table: Table

    constructor ()
      ensures table == map[]
    {
      table := map[];
    }

    method HandleEvent(e: StoredEvent) returns (ok: bool)
      modifies this
      ensures ok == !Raises(e)
      ensures table == Handle(old(table), e)
      ensures ok <==> Taken(e)
      ensures forall agent, model | ok && Concerns(e, agent, model) ::
        var k := (agent, model);
        && k in table && table == old(table)[k := table[k]]
        && RowMoves(if k in old(table) then old(table)[k] else Row(0, 0, None, None, None, None, None), table[k], e)
      ensures ok && (forall agent, model :: !Concerns(e, agent, model)) ==> table == old(table)
    {
      TakenExactly(e);
      forall agent, model | !Raises(e) && Concerns(e, agent, model)
        ensures var k := (agent, model);
          && k in Handle(table, e) && Handle(table, e) == table[k := Handle(table, e)[k]]
          && RowMoves(if k in table then table[k] else Row(0, 0, None, None, None, None, None), Handle(table, e)[k], e)
      {
        HandleMoves(table, e, agent, model);
      }
      if RowKey(e).Some? && !KeyRefused(e) {
        ConcernsExactly(e, KeyOf(e).0, KeyOf(e).1);
      }
      var key := RowKey(e);
      if key.None? {
        return true;
      }
      if KeyRefused(e) {
        return false;
      }
      var k := (key.value.0.s, key.value.1.s);
      EnsureRow(k);
      var r := table[k];
      if e.eventType == CreditAnalysisCompleted {
        if ValueRefused(e) {
          return false;
        }
        var duration := DurationOf(e);
        var confidence := ConfidenceOf(e);
        if confidence.Some? {
          table := table[k := r.(analyses := r.analyses + 1,
            avgDuration := RunningAverage(r.avgDuration, r.analyses, duration),
            avgConfidence := RunningAverage(r.avgConfidence, r.analyses, confidence.value))];
        } else {
          table := table[k := r.(analyses := r.analyses + 1,
            avgDuration := RunningAverage(r.avgDuration, r.analyses, duration))];
        }
      } else if e.eventType == DecisionGenerated {
        table := table[k := DecisionUpdate(r, RecommendationOf(e))];
      }
      ok := true;
    }

    /** INSERT ... ON CONFLICT: the counters of an existing row stay. */
    method EnsureRow(k: (string, string))
      modifies this
      ensures table == old(table)[k := RowIn(old(table), k)]
    {
      if k !in table {
        table := table[k := NewRow];
      } else {
        assert table == table[k := table[k]];
      }
    }

    method Rebuild()
      modifies this
      ensures table == map[]
    {
      table := map[];
    }
  }

  // ---- the statistics ----

  function Sum(xs: seq<real>): real
  {
    if xs == [] then 0.0 else Sum(xs[..|xs| - 1]) + xs[|xs| - 1]
  }

  function Mean(xs: seq<real>): real
    requires xs != []
  {
    Sum(xs) / |xs| as real
  }

  lemma MeanTimesCount(xs: seq<real>)
    requires xs != []
    ensures Mean(xs) * |xs| as real == Sum(xs)
  {
    DivideThenMultiply(Sum(xs), |xs| as real);
  }

  lemma DivideThenMultiply(a: real, b: real)
    requires b != 0.0
    ensures (a / b) * b == a
  {
  }

  lemma MeanOfOne(x: real)
    ensures Mean([x]) == x
  {
    assert [x][..0] == [];
    assert Sum([x]) == x;
  }

  /** One running-average update is exact when the count it uses is the number of values averaged so far. */
  lemma RunningAverageIsMean(xs: seq<real>, x: real)
    requires xs != []
    ensures RunningAverage(Some(Mean(xs)), |xs|, x) == Some(Mean(xs + [x]))
  {
    MeanTimesCount(xs);
    assert (xs + [x])[..|xs|] == xs;
    var n := |xs|;
    assert Sum(xs + [x]) == Mean(xs) * n as real + x;
    assert |xs + [x]| == n + 1;
    assert Mean(xs + [x]) == (Mean(xs) * n as real + x) / (n + 1) as real;
    assert RunningAverage(Some(Mean(xs)), n, x).value == (Mean(xs) * n as real + x) / (n + 1) as real;
  }

  function Durations(es: seq<StoredEvent>): seq<real>
  {
    Map(DurationOf, Filter(es, IsAnalysis))
  }

  predicate IsAnalysis(e: StoredEvent) { e.eventType == CreditAnalysisCompleted && !ValueRefused(e) }
  predicate IsDecision(e: StoredEvent) { e.eventType == DecisionGenerated }

  function Recommending(r: Value): StoredEvent -> bool
  {
    (e: StoredEvent) => IsDecision(e) && RecommendationOf(e) == r
  }

  function DecisionCount(es: seq<StoredEvent>): nat { |Filter(es, IsDecision)| }
  function CountOf(es: seq<StoredEvent>, r: string): nat { |Filter(es, Recommending(Text(r)))| }

  function RowOf(es: seq<StoredEvent>): Row
  {
    Fold(RowStep, NewRow, es)
  }

  predicate About(e: StoredEvent, k: (string, string))
  {
    RowKey(e).Some? && !KeyRefused(e) && KeyOf(e) == k
  }

  function AboutKey(k: (string, string)): StoredEvent -> bool
  {
    (e: StoredEvent) => About(e, k)
  }

  function TableOf(log: seq<StoredEvent>): Table
  {
    Fold(Stepping(RowStep), map[], log)
  }

  lemma {:induction false} SteppedRow(step: (Row, StoredEvent) -> Row, log: seq<StoredEvent>, k: (string, string))
    ensures k in Fold(Stepping(step), map[], log) <==> Filter(log, AboutKey(k)) != []
    ensures RowIn(Fold(Stepping(step), map[], log), k) == Fold(step, NewRow, Filter(log, AboutKey(k)))
  {
    if log != [] {
      var front, last := log[..|log| - 1], log[|log| - 1];
      SteppedRow(step, front, k);
      var kept := Filter(front, AboutKey(k));
      assert log == front + [last];
      FilterSnoc(front, last, AboutKey(k));
      if About(last, k) {
        FoldSnoc(step, NewRow, kept, last);
      } else {
        assert kept + [] == kept;
      }
    }
  }

  /** Each row of the table depends on the log only through the events attributed to its agent and model. */
  lemma RowDependsOnItsEvents(log: seq<StoredEvent>, k: (string, string))
    ensures k in TableOf(log) <==> Filter(log, AboutKey(k)) != []
    ensures RowIn(TableOf(log), k) == RowOf(Filter(log, AboutKey(k)))
  {
    SteppedRow(RowStep, log, k);
  }

  lemma DurationsSnoc(es: seq<StoredEvent>, e: StoredEvent)
    ensures Durations(es + [e]) == Durations(es) + if IsAnalysis(e) then [DurationOf(e)] else []
  {
    FilterSnoc(es, e, IsAnalysis);
    var kept := Filter(es, IsAnalysis);
    if !IsAnalysis(e) {
      assert kept + [] == kept && Durations(es) + [] == Durations(es);
    } else {
      assert Map(DurationOf, kept + [e]) == Map(DurationOf, kept) + [DurationOf(e)];
    }
  }

  /** avg_duration_ms is the mean over all analyses, a missing duration counted as zero. */
  lemma {:induction false} DurationIsMean(es: seq<StoredEvent>)
    ensures RowOf(es).analyses == |Durations(es)|
    ensures RowOf(es).avgDuration == if Durations(es) == [] then None else Some(Mean(Durations(es)))
  {
    if es != [] {
      var front, last := es[..|es| - 1], es[|es| - 1];
      DurationIsMean(front);
      assert es == front + [last];
      DurationsSnoc(front, last);
      if IsAnalysis(last) && Durations(front) != [] {
        RunningAverageIsMean(Durations(front), DurationOf(last));
      } else if IsAnalysis(last) {
        assert [] + [DurationOf(last)] == [DurationOf(last)];
        MeanOfOne(DurationOf(last));
      } else {
        assert Durations(front) + [] == Durations(front);
      }
    }
  }

  function Fraction(part: nat, whole: nat): real
    requires whole > 0
  {
    part as real / whole as real
  }

  lemma RunningRateIsFraction(hits: nat, n: nat, hit: bool)
    requires n > 0
    ensures RunningRate(Some(Fraction(hits, n)), n, hit) == Some(Fraction(hits + (if hit then 1 else 0), n + 1))
  {
    DivideThenMultiply(hits as real, n as real);
  }

  /** COALESCE(rate, 0) is the exact fraction before the first decision too. */
  lemma RateStep(rate: Option<real>, hits: nat, n: nat, hit: bool)
    requires hits <= n && rate == if n == 0 then None else Some(Fraction(hits, n))
    ensures RunningRate(rate, n, hit) == Some(Fraction(hits + (if hit then 1 else 0), n + 1))
  {
    if n > 0 {
      RunningRateIsFraction(hits, n, hit);
    }
  }

  /** The three rates are exact fractions of the decisions. */
  lemma {:induction false} RatesAreFractions(es: seq<StoredEvent>)
    ensures var (r, n) := (RowOf(es), DecisionCount(es));
      && r.decisions == n
      && CountOf(es, "APPROVE") <= n && CountOf(es, "DECLINE") <= n && CountOf(es, "REFER") <= n
      && r.approveRate == (if n == 0 then None else Some(Fraction(CountOf(es, "APPROVE"), n)))
      && r.declineRate == (if n == 0 then None else Some(Fraction(CountOf(es, "DECLINE"), n)))
      && r.referRate == (if n == 0 then None else Some(Fraction(CountOf(es, "REFER"), n)))
  {
    if es != [] {
      var front, last := es[..|es| - 1], es[|es| - 1];
      RatesAreFractions(front);
      if IsDecision(last) {
        var (r, n) := (RowOf(front), DecisionCount(front));
        RateStep(r.approveRate, CountOf(front, "APPROVE"), n, RecommendationOf(last) == Text("APPROVE"));
        RateStep(r.declineRate, CountOf(front, "DECLINE"), n, RecommendationOf(last) == Text("DECLINE"));
        RateStep(r.referRate, CountOf(front, "REFER"), n, RecommendationOf(last) == Text("REFER"));
      }
    }
  }

  predicate OneOfThree(e: StoredEvent)
  {
    RecommendationOf(e) in {Text("APPROVE"), Text("DECLINE"), Text("REFER")}
  }

  lemma {:induction false} ThreeCountsCover(es: seq<StoredEvent>)
    ensures CountOf(es, "APPROVE") + CountOf(es, "DECLINE") + CountOf(es, "REFER") <= DecisionCount(es)
    ensures CountOf(es, "APPROVE") + CountOf(es, "DECLINE") + CountOf(es, "REFER") == DecisionCount(es) <==>
      forall e | e in es && IsDecision(e) :: OneOfThree(e)
  {
    if es != [] {
      ThreeCountsCover(es[..|es| - 1]);
      assert es == es[..|es| - 1] + [es[|es| - 1]];
    }
  }

  /** The rates sum to one if and only if every recommendation is one of the three. */
  lemma RatesSumToOneExactly(es: seq<StoredEvent>)
    requires DecisionCount(es) > 0
    ensures var r := RowOf(es);
      && r.approveRate.Some? && r.declineRate.Some? && r.referRate.Some?
      && (r.approveRate.value + r.declineRate.value + r.referRate.value == 1.0 <==>
            forall e | e in es && IsDecision(e) :: OneOfThree(e))
  {
    RatesAreFractions(es);
    ThreeCountsCover(es);
    var (a, d, f, n) := (CountOf(es, "APPROVE"), CountOf(es, "DECLINE"), CountOf(es, "REFER"), DecisionCount(es));
    FractionsSum(a, d, f, n);
  }

  lemma FractionsSum(a: nat, d: nat, f: nat, n: nat)
    requires n > 0
    ensures Fraction(a, n) + Fraction(d, n) + Fraction(f, n) == 1.0 <==> a + d + f == n
  {
    var s := Fraction(a, n) + Fraction(d, n) + Fraction(f, n);
    DivideThenMultiply(a as real, n as real);
    DivideThenMultiply(d as real, n as real);
    DivideThenMultiply(f as real, n as real);
    assert s * n as real == (a + d + f) as real;
  }

  // ---- confidence ----

  /** The confidence column after scores xs, null where an analysis carried none. */
  function ConfidenceAfter(xs: seq<Option<real>>): Option<real>
  {
    if xs == [] then None
    else
      var before := ConfidenceAfter(xs[..|xs| - 1]);
      var x := xs[|xs| - 1];
      if x.Some? then RunningAverage(before, |xs| - 1, x.value) else before
  }

  function Scores(es: seq<StoredEvent>): seq<Option<real>>
  {
    Map(ConfidenceOf, Filter(es, IsAnalysis))
  }

  lemma ScoresSnoc(es: seq<StoredEvent>, e: StoredEvent)
    ensures Scores(es + [e]) == if IsAnalysis(e) then Scores(es) + [ConfidenceOf(e)] else Scores(es)
  {
    FilterSnoc(es, e, IsAnalysis);
    var kept := Filter(es, IsAnalysis);
    if IsAnalysis(e) {
      MapSnoc(ConfidenceOf, kept, e);
    } else {
      assert kept + [] == kept;
    }
  }

  lemma ConfidenceSnoc(xs: seq<Option<real>>, x: Option<real>)
    ensures ConfidenceAfter(xs + [x]) ==
      if x.Some? then RunningAverage(ConfidenceAfter(xs), |xs|, x.value) else ConfidenceAfter(xs)
  {
    assert (xs + [x])[..|xs|] == xs;
  }

  lemma ConfidenceNext(r: Row, e: StoredEvent, xs: seq<Option<real>>)
    requires r.analyses == |xs| && r.avgConfidence == ConfidenceAfter(xs)
    ensures var xs' := if IsAnalysis(e) then xs + [ConfidenceOf(e)] else xs;
      RowStep(r, e).analyses == |xs'| && RowStep(r, e).avgConfidence == ConfidenceAfter(xs')
  {
    ConfidenceSnoc(xs, ConfidenceOf(e));
  }

  lemma {:induction false} ConfidenceColumn(es: seq<StoredEvent>)
    ensures RowOf(es).analyses == |Scores(es)| && RowOf(es).avgConfidence == ConfidenceAfter(Scores(es))
  {
    if es != [] {
      var front, last := es[..|es| - 1], es[|es| - 1];
      ConfidenceColumn(front);
      assert es == front + [last];
      ScoresSnoc(front, last);
      ConfidenceNext(RowOf(front), last, Scores(front));
    }
  }

  function NonNull(xs: seq<Option<real>>): seq<real>
  {
    if xs == [] then []
    else NonNull(xs[..|xs| - 1]) + if xs[|xs| - 1].Some? then [xs[|xs| - 1].value] else []
  }

  predicate Within(xs: seq<real>, lo: real, hi: real)
  {
    forall x | x in xs :: lo <= x <= hi
  }

  lemma AverageStaysWithin(a: real, n: nat, x: real, lo: real, hi: real)
    requires lo <= a <= hi && lo <= x <= hi
    ensures lo <= RunningAverage(Some(a), n, x).value <= hi
  {
    var k, m := n as real, (n + 1) as real;
    var top := a * k + x;
    ScaleOrder(lo, a, k);
    ScaleOrder(a, hi, k);
    OneMore(lo, k);
    OneMore(hi, k);
    assert m == k + 1.0;
    assert lo * m == lo * k + lo && hi * m == hi * k + hi;
    QuotientWithin(top, m, lo, hi);
  }

  lemma ScaleOrder(a: real, b: real, k: real)
    requires a <= b && k >= 0.0
    ensures a * k <= b * k
  {
  }

  lemma OneMore(a: real, k: real)
    ensures a * (k + 1.0) == a * k + a
  {
  }

  lemma QuotientWithin(top: real, m: real, lo: real, hi: real)
    requires m > 0.0 && lo * m <= top <= hi * m
    ensures lo <= top / m <= hi
  {
    DivideThenMultiply(top, m);
    CancelFactor(lo, top / m, m);
    CancelFactor(top / m, hi, m);
  }

  lemma CancelFactor(a: real, b: real, m: real)
    requires m > 0.0 && a * m <= b * m
    ensures a <= b
  {
  }

  /** Whatever the nulls, the confidence column stays within the range of the non-null scores. */
  lemma {:induction false} ConfidenceStaysWithin(xs: seq<Option<real>>, lo: real, hi: real)
    requires Within(NonNull(xs), lo, hi)
    ensures ConfidenceAfter(xs).Some? <==> NonNull(xs) != []
    ensures ConfidenceAfter(xs).Some? ==> lo <= ConfidenceAfter(xs).value <= hi
  {
    if xs != [] {
      var front, x := xs[..|xs| - 1], xs[|xs| - 1];
      assert forall y | y in NonNull(front) :: y in NonNull(xs);
      ConfidenceStaysWithin(front, lo, hi);
      if x.Some? {
        assert x.value == NonNull(xs)[|NonNull(xs)| - 1];
        assert x.value in NonNull(xs);
        if ConfidenceAfter(front).Some? {
          AverageStaysWithin(ConfidenceAfter(front).value, |xs| - 1, x.value, lo, hi);
        }
      }
    }
  }

  /** Which analyses carried a score. */
  function Pattern(xs: seq<Option<real>>): seq<bool>
  {
    Map((x: Option<real>) => x.Some?, xs)
  }

  function Scored(pattern: seq<bool>): nat
  {
    if pattern == [] then 0 else Scored(pattern[..|pattern| - 1]) + if pattern[|pattern| - 1] then 1 else 0
  }

  /** At most one score, or no null before the last score. */
  predicate NullsOnlyTrail(pattern: seq<bool>)
  {
    Scored(pattern) <= 1 || forall i, j | 0 <= i < j < |pattern| && pattern[j] :: pattern[i]
  }

  lemma {:induction false} ScoredIsCount(xs: seq<Option<real>>)
    ensures |NonNull(xs)| == Scored(Pattern(xs))
  {
    if xs != [] {
      ScoredIsCount(xs[..|xs| - 1]);
      assert Pattern(xs)[..|xs| - 1] == Pattern(xs[..|xs| - 1]);
    }
  }

  lemma {:induction false} ScoredAtMost(pattern: seq<bool>)
    ensures Scored(pattern) <= |pattern|
    ensures Scored(pattern) == |pattern| <==> forall i | 0 <= i < |pattern| :: pattern[i]
  {
    if pattern != [] {
      ScoredAtMost(pattern[..|pattern| - 1]);
    }
  }

  lemma PatternOfFront(xs: seq<Option<real>>)
    requires xs != [] && NullsOnlyTrail(Pattern(xs))
    ensures NullsOnlyTrail(Pattern(xs[..|xs| - 1]))
    ensures Pattern(xs[..|xs| - 1]) == Pattern(xs)[..|xs| - 1]
  {
    var p, q := Pattern(xs), Pattern(xs[..|xs| - 1]);
    assert p[..|xs| - 1] == q;
    if Scored(p) > 1 {
      forall i, j | 0 <= i < j < |q| && q[j] ensures q[i] {
        assert p[j] && p[i];
      }
    }
  }

  lemma NonNullSnoc(xs: seq<Option<real>>, x: Option<real>)
    ensures NonNull(xs + [x]) == if x.Some? then NonNull(xs) + [x.value] else NonNull(xs)
  {
    assert (xs + [x])[..|xs|] == xs;
    assert NonNull(xs) + [] == NonNull(xs);
  }

  /** A further score behind scores without a null between them. */
  lemma NoNullBefore(front: seq<Option<real>>, x: Option<real>)
    requires NullsOnlyTrail(Pattern(front + [x])) && x.Some? && NonNull(front) != []
    ensures |NonNull(front)| == |front|
  {
    var xs := front + [x];
    ScoredIsCount(front);
    ScoredIsCount(xs);
    NonNullSnoc(front, x);
    var p := Pattern(xs);
    assert p[|front|];
    forall i | 0 <= i < |front| ensures Pattern(front)[i] {
      assert p[i] && p[i] == Pattern(front)[i];
    }
    ScoredAtMost(Pattern(front));
  }

  /** With nulls only behind the scores, the column is the mean of the scores. */
  lemma {:induction false} TrailingNullsGiveMean(xs: seq<Option<real>>)
    requires NullsOnlyTrail(Pattern(xs)) && NonNull(xs) != []
    ensures ConfidenceAfter(xs) == Some(Mean(NonNull(xs)))
  {
    var front, x := xs[..|xs| - 1], xs[|xs| - 1];
    assert xs == front + [x];
    PatternOfFront(xs);
    ConfidenceSnoc(front, x);
    NonNullSnoc(front, x);
    if x.None? {
      TrailingNullsGiveMean(front);
    } else if NonNull(front) == [] {
      ConfidenceStaysWithinNone(front);
      assert NonNull(xs) == [x.value];
      MeanOfOne(x.value);
    } else {
      TrailingNullsGiveMean(front);
      NoNullBefore(front, x);
      RunningAverageIsMean(NonNull(front), x.value);
    }
  }

  lemma {:induction false} ConfidenceStaysWithinNone(xs: seq<Option<real>>)
    ensures ConfidenceAfter(xs).None? <==> NonNull(xs) == []
  {
    if xs != [] {
      ConfidenceStaysWithinNone(xs[..|xs| - 1]);
    }
  }

  /** Zero wherever there is a score, except one at the last score. */
  function Spike(pattern: seq<bool>): seq<Option<real>>
  {
    if pattern == [] then []
    else if pattern[|pattern| - 1] then Zeros(pattern[..|pattern| - 1]) + [Some(1.0)]
    else Spike(pattern[..|pattern| - 1]) + [None]
  }

  function Zeros(pattern: seq<bool>): seq<Option<real>>
  {
    Map((b: bool) => if b then Some(0.0) else None, pattern)
  }

  lemma ZerosStayZero(pattern: seq<bool>)
    ensures Pattern(Zeros(pattern)) == pattern && |NonNull(Zeros(pattern))| == Scored(pattern)
    ensures Sum(NonNull(Zeros(pattern))) == 0.0
    ensures ConfidenceAfter(Zeros(pattern)) == if Scored(pattern) == 0 then None else Some(0.0)
  {
    ZerosSum(pattern);
    ZerosAverage(pattern);
  }

  lemma {:induction false} ZerosSum(pattern: seq<bool>)
    ensures |NonNull(Zeros(pattern))| == Scored(pattern) && Sum(NonNull(Zeros(pattern))) == 0.0
  {
    if pattern != [] {
      var front, last := pattern[..|pattern| - 1], pattern[|pattern| - 1];
      ZerosSum(front);
      ZerosSnoc(front, last);
      assert pattern == front + [last];
      NonNullSnoc(Zeros(front), if last then Some(0.0) else None);
    }
  }

  lemma {:induction false} ZerosAverage(pattern: seq<bool>)
    ensures ConfidenceAfter(Zeros(pattern)) == if Scored(pattern) == 0 then None else Some(0.0)
  {
    if pattern != [] {
      var front, last := pattern[..|pattern| - 1], pattern[|pattern| - 1];
      ZerosAverage(front);
      ZerosSnoc(front, last);
      assert pattern == front + [last];
      ConfidenceSnoc(Zeros(front), if last then Some(0.0) else None);
      AverageOfZeros(ConfidenceAfter(Zeros(front)), |front|);
    }
  }

  lemma AverageOfZeros(avg: Option<real>, n: nat)
    requires avg.None? || avg == Some(0.0)
    ensures RunningAverage(avg, n, 0.0) == Some(0.0)
  {
  }

  lemma ZerosSnoc(pattern: seq<bool>, last: bool)
    ensures Zeros(pattern + [last]) == Zeros(pattern) + [if last then Some(0.0) else None]
  {
  }

  /** The position of the last score, counted from one. */
  function LastScore(pattern: seq<bool>): nat
  {
    if pattern == [] then 0 else if pattern[|pattern| - 1] then |pattern| else LastScore(pattern[..|pattern| - 1])
  }

  lemma PatternSnoc(xs: seq<Option<real>>, x: Option<real>)
    ensures Pattern(xs + [x]) == Pattern(xs) + [x.Some?]
  {
  }

  /** One after zeros: their sum is one, and the column divides it by the number of analyses. */
  lemma SpikeAfterZeros(zeros: seq<Option<real>>)
    requires Sum(NonNull(zeros)) == 0.0 && ConfidenceAfter(zeros) == Some(0.0)
    ensures Sum(NonNull(zeros + [Some(1.0)])) == 1.0
    ensures ConfidenceAfter(zeros + [Some(1.0)]) == Some(Fraction(1, |zeros| + 1))
  {
    NonNullSnoc(zeros, Some(1.0));
    ConfidenceSnoc(zeros, Some(1.0));
    var before := NonNull(zeros);
    assert (before + [1.0])[..|before|] == before;
  }

  lemma {:induction false} SpikeValues(pattern: seq<bool>)
    requires Scored(pattern) > 1
    ensures Pattern(Spike(pattern)) == pattern && |NonNull(Spike(pattern))| == Scored(pattern)
    ensures Sum(NonNull(Spike(pattern))) == 1.0
    ensures LastScore(pattern) > 0 && ConfidenceAfter(Spike(pattern)) == Some(Fraction(1, LastScore(pattern)))
  {
    var front, last := pattern[..|pattern| - 1], pattern[|pattern| - 1];
    assert pattern == front + [last];
    if last {
      ZerosStayZero(front);
      SpikeAfterZeros(Zeros(front));
      PatternSnoc(Zeros(front), Some(1.0));
    } else {
      SpikeValues(front);
      NonNullSnoc(Spike(front), None);
      ConfidenceSnoc(Spike(front), None);
      PatternSnoc(Spike(front), None);
    }
    ScoredIsCount(Spike(pattern));
  }

  lemma {:induction false} NullBeforeLastScore(pattern: seq<bool>)
    requires !NullsOnlyTrail(pattern)
    ensures Scored(pattern) < LastScore(pattern)
  {
    var front := pattern[..|pattern| - 1];
    if pattern[|pattern| - 1] {
      ScoredAtMost(pattern);
    } else {
      var i, j :| 0 <= i < j < |pattern| && pattern[j] && !pattern[i];
      assert front[j] && !front[i];
      NullBeforeLastScore(front);
    }
  }

  lemma UnequalFractions(m: nat, n: nat)
    requires 0 < m < n
    ensures Fraction(1, m) != Fraction(1, n)
  {
    DivideThenMultiply(1.0, m as real);
    DivideThenMultiply(1.0, n as real);
    var q := Fraction(1, m);
    assert q * m as real == 1.0;
    assert q * n as real != 1.0 by {
      assert q * n as real == q * m as real + q * (n - m) as real;
      assert q > 0.0;
    }
  }

  /** avg_confidence_score, exactly: the statement divides by the number of all analyses, so for scores of a given null
      pattern the column is always their mean if and only if the pattern has at most one score or no null
      before its last score. */
  lemma ConfidenceIsMeanExactly(pattern: seq<bool>)
    requires Scored(pattern) > 0
    ensures NullsOnlyTrail(pattern) <==>
      forall xs: seq<Option<real>> | Pattern(xs) == pattern ::
        NonNull(xs) != [] && ConfidenceAfter(xs) == Some(Mean(NonNull(xs)))
  {
    if NullsOnlyTrail(pattern) {
      forall xs: seq<Option<real>> | Pattern(xs) == pattern
        ensures NonNull(xs) != [] && ConfidenceAfter(xs) == Some(Mean(NonNull(xs)))
      {
        ScoredIsCount(xs);
        TrailingNullsGiveMean(xs);
      }
    } else {
      var xs := Spike(pattern);
      SpikeValues(pattern);
      NullBeforeLastScore(pattern);
      UnequalFractions(Scored(pattern), LastScore(pattern));
      assert Mean(NonNull(xs)) == Fraction(1, Scored(pattern));
      assert Pattern(xs) == pattern && ConfidenceAfter(xs) != Some(Mean(NonNull(xs)));
    }
  }

  // ---- every row of a table ----

  /** What the counters, averages and rates of a row say about the events it counts. */
  ghost predicate Tells(r: Row, es: seq<StoredEvent>)
  {
    var n := DecisionCount(es);
    && r.analyses == |Durations(es)| && r.decisions == n
    && r.avgDuration == (if Durations(es) == [] then None else Some(Mean(Durations(es))))
    && r.approveRate == (if n == 0 then None else Some(Fraction(CountOf(es, "APPROVE"), n)))
    && r.declineRate == (if n == 0 then None else Some(Fraction(CountOf(es, "DECLINE"), n)))
    && r.referRate == (if n == 0 then None else Some(Fraction(CountOf(es, "REFER"), n)))
    && (r.avgConfidence.None? <==> NonNull(Scores(es)) == [])
    && (NullsOnlyTrail(Pattern(Scores(es))) && NonNull(Scores(es)) != [] ==>
          r.avgConfidence == Some(Mean(NonNull(Scores(es)))))
  }

  /** The table of a log, whatever agents and models it mixes and whatever deliveries raised: a key has a row
      exactly when some event names it, and the row tells the statistics of the events that name it. */
  lemma EveryRowTells(log: seq<StoredEvent>, k: (string, string))
    ensures k in TableOf(log) <==> exists e :: e in log && About(e, k)
    ensures k in TableOf(log) ==> Tells(TableOf(log)[k], Filter(log, AboutKey(k)))
  {
    var es := Filter(log, AboutKey(k));
    RowDependsOnItsEvents(log, k);
    FilterMembers(log, AboutKey(k));
    if es != [] {
      assert es[0] in es;
      assert es[0] in log && About(es[0], k);
    }
    if e :| e in log && About(e, k) {
      assert AboutKey(k)(e);
      assert e in es;
    }
    DurationIsMean(es);
    RatesAreFractions(es);
    ConfidenceColumn(es);
    ConfidenceStaysWithinNone(Scores(es));
    if NullsOnlyTrail(Pattern(Scores(es))) && NonNull(Scores(es)) != [] {
      TrailingNullsGiveMean(Scores(es));
    }
  }

  // ---- redelivery ----

  /** Redelivering an event after a crash is harmless exactly when it counts nothing: an analysis or a decision
      that was handled but not checkpointed is counted twice. */
  lemma RedeliveryCountsTwiceExactly(t: Table, e: StoredEvent)
    ensures Handle(Handle(t, e), e) == Handle(t, e) <==>
      Raises(e) || !(IsAnalysis(e) || IsDecision(e))
  {
    if RowKey(e).Some? && !KeyRefused(e) {
      var k := KeyOf(e);
      var once, twice := Handle(t, e), Handle(Handle(t, e), e);
      assert once[k] == RowStep(RowIn(t, k), e) && twice[k] == RowStep(once[k], e);
      if !(IsAnalysis(e) || IsDecision(e)) {
        assert twice == once[k := once[k]] == once;
      }
    }
  }
}
