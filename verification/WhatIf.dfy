/** What-if replay: where the loaded stream is cut, which events are dropped, and what divergence means. */
module WhatIf {
  import opened Events
  import opened Sequences
  import opened EventLog
  import opened Upcasting
  import opened Store

  // ---- the injected credit event ----

  /** One past the last event of a type; 0 when there is none. */
  function AfterLast(es: seq<StoredEvent>, t: EventType): (n: nat)
    ensures n <= |es|
    ensures n > 0 ==> es[n - 1].eventType == t
    ensures forall i | n <= i < |es| :: es[i].eventType != t
  {
    if es == [] then 0
    else if es[|es| - 1].eventType == t then |es|
    else AfterLast(es[..|es| - 1], t)
  }

  /** The branch is a credit analysis, and the loan stream holds none. */
  predicate Missing(loan: seq<StoredEvent>, branch: EventType)
  {
    branch == CreditAnalysisCompleted && Latest(loan, CreditAnalysisCompleted).None?
  }

  /** The events that are replayed: a missing credit analysis is taken from the credit stream. */
  function Replayed(loan: seq<StoredEvent>, credit: seq<StoredEvent>, branch: EventType): seq<StoredEvent>
  {
    if !Missing(loan, branch) then loan
    else
      match Latest(credit, CreditAnalysisCompleted)
      case None => loan
      case Some(e) =>
        var n := AfterLast(loan, CreditAnalysisRequested);
        if n > 0 then loan[..n] + [e] + loan[n..] else loan + [e]
  }

  // ---- the cut ----

  function FirstOf(es: seq<StoredEvent>, t: EventType): (n: nat)
    ensures n <= |es|
    ensures n < |es| ==> es[n].eventType == t
    ensures forall i | 0 <= i < n :: es[i].eventType != t
  {
    if es == [] || es[0].eventType == t then 0 else 1 + FirstOf(es[1..], t)
  }

  datatype Cut = Cut(pre: seq<StoredEvent>, branch: seq<StoredEvent>, post: seq<StoredEvent>)

  function CutAt(es: seq<StoredEvent>, t: EventType): Cut
  {
    var n := FirstOf(es, t);
    if n == |es| then Cut(es, [], []) else Cut(es[..n], [es[n]], es[n + 1..])
  }

  function IdsOf(es: seq<StoredEvent>): set<string>
  {
    set e | e in es :: e.eventId
  }

  /** causation_id names an event of the branch. */
  predicate CausedBy(e: StoredEvent, ids: set<string>)
  {
    e.metadata.causationId.Some? && e.metadata.causationId.value != "" && e.metadata.causationId.value in ids
  }

  function Dependent(ids: set<string>): StoredEvent -> bool
  {
    (e: StoredEvent) => CausedBy(e, ids)
  }

  function Independent(ids: set<string>): StoredEvent -> bool
  {
    (e: StoredEvent) => !CausedBy(e, ids)
  }

  // ---- the evaluation ----

  datatype FinalState =
    | NoState | SubmittedState | AnalysisCompleteState | PendingDecisionState | ApprovedState | DeclinedState

  datatype Outcome = Outcome(
    finalState: FinalState, riskTier: Value, recommendedLimit: Value, decision: Value, confidence: Value)

  const NoOutcome := Outcome(NoState, Null, Null, Null, Null)

  /** a or b */
  function Or(a: Value, b: Value): Value
  {
    if Truthy(a) then a else b
  }

  /** A credit figure: flat, or nested under the stored event's decision. */
  function Figure(p: Payload, flat: Key, nested: Key): Value
  {
    match Get(p, NestedDecision)
    case Object(fields) => Or(Get(p, flat), Get(fields, nested))
    case _ => Get(p, flat)
  }

  function OutcomeStep(o: Outcome, e: NewEvent): Outcome
  {
    var p := e.payload;
    match e.eventType
    case ApplicationSubmitted => o.(finalState := SubmittedState)
    case CreditAnalysisCompleted =>
      o.(finalState := AnalysisCompleteState, riskTier := Figure(p, RiskTier, RiskTier),
         recommendedLimit := Figure(p, RecommendedLimit, RecommendedLimit),
         confidence := Figure(p, ConfidenceScore, Confidence))
    case DecisionGenerated => o.(finalState := PendingDecisionState, decision := Get(p, Recommendation))
    case HumanReviewCompleted =>
      o.(finalState := if GetOr(p, FinalDecision, Text("")) in {Text("APPROVED"), Text("APPROVE")}
                       then ApprovedState else DeclinedState)
    case ApplicationApproved => o.(finalState := ApprovedState)
    case ApplicationDeclined => o.(finalState := DeclinedState)
    case _ => o
  }

  function Evaluate(o: Outcome, es: seq<NewEvent>): Outcome
  {
    Fold(OutcomeStep, o, es)
  }

  function Fact(e: StoredEvent): NewEvent
  {
    NewEvent(e.eventType, e.version, e.payload)
  }

  function Facts(es: seq<StoredEvent>): (r: seq<NewEvent>)
    ensures |r| == |es|
    ensures forall i | 0 <= i < |es| :: r[i].eventType == es[i].eventType && r[i].payload == es[i].payload
  {
    Map(Fact, es)
  }

  datatype Field = FinalStateField | RiskTierField | LimitField | DecisionField | ConfidenceField

  predicate Differs(a: Outcome, b: Outcome, f: Field)
  {
    match f
    case FinalStateField => a.finalState != b.finalState
    case RiskTierField => a.riskTier != b.riskTier
    case LimitField => a.recommendedLimit != b.recommendedLimit
    case DecisionField => a.decision != b.decision
    case ConfidenceField => a.confidence != b.confidence
  }

  const FIELDS := {FinalStateField, RiskTierField, LimitField, DecisionField, ConfidenceField}

  datatype WhatIfResult = WhatIfResult(
    realOutcome: Outcome, counterfactualOutcome: Outcome, divergence: set<Field>, replayedReal: nat,
    replayedCounterfactual: nat)

  function RealSequence(c: Cut): seq<NewEvent>
  {
    Facts(c.pre) + Facts(c.branch) + Facts(Filter(c.post, Independent(IdsOf(c.branch))))
  }

  function CounterfactualSequence(c: Cut, counterfactual: seq<NewEvent>): seq<NewEvent>
  {
    Facts(c.pre) + counterfactual + Facts(Filter(c.post, Independent(IdsOf(c.branch))))
  }

  // ---- the run as the code makes it ----

  method LastIndexAfter(es: seq<StoredEvent>, t: EventType) returns (n: nat)
    ensures n == AfterLast(es, t)
  {
    n := 0;
    for i := 0 to |es|
      invariant n == AfterLast(es[..i], t)
    {
      assert es[..i + 1][..i] == es[..i];
      if es[i].eventType == t {
        n := i + 1;
      }
    }
    assert es[..|es|] == es;
  }

  /** What is replayed: the loan stream itself, unless the branch is a credit analysis it lacks and the credit stream
      has; then the last one of the credit stream stands right behind the last request for one, or at the end. */
  ghost predicate Injected(loan: seq<StoredEvent>, credit: seq<StoredEvent>, branch: EventType, all: seq<StoredEvent>)
  {
    if branch == CreditAnalysisCompleted && (forall e | e in loan :: e.eventType != CreditAnalysisCompleted)
       && (exists e :: e in credit && e.eventType == CreditAnalysisCompleted)
    then
      exists n: nat, k: nat ::
        && n <= |loan| && k < |credit| && all == loan[..n] + [credit[k]] + loan[n..]
        && credit[k].eventType == CreditAnalysisCompleted
        && (forall i | k < i < |credit| :: credit[i].eventType != CreditAnalysisCompleted)
        && (forall i | n <= i < |loan| :: loan[i].eventType != CreditAnalysisRequested)
        && (n < |loan| ==> n > 0 && loan[n - 1].eventType == CreditAnalysisRequested)
    else all == loan
  }

  lemma ReplayedIsInjected(loan: seq<StoredEvent>, credit: seq<StoredEvent>, branch: EventType)
    ensures Injected(loan, credit, branch, Replayed(loan, credit, branch))
  {
    var all := Replayed(loan, credit, branch);
    var own := LatestIsLast(loan, CreditAnalysisCompleted);
    var last := LatestIsLast(credit, CreditAnalysisCompleted);
    if own > 0 {
      assert loan[own - 1] in loan;
    }
    if branch == CreditAnalysisCompleted && own == 0 && last > 0 {
      var n := AfterLast(loan, CreditAnalysisRequested);
      var at := if n > 0 then n else |loan|;
      assert credit[last - 1] in credit;
      assert all == loan[..at] + [credit[last - 1]] + loan[at..];
    }
  }

  method Inject(loan: seq<StoredEvent>, credit: seq<StoredEvent>, branch: EventType) returns (all: seq<StoredEvent>)
    ensures all == Replayed(loan, credit, branch)
    ensures Injected(loan, credit, branch, all)
  {
    ReplayedIsInjected(loan, credit, branch);
    all := loan;
    if Missing(loan, branch) {
      var completed := Latest(credit, CreditAnalysisCompleted);
      if completed.Some? {
        var n := LastIndexAfter(loan, CreditAnalysisRequested);
        all := if n > 0 then loan[..n] + [completed.value] + loan[n..] else loan + [completed.value];
      }
    }
  }

  method PartitionAtBranch(all: seq<StoredEvent>, branch: EventType) returns (c: Cut)
    ensures c == CutAt(all, branch)
  {
    var pre, at, post := [], [], [];
    var branched := false;
    for i := 0 to |all|
      invariant pre + at + post == all[..i]
      invariant !branched ==> at == [] && post == []
      invariant branched ==> |at| == 1 && at[0].eventType == branch
      invariant forall e | e in pre :: e.eventType != branch
    {
      ghost var before := pre + at + post;
      assert all[..i + 1] == before + [all[i]];
      if !branched && all[i].eventType == branch {
        branched := true;
        at := at + [all[i]];
      } else if !branched {
        pre := pre + [all[i]];
      } else {
        post := post + [all[i]];
      }
    }
    assert all[..|all|] == all;
    c := Cut(pre, at, post);
    CutIsUnique(all, branch, c);
  }

  lemma CutIsUnique(all: seq<StoredEvent>, branch: EventType, c: Cut)
    requires c.pre + c.branch + c.post == all
    requires forall e | e in c.pre :: e.eventType != branch
    requires c.branch == [] ==> c.post == []
    requires c.branch != [] ==> |c.branch| == 1 && c.branch[0].eventType == branch
    ensures c == CutAt(all, branch)
  {
    var n := FirstOf(all, branch);
    forall i | 0 <= i < |c.pre| ensures all[i] == c.pre[i] && all[i].eventType != branch {
      assert c.pre[i] in c.pre;
    }
    if c.branch == [] {
      assert n == |all|;
      assert c.pre == all;
    } else {
      assert all[|c.pre|] == c.branch[0];
      assert n == |c.pre|;
      assert all[..n] == c.pre && all[n + 1..] == c.post && c.branch == [all[n]];
    }
  }

  /** Two parts of a sequence, each in its order: the events that name one of the ids as their cause, and all others. */
  ghost predicate ByCause(post: seq<StoredEvent>, ids: set<string>, dependent: seq<StoredEvent>,
                          independent: seq<StoredEvent>)
  {
    && Shuffles(dependent, independent, post)
    && (forall e | e in dependent :: exists id :: id in ids && id != "" && e.metadata.causationId == Some(id))
    && (forall e, id | e in independent && id in ids && id != "" :: e.metadata.causationId != Some(id))
  }

  lemma PartsAreByCause(post: seq<StoredEvent>, ids: set<string>)
    ensures ByCause(post, ids, Filter(post, Dependent(ids)), Filter(post, Independent(ids)))
  {
    SplitLosesNothing(post, ids);
    FilterMembers(post, Dependent(ids));
    FilterMembers(post, Independent(ids));
  }

  method PartitionByCausality(post: seq<StoredEvent>, ids: set<string>)
    returns (dependent: seq<StoredEvent>, independent: seq<StoredEvent>)
    ensures dependent == Filter(post, Dependent(ids)) && independent == Filter(post, Independent(ids))
    ensures ByCause(post, ids, dependent, independent)
  {
    PartsAreByCause(post, ids);
    dependent, independent := [], [];
    for i := 0 to |post|
      invariant dependent == Filter(post[..i], Dependent(ids)) && independent == Filter(post[..i], Independent(ids))
    {
      assert post[..i + 1] == post[..i] + [post[i]];
      FilterSnoc(post[..i], post[i], Dependent(ids));
      FilterSnoc(post[..i], post[i], Independent(ids));
      if CausedBy(post[i], ids) {
        dependent := dependent + [post[i]];
      } else {
        independent := independent + [post[i]];
      }
    }
    assert post[..|post|] == post;
  }

  method EvaluateSequence(es: seq<NewEvent>) returns (o: Outcome)
    ensures o == Evaluate(NoOutcome, es)
  {
    o := NoOutcome;
    for i := 0 to |es|
      invariant o == Evaluate(NoOutcome, es[..i])
    {
      assert es[..i + 1] == es[..i] + [es[i]];
      FoldSnoc(OutcomeStep, NoOutcome, es[..i], es[i]);
      o := OutcomeStep(o, es[i]);
    }
    assert es[..|es|] == es;
  }

  /** The later events taken apart, each part in its order: dropped is exactly what names a branch event as its cause,
      and everything with no cause, an empty one or another one is kept. */
  ghost predicate SplitBy(c: Cut, dropped: seq<StoredEvent>, kept: seq<StoredEvent>)
  {
    && Shuffles(dropped, kept, c.post)
    && (forall e | e in dropped ::
          exists b :: b in c.branch && b.eventId != "" && e.metadata.causationId == Some(b.eventId))
    && (forall e, b | e in kept && b in c.branch && b.eventId != "" :: e.metadata.causationId != Some(b.eventId))
  }

  lemma SplitByCause(c: Cut, dropped: seq<StoredEvent>, kept: seq<StoredEvent>)
    requires ByCause(c.post, IdsOf(c.branch), dropped, kept)
    ensures SplitBy(c, dropped, kept)
  {
    forall e | e in dropped
      ensures exists b :: b in c.branch && b.eventId != "" && e.metadata.causationId == Some(b.eventId)
    {
      var id :| id in IdsOf(c.branch) && id != "" && e.metadata.causationId == Some(id);
      var b :| b in c.branch && b.eventId == id;
    }
  }

  /** The two replays and where they part, in terms of what was dropped and kept. */
  ghost predicate Compared(r: WhatIfResult, c: Cut, counterfactual: seq<NewEvent>, dropped: seq<StoredEvent>,
                           kept: seq<StoredEvent>)
  {
    && SplitBy(c, dropped, kept)
    && r.realOutcome == Evaluate(NoOutcome, Facts(c.pre) + Facts(c.branch) + Facts(kept))
    && r.counterfactualOutcome == Evaluate(NoOutcome, Facts(c.pre) + counterfactual + Facts(kept))
    && r.replayedReal == |c.pre| + |c.branch| + |kept|
    && r.replayedCounterfactual == |c.pre| + |counterfactual| + |kept|
    && var a, b := r.realOutcome, r.counterfactualOutcome;
       && (FinalStateField in r.divergence <==> a.finalState != b.finalState)
       && (RiskTierField in r.divergence <==> a.riskTier != b.riskTier)
       && (LimitField in r.divergence <==> a.recommendedLimit != b.recommendedLimit)
       && (DecisionField in r.divergence <==> a.decision != b.decision)
       && (ConfidenceField in r.divergence <==> a.confidence != b.confidence)
  }

  lemma Assembled(r: WhatIfResult, c: Cut, counterfactual: seq<NewEvent>, dropped: seq<StoredEvent>,
                  kept: seq<StoredEvent>)
    requires ByCause(c.post, IdsOf(c.branch), dropped, kept)
    requires var actual := Facts(c.pre) + Facts(c.branch) + Facts(kept);
      var imagined := Facts(c.pre) + counterfactual + Facts(kept);
      && r.realOutcome == Evaluate(NoOutcome, actual) && r.counterfactualOutcome == Evaluate(NoOutcome, imagined)
      && r.replayedReal == |actual| && r.replayedCounterfactual == |imagined|
    requires forall f :: f in r.divergence <==> Differs(r.realOutcome, r.counterfactualOutcome, f)
    ensures Compared(r, c, counterfactual, dropped, kept)
  {
    SplitByCause(c, dropped, kept);
  }

  /** The two replays of a cut sequence and where their outcomes differ. */
  method Compare(c: Cut, counterfactual: seq<NewEvent>)
    returns (r: WhatIfResult, ghost dropped: seq<StoredEvent>, ghost kept: seq<StoredEvent>)
    ensures Compared(r, c, counterfactual, dropped, kept)
    ensures r.realOutcome == Evaluate(NoOutcome, RealSequence(c))
    ensures r.counterfactualOutcome == Evaluate(NoOutcome, CounterfactualSequence(c, counterfactual))
    ensures r.replayedReal == |RealSequence(c)|
    ensures r.replayedCounterfactual == |CounterfactualSequence(c, counterfactual)|
    ensures forall f :: f in r.divergence <==> Differs(r.realOutcome, r.counterfactualOutcome, f)
  {
    var dependent, independent := PartitionByCausality(c.post, IdsOf(c.branch));
    var actual := Facts(c.pre) + Facts(c.branch) + Facts(independent);
    var imagined := Facts(c.pre) + counterfactual + Facts(independent);
    var realOutcome := EvaluateSequence(actual);
    var imaginedOutcome := EvaluateSequence(imagined);
    var divergence := set f | f in FIELDS && Differs(realOutcome, imaginedOutcome, f);
    assert forall f :: f in divergence <==> Differs(realOutcome, imaginedOutcome, f);
    r := WhatIfResult(realOutcome, imaginedOutcome, divergence, |actual|, |imagined|);
    dropped, kept := dependent, independent;
    Assembled(r, c, counterfactual, dropped, kept);
  }

  /** The credit stream, read only when the branch is a credit analysis that the loan stream lacks. Other writers may
      come in between the two loads; the run itself writes nothing. */
  method LoadCredit(store: EventStore, applicationId: string, loan: seq<StoredEvent>, branch: EventType)
    returns (credit: seq<StoredEvent>, ghost later: Ledger)
    requires store.Valid()
    modifies store`events, store`streams, store`outbox
    ensures store.Valid() && store.State() == later && Extends(old(store.State()), later)
    ensures Replayed(loan, credit, branch) ==
      Replayed(loan, MigratedAll(store.upcasters, Stream(later, "credit-" + applicationId)), branch)
    ensures !Missing(loan, branch) ==> later == old(store.State())
  {
    credit, later := [], store.State();
    if Missing(loan, branch) {
      Interfere(store);
      later := store.State();
      credit := store.LoadStream("credit-" + applicationId, 0, None);
    }
  }

  /** The outcomes compared are those of the loan stream as read first and the credit stream as read after it. */
  method RunWhatIf(store: EventStore, applicationId: string, branch: EventType, counterfactual: seq<NewEvent>)
    returns (r: WhatIfResult, c: Cut, ghost later: Ledger, ghost dropped: seq<StoredEvent>,
             ghost kept: seq<StoredEvent>)
    requires store.Valid()
    modifies store`events, store`streams, store`outbox
    ensures store.Valid() && store.State() == later && Extends(old(store.State()), later)
    ensures var loan := MigratedAll(store.upcasters, old(Stream(store.State(), LoanStream(applicationId))));
      var credit := MigratedAll(store.upcasters, Stream(later, "credit-" + applicationId));
      && c == CutAt(Replayed(loan, credit, branch), branch)
      && (!Missing(loan, branch) ==> later == old(store.State()))
    ensures Compared(r, c, counterfactual, dropped, kept)
    ensures r.realOutcome == Evaluate(NoOutcome, RealSequence(c))
    ensures r.counterfactualOutcome == Evaluate(NoOutcome, CounterfactualSequence(c, counterfactual))
    ensures r.replayedReal == |RealSequence(c)|
    ensures r.replayedCounterfactual == |CounterfactualSequence(c, counterfactual)|
    ensures forall f :: f in r.divergence <==> Differs(r.realOutcome, r.counterfactualOutcome, f)
  {
    var loan := store.LoadStream(LoanStream(applicationId), 0, None);
    var credit;
    credit, later := LoadCredit(store, applicationId, loan, branch);
    var all := Inject(loan, credit, branch);
    c := PartitionAtBranch(all, branch);
    r, dropped, kept := Compare(c, counterfactual);
  }

  // ---- what the cut and the split keep ----

  /** The injected sequence is the loan stream with one event more, right behind the last request for
      an analysis if there is one and at the end if not. */
  lemma InjectionAddsOne(loan: seq<StoredEvent>, credit: seq<StoredEvent>, branch: EventType)
    ensures var all := Replayed(loan, credit, branch);
      all == loan ||
      exists n: nat :: n <= |loan| && n < |all| && all[..n] == loan[..n] && all[n + 1..] == loan[n..]
        && all[n].eventType == CreditAnalysisCompleted && all[n] in credit
        && (forall i | n <= i < |loan| :: loan[i].eventType != CreditAnalysisRequested)
        && (n == |loan| || (n > 0 && loan[n - 1].eventType == CreditAnalysisRequested))
  {
    var all := Replayed(loan, credit, branch);
    if all != loan {
      var e := Latest(credit, CreditAnalysisCompleted).value;
      var last := LatestIsLast(credit, CreditAnalysisCompleted);
      var n := AfterLast(loan, CreditAnalysisRequested);
      var at := if n > 0 then n else |loan|;
      assert all[..at] == loan[..at] && all[at] == e && all[at + 1..] == loan[at..];
    }
  }

  /** The cut loses nothing, and cuts at the first event of the branch type. */
  lemma CutLosesNothing(all: seq<StoredEvent>, branch: EventType)
    ensures var c := CutAt(all, branch);
      && c.pre + c.branch + c.post == all
      && (forall e | e in c.pre :: e.eventType != branch)
      && (c.branch == [] <==> forall e | e in all :: e.eventType != branch)
  {
    var c := CutAt(all, branch);
    var n := FirstOf(all, branch);
    if n == |all| {
      forall e | e in all ensures e.eventType != branch {
        var i :| 0 <= i < |all| && all[i] == e;
      }
    } else {
      assert all[..n] + [all[n]] + all[n + 1..] == all;
      assert all[n] in all;
    }
  }

  /** Putting two sequences back in the order their elements had in a third. */
  predicate Shuffles(a: seq<StoredEvent>, b: seq<StoredEvent>, es: seq<StoredEvent>)
    decreases |es|
  {
    if es == [] then a == [] && b == []
    else
      var last := es[|es| - 1];
      || (a != [] && a[|a| - 1] == last && Shuffles(a[..|a| - 1], b, es[..|es| - 1]))
      || (b != [] && b[|b| - 1] == last && Shuffles(a, b[..|b| - 1], es[..|es| - 1]))
  }

  /** The causality split preserves order and loses nothing. */
  lemma {:induction false} SplitLosesNothing(post: seq<StoredEvent>, ids: set<string>)
    ensures Shuffles(Filter(post, Dependent(ids)), Filter(post, Independent(ids)), post)
    ensures |Filter(post, Dependent(ids))| + |Filter(post, Independent(ids))| == |post|
  {
    if post != [] {
      var front, last := post[..|post| - 1], post[|post| - 1];
      SplitLosesNothing(front, ids);
      var (d, i) := (Filter(front, Dependent(ids)), Filter(front, Independent(ids)));
      if CausedBy(last, ids) {
        assert (d + [last])[..|d|] == d && i + [] == i;
      } else {
        assert (i + [last])[..|i|] == i && d + [] == d;
      }
    }
  }

  /** Replayed and dropped events add up to all there were. */
  lemma CountsAddUp(all: seq<StoredEvent>, branch: EventType)
    ensures var c := CutAt(all, branch);
      |RealSequence(c)| + |Filter(c.post, Dependent(IdsOf(c.branch)))| == |all|
  {
    var c := CutAt(all, branch);
    CutLosesNothing(all, branch);
    SplitLosesNothing(c.post, IdsOf(c.branch));
  }

  // ---- divergence ----

  /** Whether an event sets an outcome field, whatever the outcome before it. */
  predicate Sets(t: EventType, f: Field)
  {
    match f
    case FinalStateField =>
      t in {ApplicationSubmitted, CreditAnalysisCompleted, DecisionGenerated, HumanReviewCompleted,
            ApplicationApproved, ApplicationDeclined}
    case DecisionField => t == DecisionGenerated
    case _ => t == CreditAnalysisCompleted
  }

  lemma StepDiffers(a: Outcome, b: Outcome, e: NewEvent, f: Field)
    ensures Differs(OutcomeStep(a, e), OutcomeStep(b, e), f) <==> Differs(a, b, f) && !Sets(e.eventType, f)
  {
  }

  lemma {:induction false} ReplayDiffers(a: Outcome, b: Outcome, es: seq<NewEvent>, f: Field)
    ensures Differs(Evaluate(a, es), Evaluate(b, es), f) <==>
      Differs(a, b, f) && forall e | e in es :: !Sets(e.eventType, f)
  {
    if es != [] {
      var front, last := es[..|es| - 1], es[|es| - 1];
      ReplayDiffers(a, b, front, f);
      StepDiffers(Evaluate(a, front), Evaluate(b, front), last, f);
      assert es == front + [last];
    }
  }

  /** Divergence, exactly: a field diverges if and only if the two branches leave it different and
      no replayed event after the branch sets it again. */
  lemma DivergesExactly(c: Cut, counterfactual: seq<NewEvent>, f: Field)
    ensures var before := Evaluate(NoOutcome, Facts(c.pre));
      var later := Facts(Filter(c.post, Independent(IdsOf(c.branch))));
      var actual, imagined := RealSequence(c), CounterfactualSequence(c, counterfactual);
      Differs(Evaluate(NoOutcome, actual), Evaluate(NoOutcome, imagined), f) <==>
      && Differs(Evaluate(before, Facts(c.branch)), Evaluate(before, counterfactual), f)
      && forall e | e in later :: !Sets(e.eventType, f)
  {
    var before := Evaluate(NoOutcome, Facts(c.pre));
    var later := Facts(Filter(c.post, Independent(IdsOf(c.branch))));
    FoldAppend(OutcomeStep, NoOutcome, Facts(c.pre), Facts(c.branch));
    FoldAppend(OutcomeStep, NoOutcome, Facts(c.pre) + Facts(c.branch), later);
    FoldAppend(OutcomeStep, NoOutcome, Facts(c.pre), counterfactual);
    FoldAppend(OutcomeStep, NoOutcome, Facts(c.pre) + counterfactual, later);
    ReplayDiffers(Evaluate(before, Facts(c.branch)), Evaluate(before, counterfactual), later, f);
  }

  /** The last event of a type in a replayed sequence. */
  function LatestIn(es: seq<NewEvent>, t: EventType): Option<NewEvent>
  {
    if es == [] then None
    else if es[|es| - 1].eventType == t then Some(es[|es| - 1])
    else LatestIn(es[..|es| - 1], t)
  }

  /** A figure of the last analysis: the flat one, unless there is a nested decision and the flat one counts as
      false. */
  function FigureIn(credit: Option<NewEvent>, flat: Key, nested: Key): Value
  {
    if credit.None? then Null
    else
      var p := credit.value.payload;
      var v := if flat in p then p[flat] else Null;
      var falsy := v in {Null, Flag(false), Int(0), Real(0.0), Text(""), List([]), Object(map[])};
      if NestedDecision in p && p[NestedDecision].Object? && falsy
      then if nested in p[NestedDecision].fields then p[NestedDecision].fields[nested] else Null
      else v
  }

  /** The state a deciding event names; none for every other event. */
  function StateNamed(e: NewEvent): Option<FinalState>
  {
    match e.eventType
    case ApplicationSubmitted => Some(SubmittedState)
    case CreditAnalysisCompleted => Some(AnalysisCompleteState)
    case DecisionGenerated => Some(PendingDecisionState)
    case HumanReviewCompleted =>
      var approved := Get(e.payload, FinalDecision) in {Text("APPROVED"), Text("APPROVE")};
      Some(if approved then ApprovedState else DeclinedState)
    case ApplicationApproved => Some(ApprovedState)
    case ApplicationDeclined => Some(DeclinedState)
    case _ => None
  }

  /** The final state of a sequence is the one its last deciding event names, event n - 1. */
  lemma {:induction false} OutcomeHoldsLastState(es: seq<NewEvent>) returns (n: nat)
    ensures n <= |es| && forall j | n <= j < |es| :: StateNamed(es[j]).None?
    ensures var state := Evaluate(NoOutcome, es).finalState;
      if n == 0 then state == NoState else StateNamed(es[n - 1]) == Some(state)
  {
    if es == [] || StateNamed(es[|es| - 1]).Some? {
      n := |es|;
    } else {
      n := OutcomeHoldsLastState(es[..|es| - 1]);
    }
  }

  lemma FigureIsRead(p: Payload, t: EventType, flat: Key, nested: Key)
    ensures Figure(p, flat, nested) == FigureIn(Some(NewEvent(t, 1, p)), flat, nested)
  {
    FalsyExactly(Get(p, flat));
  }

  lemma {:induction false} OutcomeHoldsLastFigures(es: seq<NewEvent>)
    ensures var (o, credit) := (Evaluate(NoOutcome, es), LatestIn(es, CreditAnalysisCompleted));
      && o.riskTier == FigureIn(credit, RiskTier, RiskTier)
      && o.recommendedLimit == FigureIn(credit, RecommendedLimit, RecommendedLimit)
      && o.confidence == FigureIn(credit, ConfidenceScore, Confidence)
  {
    if es != [] {
      var last := es[|es| - 1];
      OutcomeHoldsLastFigures(es[..|es| - 1]);
      FigureIsRead(last.payload, last.eventType, RiskTier, RiskTier);
      FigureIsRead(last.payload, last.eventType, RecommendedLimit, RecommendedLimit);
      FigureIsRead(last.payload, last.eventType, ConfidenceScore, Confidence);
    }
  }

  lemma {:induction false} OutcomeHoldsLastDecision(es: seq<NewEvent>)
    ensures var d := LatestIn(es, DecisionGenerated);
      Evaluate(NoOutcome, es).decision == if d.Some? then Get(d.value.payload, Recommendation) else Null
  {
    if es != [] {
      OutcomeHoldsLastDecision(es[..|es| - 1]);
    }
  }

  lemma DiffersSomewhere(a: Outcome, b: Outcome)
    ensures a == b <==> forall f :: !Differs(a, b, f)
  {
    if a != b {
      assert Differs(a, b, FinalStateField) || Differs(a, b, RiskTierField) || Differs(a, b, LimitField)
        || Differs(a, b, DecisionField) || Differs(a, b, ConfidenceField);
    }
  }

  /** Counterfactual events that lead where the branch event led diverge nowhere. */
  lemma SameBranchNoDivergence(c: Cut, counterfactual: seq<NewEvent>)
    requires var before := Evaluate(NoOutcome, Facts(c.pre));
      Evaluate(before, counterfactual) == Evaluate(before, Facts(c.branch))
    ensures Evaluate(NoOutcome, RealSequence(c)) == Evaluate(NoOutcome, CounterfactualSequence(c, counterfactual))
  {
    var actual := Evaluate(NoOutcome, RealSequence(c));
    var imagined := Evaluate(NoOutcome, CounterfactualSequence(c, counterfactual));
    var before := Evaluate(NoOutcome, Facts(c.pre));
    DiffersSomewhere(Evaluate(before, Facts(c.branch)), Evaluate(before, counterfactual));
    forall f ensures !Differs(actual, imagined, f) {
      DivergesExactly(c, counterfactual, f);
    }
    DiffersSomewhere(actual, imagined);
  }

  // ---- causal dependence ----

  /** The ids an event depends on if causation is followed through all events before it. */
  function TaintedIds(post: seq<StoredEvent>, ids: set<string>): set<string>
  {
    if post == [] then ids
    else
      var before := TaintedIds(post[..|post| - 1], ids);
      var last := post[|post| - 1];
      if CausedBy(last, before) then before + {last.eventId} else before
  }

  /** The events caused by the branch directly or through other events. */
  function TransitivelyDependent(post: seq<StoredEvent>, ids: set<string>): seq<StoredEvent>
  {
    if post == [] then []
    else
      var front, last := post[..|post| - 1], post[|post| - 1];
      TransitivelyDependent(front, ids) + if CausedBy(last, TaintedIds(front, ids)) then [last] else []
  }

  /** No event names one of the directly dropped events before it as its cause, unless the branch is its cause too. */
  predicate ChainsAreDirect(post: seq<StoredEvent>, ids: set<string>)
  {
    post == [] ||
    var front, last := post[..|post| - 1], post[|post| - 1];
    && ChainsAreDirect(front, ids)
    && (CausedBy(last, IdsOf(Filter(front, Dependent(ids)))) ==> CausedBy(last, ids))
  }

  lemma {:induction false} DirectTaint(post: seq<StoredEvent>, ids: set<string>)
    requires ChainsAreDirect(post, ids)
    ensures TaintedIds(post, ids) == ids + IdsOf(Filter(post, Dependent(ids)))
    ensures TransitivelyDependent(post, ids) == Filter(post, Dependent(ids))
  {
    if post != [] {
      var front, last := post[..|post| - 1], post[|post| - 1];
      DirectTaint(front, ids);
      var dropped := Filter(front, Dependent(ids));
      assert IdsOf(dropped + [last]) == IdsOf(dropped) + {last.eventId};
      assert CausedBy(last, ids + IdsOf(dropped)) <==> CausedBy(last, ids);
    }
  }

  lemma {:induction false} DirectIsPartOfTransitive(post: seq<StoredEvent>, ids: set<string>)
    ensures ids <= TaintedIds(post, ids)
    ensures |Filter(post, Dependent(ids))| <= |TransitivelyDependent(post, ids)|
    ensures IdsOf(Filter(post, Dependent(ids))) <= TaintedIds(post, ids)
  {
    if post != [] {
      var front, last := post[..|post| - 1], post[|post| - 1];
      DirectIsPartOfTransitive(front, ids);
      var dropped := Filter(front, Dependent(ids));
      assert IdsOf(dropped + [last]) == IdsOf(dropped) + {last.eventId};
      assert dropped + [] == dropped;
    }
  }

  lemma {:induction false} IndirectChainMissed(post: seq<StoredEvent>, ids: set<string>)
    requires !ChainsAreDirect(post, ids)
    ensures |Filter(post, Dependent(ids))| < |TransitivelyDependent(post, ids)|
  {
    var front, last := post[..|post| - 1], post[|post| - 1];
    DirectIsPartOfTransitive(front, ids);
    if !ChainsAreDirect(front, ids) {
      IndirectChainMissed(front, ids);
    }
  }

  /** The split follows causation one step only. It drops exactly the events that depend on the branch, directly or
      through others, if and only if no later event names a dropped event as its cause. */
  lemma SplitFollowsCausationExactly(post: seq<StoredEvent>, ids: set<string>)
    ensures Filter(post, Dependent(ids)) == TransitivelyDependent(post, ids) <==> ChainsAreDirect(post, ids)
  {
    if ChainsAreDirect(post, ids) {
      DirectTaint(post, ids);
    } else {
      IndirectChainMissed(post, ids);
    }
  }
}
