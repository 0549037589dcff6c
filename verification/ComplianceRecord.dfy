/** The compliance record aggregate: verdicts per rule and the clearance check. */
module ComplianceRecord {
  import opened Events
  import opened Sequences
  import opened EventLog
  import opened Upcasting
  import opened Store

  datatype Record = Record(
    version: nat,
    requiredChecks: seq<Value>,
    passed: map<Value, Value>,
    failed: map<Value, Value>,
    clearanceIssued: bool)

  const NewRecord := Record(0, [], map[], map[], false)

  predicate Readable(e: StoredEvent)
  {
    match e.eventType
    case ComplianceRulePassed => RuleId in e.payload && RuleVersion in e.payload
    case ComplianceRuleFailed => RuleId in e.payload && FailureReason in e.payload
    case _ => true
  }

  function Checks(p: Payload): seq<Value>
  {
    match Get(p, ChecksRequired)
    case List(items) => items
    case _ => []
  }

  function Apply(r: Record, e: StoredEvent): Record
  {
    var p := e.payload;
    var moved := r.(version := e.streamPosition);
    match e.eventType
    case ComplianceCheckRequested => moved.(requiredChecks := Checks(p))
    case ComplianceRulePassed =>
      moved.(passed := r.passed[Get(p, RuleId) := Get(p, RuleVersion)], failed := r.failed - {Get(p, RuleId)})
    case ComplianceRuleFailed => moved.(failed := r.failed[Get(p, RuleId) := Get(p, FailureReason)])
    case ComplianceClearanceIssued => moved.(clearanceIssued := true)
    case _ => moved
  }

  function Replay(es: seq<StoredEvent>): (r: Record)
    ensures r.version == LastPosition(es)
  {
    Fold(Apply, NewRecord, es)
  }

  predicate Loadable(es: seq<StoredEvent>)
  {
    forall e | e in es :: Readable(e)
  }

  /** How assert_all_required_checks_passed ends. */
  datatype Clearance = Clear | NothingRequested | ChecksMissing(missing: seq<Value>) | ChecksFailed(rules: set<Value>)

  predicate RuleInRegulationSet(r: Record, rule: Value)
  {
    r.requiredChecks == [] || rule in r.requiredChecks
  }

  class ComplianceRecordAggregate {
    var version: nat
    var requiredChecks: seq<Value>
    var passedChecks: map<Value, Value>
    var failedChecks: map<Value, Value>
    var clearanceIssued: bool

    function Model(): Record
      reads this
    {
      Record(version, requiredChecks, passedChecks, failedChecks, clearanceIssued)
    }

    constructor ()
      ensures Model() == NewRecord
    {
      version, requiredChecks, passedChecks, failedChecks, clearanceIssued := 0, [], map[], map[], false;
    }

    method ApplyEvent(e: StoredEvent) returns (ok: bool)
      modifies this
      ensures ok == Readable(e)
      ensures ok ==> Model() == Apply(old(Model()), e)
    {
      var p := e.payload;
      match e.eventType {
        case ComplianceCheckRequested =>
          requiredChecks := Checks(p);
        case ComplianceRulePassed =>
          if RuleId !in p || RuleVersion !in p { return false; }
          passedChecks := passedChecks[p[RuleId] := p[RuleVersion]];
          failedChecks := failedChecks - {p[RuleId]};
        case ComplianceRuleFailed =>
          if RuleId !in p || FailureReason !in p { return false; }
          failedChecks := failedChecks[p[RuleId] := p[FailureReason]];
        case ComplianceClearanceIssued =>
          clearanceIssued := true;
        case _ =>
      }
      version := e.streamPosition;
      ok := true;
    }

    static method Load(store: EventStore, applicationId: string) returns (agg: ComplianceRecordAggregate?)
      requires store.Valid() && store.upcasters == Registered()
      ensures (agg != null) == Loadable(Stream(store.State(), ComplianceStream(applicationId)))
      ensures agg != null ==>
        fresh(agg) && agg.Model() == Replay(Stream(store.State(), ComplianceStream(applicationId)))
    {
      var es := store.LoadStream(ComplianceStream(applicationId), 0, None);
      ReplayIgnoresUpcasting(Stream(store.State(), ComplianceStream(applicationId)));
      var record := new ComplianceRecordAggregate();
      for i := 0 to |es|
        invariant record.Model() == Replay(es[..i])
        invariant Loadable(es[..i])
      {
        var ok := record.ApplyEvent(es[i]);
        if !ok {
          return null;
        }
        assert es[..i + 1] == es[..i] + [es[i]];
        FoldSnoc(Apply, NewRecord, es[..i], es[i]);
      }
      assert es[..|es|] == es;
      agg := record;
    }

    method AssertAllRequiredChecksPassed() returns (c: Clearance)
      ensures c == ClearanceOf(Model())
    {
      if requiredChecks == [] {
        return NothingRequested;
      }
      var missing := [];
      for i := 0 to |requiredChecks|
        invariant missing == Filter(requiredChecks[..i], NotIn(passedChecks))
      {
        assert requiredChecks[..i + 1] == requiredChecks[..i] + [requiredChecks[i]];
        FilterSnoc(requiredChecks[..i], requiredChecks[i], NotIn(passedChecks));
        if requiredChecks[i] !in passedChecks {
          missing := missing + [requiredChecks[i]];
        }
      }
      assert requiredChecks[..|requiredChecks|] == requiredChecks;
      if missing != [] {
        return ChecksMissing(missing);
      }
      if failedChecks != map[] {
        return ChecksFailed(failedChecks.Keys);
      }
      c := Clear;
    }
  }

  function NotIn(m: map<Value, Value>): Value -> bool
  {
    (x: Value) => x !in m
  }

  function ClearanceOf(r: Record): Clearance
  {
    var missing := Filter(r.requiredChecks, NotIn(r.passed));
    if r.requiredChecks == [] then NothingRequested
    else if missing != [] then ChecksMissing(missing)
    else if r.failed != map[] then ChecksFailed(r.failed.Keys)
    else Clear
  }

  // ---- what the record means ----

  datatype Verdict = Passed | Failed

  /** The last verdict recorded for a rule, read directly off the events. */
  function LastVerdict(es: seq<StoredEvent>, rule: Value): Option<Verdict>
  {
    if es == [] then None
    else
      var e := es[|es| - 1];
      if e.eventType == ComplianceRulePassed && Get(e.payload, RuleId) == rule then Some(Passed)
      else if e.eventType == ComplianceRuleFailed && Get(e.payload, RuleId) == rule then Some(Failed)
      else LastVerdict(es[..|es| - 1], rule)
  }

  /** The checks named by the last request, read directly off the events. */
  function LastRequested(es: seq<StoredEvent>): seq<Value>
  {
    if es == [] then []
    else if es[|es| - 1].eventType != ComplianceCheckRequested then LastRequested(es[..|es| - 1])
    else
      var p := es[|es| - 1].payload;
      if ChecksRequired in p && p[ChecksRequired].List? then p[ChecksRequired].items else []
  }

  /** A rule is in the failed table exactly when its last verdict is Failed; a rule whose last
      verdict is Passed is in the passed table, which also keeps rules that failed later. */
  lemma {:induction false} RecordHoldsLastVerdicts(es: seq<StoredEvent>)
    ensures Replay(es).requiredChecks == LastRequested(es)
    ensures forall rule :: rule in Replay(es).failed <==> LastVerdict(es, rule) == Some(Failed)
    ensures forall rule :: LastVerdict(es, rule) == Some(Passed) ==> rule in Replay(es).passed
    ensures forall rule :: rule in Replay(es).passed ==> LastVerdict(es, rule).Some?
  {
    if es != [] {
      RecordHoldsLastVerdicts(es[..|es| - 1]);
    }
  }

  /** The last event of a type about a rule. */
  function LatestOfRule(es: seq<StoredEvent>, t: EventType, rule: Value): Option<StoredEvent>
  {
    if es == [] then None
    else if es[|es| - 1].eventType == t && Get(es[|es| - 1].payload, RuleId) == rule then Some(es[|es| - 1])
    else LatestOfRule(es[..|es| - 1], t, rule)
  }

  lemma {:induction false} PassedHoldsLatest(es: seq<StoredEvent>, rule: Value)
    ensures rule in Replay(es).passed <==> LatestOfRule(es, ComplianceRulePassed, rule).Some?
    ensures rule in Replay(es).passed ==>
      Replay(es).passed[rule] == Get(LatestOfRule(es, ComplianceRulePassed, rule).value.payload, RuleVersion)
  {
    if es != [] {
      PassedHoldsLatest(es[..|es| - 1], rule);
    }
  }

  /** The tables carry the version of a rule's last pass and the reason of its last failure. */
  lemma {:induction false} RecordHoldsLatest(es: seq<StoredEvent>, rule: Value)
    ensures rule in Replay(es).passed <==> LatestOfRule(es, ComplianceRulePassed, rule).Some?
    ensures rule in Replay(es).passed ==>
      Replay(es).passed[rule] == Get(LatestOfRule(es, ComplianceRulePassed, rule).value.payload, RuleVersion)
    ensures rule in Replay(es).failed ==> LatestOfRule(es, ComplianceRuleFailed, rule).Some?
    ensures rule in Replay(es).failed ==>
      Replay(es).failed[rule] == Get(LatestOfRule(es, ComplianceRuleFailed, rule).value.payload, FailureReason)
    ensures Replay(es).clearanceIssued <==> Latest(es, ComplianceClearanceIssued).Some?
  {
    PassedHoldsLatest(es, rule);
    if es != [] {
      RecordHoldsLatest(es[..|es| - 1], rule);
    }
  }

  lemma NothingMissing(xs: seq<Value>, m: map<Value, Value>)
    ensures Filter(xs, NotIn(m)) == [] <==> forall c | c in xs :: c in m
  {
    FilterMembers(xs, NotIn(m));
    var missing := Filter(xs, NotIn(m));
    if missing != [] {
      assert missing[0] in missing;
      assert missing[0] in xs && NotIn(m)(missing[0]);
    } else {
      forall c | c in xs ensures c in m {
        assert c !in missing;
      }
    }
  }

  lemma NothingFailed(es: seq<StoredEvent>)
    ensures Replay(es).failed == map[] <==> forall rule :: LastVerdict(es, rule) != Some(Failed)
  {
    RecordHoldsLastVerdicts(es);
    var failed := Replay(es).failed;
    if failed != map[] {
      var rule :| rule in failed.Keys;
      assert LastVerdict(es, rule) == Some(Failed);
    }
  }

  /** The clearance check is exact on every stream. */
  lemma ClearanceIsExact(es: seq<StoredEvent>)
    ensures ClearanceOf(Replay(es)) == Clear <==>
      && LastRequested(es) != []
      && (forall c | c in LastRequested(es) :: LastVerdict(es, c) == Some(Passed))
      && (forall rule :: LastVerdict(es, rule) != Some(Failed))
  {
    var r := Replay(es);
    RecordHoldsLastVerdicts(es);
    NothingMissing(r.requiredChecks, r.passed);
    NothingFailed(es);
    if r.failed == map[] && forall c | c in r.requiredChecks :: c in r.passed {
      forall c | c in r.requiredChecks ensures LastVerdict(es, c) == Some(Passed) {
        assert c in r.passed && c !in r.failed;
        match LastVerdict(es, c)
        case Some(Passed) =>
        case Some(Failed) =>
        case None =>
      }
    }
  }

  lemma ApplyIgnoresUpcasting(r: Record, e: StoredEvent)
    ensures Apply(r, Migrated(Registered(), e)) == Apply(r, e)
    ensures Readable(Migrated(Registered(), e)) == Readable(e)
  {
    RegisteredUpcast(e);
  }

  lemma ReplayIgnoresUpcasting(es: seq<StoredEvent>)
    ensures Replay(MigratedAll(Registered(), es)) == Replay(es)
    ensures Loadable(MigratedAll(Registered(), es)) == Loadable(es)
  {
    forall r: Record, e ensures Apply(r, Migrated(Registered(), e)) == Apply(r, e) {
      ApplyIgnoresUpcasting(r, e);
    }
    forall e ensures Readable(Migrated(Registered(), e)) == Readable(e) {
      ApplyIgnoresUpcasting(NewRecord, e);
    }
    FoldIgnoresUpcasting(Registered(), Apply, NewRecord, Readable, es);
  }

}
