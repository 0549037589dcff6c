/** The compliance agent: the rule loop that stops at a hard block, and the rules it ships with. */
module ComplianceAgent {
  import opened Events
  import opened Sequences

  datatype Rule = Rule(id: string, version: string, hardBlock: bool, failReason: string)

  /** Whether a rule's predicate holds of the applicant at hand. */
  type Check = Rule -> bool

  const NOTE_RULE := "REG-006"

  // ---- what the loop writes ----

  function InitiatedEvent(app: string): NewEvent
  {
    NewEvent(ComplianceCheckInitiated, 1, map[ApplicationId := Text(app)])
  }

  /** The evidence is the hash of the company profile. */
  function RuleEvent(app: string, rule: Rule, passed: bool, evidence: string): NewEvent
  {
    if passed then
      NewEvent(ComplianceRulePassed, 1,
               map[ApplicationId := Text(app), RuleId := Text(rule.id), RuleVersion := Text(rule.version),
                   EvidenceHash := Text(evidence)])
    else
      NewEvent(ComplianceRuleFailed, 1,
               map[ApplicationId := Text(app), RuleId := Text(rule.id), RuleVersion := Text(rule.version),
                   FailureReason := Text(rule.failReason), IsHardBlock := Flag(rule.hardBlock),
                   EvidenceHash := Text(evidence)])
  }

  function NotedEvent(app: string): NewEvent
  {
    NewEvent(ComplianceRuleNoted, 1, map[ApplicationId := Text(app), RuleId := Text(NOTE_RULE)])
  }

  function CompletedEvent(app: string, r: Evaluation): NewEvent
  {
    NewEvent(ComplianceCheckCompleted, 1, map[
      ApplicationId := Text(app), RulesEvaluated := Int(r.evaluated), RulesPassed := Int(r.passed),
      RulesFailed := Int(r.failed), RulesNoted := Int(r.noted), HasHardBlock := Flag(r.hardBlockRule.Some?),
      OverallVerdict := Text(r.verdict)])
  }

  datatype Evaluation = Evaluation(
    evaluated: nat, passed: nat, failed: nat, noted: nat, hardBlockRule: Option<string>, failureReasons: seq<string>,
    verdict: string)

  function OfType(t: EventType): NewEvent -> bool
  {
    (e: NewEvent) => e.eventType == t
  }

  function Count(events: seq<NewEvent>, t: EventType): nat
  {
    |Filter(events, OfType(t))|
  }

  // ---- where the loop stops ----

  predicate Blocks(check: Check, rule: Rule)
  {
    rule.hardBlock && !check(rule)
  }

  /** The first hard-block rule from the k-th on that fails; the number of rules when there is none. */
  function FirstBlockFrom(rules: seq<Rule>, check: Check, k: nat): (n: nat)
    requires k <= |rules|
    ensures k <= n <= |rules|
    ensures n < |rules| ==> Blocks(check, rules[n])
    ensures forall i | k <= i < n :: !Blocks(check, rules[i])
    decreases |rules| - k
  {
    if k == |rules| || Blocks(check, rules[k]) then k else FirstBlockFrom(rules, check, k + 1)
  }

  function FirstBlock(rules: seq<Rule>, check: Check): (n: nat)
    ensures n <= |rules|
    ensures n < |rules| ==> Blocks(check, rules[n])
    ensures forall i | 0 <= i < n :: !Blocks(check, rules[i])
  {
    FirstBlockFrom(rules, check, 0)
  }

  /** The rules the loop gets to. */
  function Reached(rules: seq<Rule>, check: Check): seq<Rule>
  {
    var n := FirstBlock(rules, check);
    if n < |rules| then rules[..n + 1] else rules
  }

  function Fails(check: Check): Rule -> bool
  {
    (r: Rule) => !check(r)
  }

  function Emit(app: string, check: Check, evidence: string): Rule -> NewEvent
  {
    (r: Rule) => RuleEvent(app, r, check(r), evidence)
  }

  function ReasonOf(r: Rule): string { r.failReason }

  lemma CountSnoc(events: seq<NewEvent>, e: NewEvent, t: EventType)
    ensures Count(events + [e], t) == Count(events, t) + if e.eventType == t then 1 else 0
  {
    FilterSnoc(events, e, OfType(t));
  }

  /** The loop's first n rules, when none before them blocked, are the reached rules up to n. */
  lemma StoppedAt(rules: seq<Rule>, check: Check, n: nat)
    requires n < |rules| && Blocks(check, rules[n]) && forall i | 0 <= i < n :: !Blocks(check, rules[i])
    ensures FirstBlock(rules, check) == n && Reached(rules, check) == rules[..n + 1]
  {
  }

  lemma NeverStopped(rules: seq<Rule>, check: Check)
    requires forall i | 0 <= i < |rules| :: !Blocks(check, rules[i])
    ensures FirstBlock(rules, check) == |rules| && Reached(rules, check) == rules
  {
  }

  /** What the loop has produced after some rules. */
  datatype Progress = Progress(events: seq<NewEvent>, passed: nat, failed: nat, reasons: seq<string>)

  function ProgressOf(app: string, check: Check, evidence: string, done: seq<Rule>): Progress
  {
    Progress(Map(Emit(app, check, evidence), done), |Filter(done, check)|, |Filter(done, Fails(check))|,
             Map(ReasonOf, Filter(done, Fails(check))))
  }

  lemma ProgressSnoc(app: string, check: Check, evidence: string, done: seq<Rule>, rule: Rule)
    ensures var (p, p') := (ProgressOf(app, check, evidence, done), ProgressOf(app, check, evidence, done + [rule]));
      && p'.events == p.events + [RuleEvent(app, rule, check(rule), evidence)]
      && p'.passed == p.passed + (if check(rule) then 1 else 0)
      && p'.failed == p.failed + (if check(rule) then 0 else 1)
      && p'.reasons == if check(rule) then p.reasons else p.reasons + [rule.failReason]
  {
    MapSnoc(Emit(app, check, evidence), done, rule);
    FilterSnoc(done, rule, check);
    FilterSnoc(done, rule, Fails(check));
    MapSnoc(ReasonOf, Filter(done, Fails(check)), rule);
    assert Filter(done, Fails(check)) + [] == Filter(done, Fails(check));
  }

  /** The rule loop: every rule up to and including the first hard block. */
  method EvaluateUntilBlock(app: string, rules: seq<Rule>, check: Check, evidence: string)
    returns (events: seq<NewEvent>, passed: nat, failed: nat, reasons: seq<string>, block: Option<string>)
    ensures Progress(events, passed, failed, reasons) == ProgressOf(app, check, evidence, Reached(rules, check))
    ensures block == if FirstBlock(rules, check) < |rules| then Some(rules[FirstBlock(rules, check)].id) else None
  {
    events, passed, failed, reasons, block := [], 0, 0, [], None;
    var i := 0;
    while i < |rules|
      invariant 0 <= i <= |rules| && block.None?
      invariant forall j | 0 <= j < i :: !Blocks(check, rules[j])
      invariant Progress(events, passed, failed, reasons) == ProgressOf(app, check, evidence, rules[..i])
    {
      var rule := rules[i];
      assert rules[..i + 1] == rules[..i] + [rule];
      ProgressSnoc(app, check, evidence, rules[..i], rule);
      events := events + [RuleEvent(app, rule, check(rule), evidence)];
      if check(rule) {
        passed := passed + 1;
      } else {
        failed := failed + 1;
        reasons := reasons + [rule.failReason];
        if rule.hardBlock {
          block := Some(rule.id);
          StoppedAt(rules, check, i);
          return;
        }
      }
      i := i + 1;
    }
    assert rules[..|rules|] == rules;
    NeverStopped(rules, check);
  }

  lemma CountAppend(xs: seq<NewEvent>, ys: seq<NewEvent>, t: EventType)
    ensures Count(xs + ys, t) == Count(xs, t) + Count(ys, t)
  {
    FilterAppend(xs, ys, OfType(t));
  }

  lemma CountOne(e: NewEvent, t: EventType)
    ensures Count([e], t) == if e.eventType == t then 1 else 0
  {
    CountSnoc([], e, t);
    assert [] + [e] == [e];
  }

  /** The loop emits one passed or failed event per rule and nothing else. */
  lemma {:induction false} EmittedCounts(app: string, rules: seq<Rule>, check: Check, evidence: string,
                                       t: EventType)
    ensures Count(Map(Emit(app, check, evidence), rules), t) ==
      match t
      case ComplianceRulePassed => |Filter(rules, check)|
      case ComplianceRuleFailed => |Filter(rules, Fails(check))|
      case _ => 0
  {
    if rules != [] {
      var front, last := rules[..|rules| - 1], rules[|rules| - 1];
      EmittedCounts(app, front, check, evidence, t);
      assert rules == front + [last];
      MapSnoc(Emit(app, check, evidence), front, last);
      CountSnoc(Map(Emit(app, check, evidence), front), Emit(app, check, evidence)(last), t);
    }
  }

  lemma {:induction false} PassedPlusFailed(rules: seq<Rule>, check: Check)
    ensures |Filter(rules, check)| + |Filter(rules, Fails(check))| == |rules|
  {
    if rules != [] {
      PassedPlusFailed(rules[..|rules| - 1], check);
    }
  }

  /** Among the reached rules one fails exactly when one of all the rules does. */
  lemma SomeFails(rules: seq<Rule>, check: Check)
    ensures Filter(Reached(rules, check), Fails(check)) == [] <==> forall i | 0 <= i < |rules| :: check(rules[i])
  {
    var reached := Reached(rules, check);
    var n := FirstBlock(rules, check);
    FilterMembers(reached, Fails(check));
    var failing := Filter(reached, Fails(check));
    if n < |rules| {
      assert reached[n] == rules[n] && reached[n] in reached;
      assert reached[n] in failing;
    } else if failing != [] {
      assert failing[0] in failing;
    } else {
      forall i | 0 <= i < |rules| ensures check(rules[i]) {
        assert reached[i] in reached && reached[i] !in failing;
      }
    }
  }

  function Opening(app: string, streamVersion: nat): seq<NewEvent>
  {
    if streamVersion == 0 then [InitiatedEvent(app)] else []
  }

  function Note(app: string, blocked: bool): seq<NewEvent>
  {
    if blocked then [] else [NotedEvent(app)]
  }

  /** The numbers of events of the whole append. */
  lemma AppendCounts(app: string, streamVersion: nat, rules: seq<Rule>, check: Check, evidence: string, blocked: bool,
                     r: Evaluation)
    ensures var emitted := Map(Emit(app, check, evidence), rules);
      var events := Opening(app, streamVersion) + emitted + Note(app, blocked) + [CompletedEvent(app, r)];
      && Count(events, ComplianceRulePassed) == |Filter(rules, check)|
      && Count(events, ComplianceRuleFailed) == |Filter(rules, Fails(check))|
      && Count(events, ComplianceRuleNoted) == if blocked then 0 else 1
  {
    var opening, emitted := Opening(app, streamVersion), Map(Emit(app, check, evidence), rules);
    var note, last := Note(app, blocked), CompletedEvent(app, r);
    forall t | t in {ComplianceRulePassed, ComplianceRuleFailed, ComplianceRuleNoted}
      ensures Count(opening + emitted + note + [last], t) ==
        Count(emitted, t) + if t == ComplianceRuleNoted && !blocked then 1 else 0
    {
      CountSnoc(opening + emitted + note, last, t);
      CountAppend(opening + emitted, note, t);
      CountAppend(opening, emitted, t);
      CountOne(InitiatedEvent(app), t);
      CountOne(NotedEvent(app), t);
    }
    EmittedCounts(app, rules, check, evidence, ComplianceRulePassed);
    EmittedCounts(app, rules, check, evidence, ComplianceRuleFailed);
    EmittedCounts(app, rules, check, evidence, ComplianceRuleNoted);
  }

  /** What one evaluation writes, event by event: an opening on a new stream, a verdict for each rule the loop got to,
      the note unless a rule blocked, and the summary. */
  predicate Protocol(events: seq<NewEvent>, app: string, reached: seq<Rule>, check: Check, evidence: string,
                     newStream: bool, r: Evaluation)
  {
    var k, n := if newStream then 1 else 0, |reached|;
    var noted := if r.verdict == "BLOCKED" then 0 else 1;
    && |events| == k + n + noted + 1
    && (newStream ==> events[0] == NewEvent(ComplianceCheckInitiated, 1, map[ApplicationId := Text(app)]))
    && (forall i | 0 <= i < n :: VerdictFor(events[k + i], app, reached[i], check(reached[i]), evidence))
    && (noted == 1 ==>
          events[k + n] ==
          NewEvent(ComplianceRuleNoted, 1, map[ApplicationId := Text(app), RuleId := Text("REG-006")]))
    && events[|events| - 1] ==
       NewEvent(ComplianceCheckCompleted, 1, map[
         ApplicationId := Text(app), RulesEvaluated := Int(r.evaluated), RulesPassed := Int(r.passed),
         RulesFailed := Int(r.failed), RulesNoted := Int(r.noted), HasHardBlock := Flag(r.verdict == "BLOCKED"),
         OverallVerdict := Text(r.verdict)])
  }

  predicate VerdictFor(e: NewEvent, app: string, rule: Rule, passed: bool, evidence: string)
  {
    && e.eventType == (if passed then ComplianceRulePassed else ComplianceRuleFailed) && e.version == 1
    && e.payload == map[ApplicationId := Text(app), RuleId := Text(rule.id), RuleVersion := Text(rule.version),
                        EvidenceHash := Text(evidence)] +
         if passed then map[]
         else map[FailureReason := Text(rule.failReason), IsHardBlock := Flag(rule.hardBlock)]
  }

  lemma ProtocolKept(events: seq<NewEvent>, app: string, reached: seq<Rule>, check: Check, evidence: string,
                     streamVersion: nat, r: Evaluation)
    requires r.hardBlockRule.Some? <==> r.verdict == "BLOCKED"
    requires events == Opening(app, streamVersion) + Map(Emit(app, check, evidence), reached)
      + Note(app, r.verdict == "BLOCKED") + [CompletedEvent(app, r)]
    ensures Protocol(events, app, reached, check, evidence, streamVersion == 0, r)
  {
    var opening, note := Opening(app, streamVersion), Note(app, r.verdict == "BLOCKED");
    var emitted := Map(Emit(app, check, evidence), reached);
    FourParts(opening, emitted, note, CompletedEvent(app, r));
    forall i | 0 <= i < |reached|
      ensures VerdictFor(events[|opening| + i], app, reached[i], check(reached[i]), evidence)
    {
      RuleEventTells(app, reached[i], check(reached[i]), evidence);
      assert events[|opening| + i] == emitted[i] == RuleEvent(app, reached[i], check(reached[i]), evidence);
    }
  }

  lemma RuleEventTells(app: string, rule: Rule, passed: bool, evidence: string)
    ensures VerdictFor(RuleEvent(app, rule, passed, evidence), app, rule, passed, evidence)
  {
  }

  lemma FourParts(a: seq<NewEvent>, b: seq<NewEvent>, c: seq<NewEvent>, last: NewEvent)
    ensures var all := a + b + c + [last];
      && |all| == |a| + |b| + |c| + 1 && all[|all| - 1] == last
      && (forall i | 0 <= i < |a| :: all[i] == a[i]) && (forall i | 0 <= i < |b| :: all[|a| + i] == b[i])
      && (forall i | 0 <= i < |c| :: all[|a| + |b| + i] == c[i])
  {
  }

  /** The whole evaluation. BLOCKED if and only if some hard-block rule fails, then with the first such rule; otherwise
      CONDITIONAL if any rule fails and CLEAR if none does. The counters are the numbers of the passed, failed
      and noted events emitted, and add up to the rules evaluated. */
  method EvaluateRules(app: string, rules: seq<Rule>, check: Check, evidence: string, streamVersion: nat)
    returns (events: seq<NewEvent>, r: Evaluation)
    ensures r.verdict in {"BLOCKED", "CONDITIONAL", "CLEAR"}
    ensures r.verdict == "BLOCKED" <==> exists i :: 0 <= i < |rules| && Blocks(check, rules[i])
    ensures r.verdict == "CLEAR" <==> forall i | 0 <= i < |rules| :: check(rules[i])
    ensures var n := FirstBlock(rules, check);
      r.hardBlockRule == if n < |rules| then Some(rules[n].id) else None
    ensures r.passed == Count(events, ComplianceRulePassed) && r.failed == Count(events, ComplianceRuleFailed)
    ensures r.noted == Count(events, ComplianceRuleNoted) == if r.verdict == "BLOCKED" then 0 else 1
    ensures r.passed + r.failed + r.noted == r.evaluated
    ensures r.failureReasons == Map(ReasonOf, Filter(Reached(rules, check), Fails(check)))
    ensures events == Opening(app, streamVersion) + Map(Emit(app, check, evidence), Reached(rules, check))
      + Note(app, r.verdict == "BLOCKED") + [CompletedEvent(app, r)]
    ensures Protocol(events, app, Reached(rules, check), check, evidence, streamVersion == 0, r)
  {
    var emitted, passed, failed, reasons, block := EvaluateUntilBlock(app, rules, check, evidence);
    events := Opening(app, streamVersion) + emitted;
    var evaluated, noted := |emitted|, 0;
    if block.None? {
      evaluated := evaluated + 1;
      noted := noted + 1;
      events := events + [NotedEvent(app)];
    }
    var verdict := if block.Some? then "BLOCKED" else if failed > 0 then "CONDITIONAL" else "CLEAR";
    r := Evaluation(evaluated, passed, failed, noted, block, reasons, verdict);
    assert events + [] == events;
    events := events + [CompletedEvent(app, r)];
    SomeFails(rules, check);
    PassedPlusFailed(Reached(rules, check), check);
    AppendCounts(app, streamVersion, Reached(rules, check), check, evidence, block.Some?, r);
    ProtocolKept(events, app, Reached(rules, check), check, evidence, streamVersion, r);
  }

  // ---- the shipped rules ----

  datatype RiskFlag = RiskFlag(flagType: string, active: bool)

  /** What the rules read of the applicant; None is a missing or null field. */
  datatype Applicant = Applicant(
    flags: seq<RiskFlag>, jurisdiction: Option<string>, legalType: Option<string>, requested: Option<real>,
    foundedYear: Option<int>)

  predicate HasActive(a: Applicant, flagType: string)
  {
    exists f :: f in a.flags && f.flagType == flagType && f.active
  }

  /** founded_year or 2026 */
  function FoundedYear(a: Applicant): int
  {
    if a.foundedYear.Some? && a.foundedYear.value != 0 then a.foundedYear.value else 2026
  }

  const RULES := [
    Rule("REG-001", "2026-Q1-v1", false, "Active AML watch flag detected."),
    Rule("REG-002", "2026-Q1-v1", true, "Sanctions review active."),
    Rule("REG-003", "2026-Q1-v1", true, "REG-003 hard block: jurisdiction MT is not eligible."),
    Rule("REG-004", "2026-Q1-v1", false, "Sole Proprietor above 250k requires enhanced docs."),
    Rule("REG-005", "2026-Q1-v1", true, "Business operating history is below 2 years.")]

  function RegulationCheck(a: Applicant): Check
  {
    (r: Rule) =>
      match r.id
      case "REG-001" => !HasActive(a, "AML_WATCH")
      case "REG-002" => !HasActive(a, "SANCTIONS_REVIEW")
      case "REG-003" => a.jurisdiction != Some("MT")
      case "REG-004" => !(a.legalType == Some("Sole Proprietor") && a.requested.Some? && a.requested.value > 250000.0)
      case "REG-005" => 2026 - FoundedYear(a) >= 2
      case _ => true
  }

  ghost predicate ActiveFlag(a: Applicant, flagType: string)
  {
    exists f :: f in a.flags && f.flagType == flagType && f.active
  }

  /** The shipped rules, one by one: an applicant fails REG-001 for an active AML watch, REG-002 for an active sanctions
      review, REG-003 for jurisdiction MT, REG-004 as a sole proprietor asking for more than 250000, and REG-005 when
      founded after 2024 or in an unknown year (a missing one or 0); the second, third and fifth block. */
  lemma ShippedRulesExactly(a: Applicant)
    ensures |RULES| == 5
    ensures var check := RegulationCheck(a);
      && (RULES[0].id == "REG-001" && !RULES[0].hardBlock && (check(RULES[0]) <==> !ActiveFlag(a, "AML_WATCH")))
      && (RULES[1].id == "REG-002" && RULES[1].hardBlock && (check(RULES[1]) <==> !ActiveFlag(a, "SANCTIONS_REVIEW")))
      && (RULES[2].id == "REG-003" && RULES[2].hardBlock && (check(RULES[2]) <==> a.jurisdiction != Some("MT")))
      && (RULES[3].id == "REG-004" && !RULES[3].hardBlock
          && (check(RULES[3]) <==>
              a.legalType != Some("Sole Proprietor") || a.requested.None? || a.requested.value <= 250000.0))
      && (RULES[4].id == "REG-005" && RULES[4].hardBlock
          && (check(RULES[4]) <==> a.foundedYear.Some? && a.foundedYear.value != 0 && a.foundedYear.value <= 2024))
    ensures RULES[0].failReason == "Active AML watch flag detected."
    ensures RULES[1].failReason == "Sanctions review active."
    ensures RULES[2].failReason == "REG-003 hard block: jurisdiction MT is not eligible."
    ensures RULES[3].failReason == "Sole Proprietor above 250k requires enhanced docs."
    ensures RULES[4].failReason == "Business operating history is below 2 years."
    ensures forall r | r in RULES :: r.version == "2026-Q1-v1"
  {
  }

  /** With the shipped rules an applicant is blocked exactly for an active sanctions review, for jurisdiction MT,
      or for fewer than two years of history; an applicant without a company profile always is. */
  lemma ShippedRulesBlockExactly(a: Applicant)
    ensures (exists i :: 0 <= i < |RULES| && Blocks(RegulationCheck(a), RULES[i])) <==>
      HasActive(a, "SANCTIONS_REVIEW") || a.jurisdiction == Some("MT") || FoundedYear(a) > 2024
    ensures a.foundedYear.None? ==> exists i :: 0 <= i < |RULES| && Blocks(RegulationCheck(a), RULES[i])
  {
    var check := RegulationCheck(a);
    assert Blocks(check, RULES[1]) <==> HasActive(a, "SANCTIONS_REVIEW");
    assert Blocks(check, RULES[2]) <==> a.jurisdiction == Some("MT");
    assert Blocks(check, RULES[4]) <==> FoundedYear(a) > 2024;
    assert !Blocks(check, RULES[0]) && !Blocks(check, RULES[3]);
  }
}
