/** Every interleaving of handlers and other writers, as a history of ledgers: each commit is explained
    by a writer whose loads happened at earlier points of the history. */
module HandlerRuns {
  import opened Events
  import opened Sequences
  import opened EventLog
  import opened Commands
  import Loan = LoanApplication
  import Session = AgentSession

  /** Who made one commit, and at which earlier points it had loaded what it validated. */
  datatype Cause =
    | OtherWriter(sid: string, inserts: seq<Insert>, expected: int, meta: Metadata)
    | Archiver(sid: string)
    | CreditHandler(credit: CreditCommand, stamp: Stamp, meta: Metadata, loanAt: nat, sessionAt: nat)
    | DecisionHandler(decision: DecisionCommand, stamp: Stamp, meta: Metadata, loanAt: nat, scanAt: map<string, nat>)
    | ReviewHandler(review: ReviewCommand, stamp: Stamp, meta: Metadata, loanAt: nat)

  function LoanAt(l: Ledger, app: string): Loan.Loan
  {
    Loan.Replay(Stream(l, LoanStream(app)))
  }

  function AppendAt(l: Ledger, app: string, event: NewEvent, stamp: Stamp, expected: int, meta: Metadata): Ledger
  {
    Append(l, LoanStream(app), [Insert(event, stamp)], expected, meta).0
  }

  /** The k-th commit of history h is what this cause does. Commands that the guards refuse commit nothing. */
  ghost predicate Explains(h: seq<Ledger>, k: nat, c: Cause)
    requires k + 1 < |h|
  {
    match c
    case OtherWriter(sid, inserts, expected, meta) =>
      ForeignTo(sid, inserts) && h[k + 1] == Append(h[k], sid, inserts, expected, meta).0
    case Archiver(sid) =>
      h[k + 1] == Archive(h[k], sid).0
    case CreditHandler(cmd, stamp, meta, i, j) =>
      && i <= k && j <= k
      && Loan.AwaitingCreditAnalysis(LoanAt(h[i], cmd.applicationId))
      && Loan.CreditNotLocked(LoanAt(h[i], cmd.applicationId))
      && Session.ContextIsLoaded(Session.Replay(Stream(h[j], AgentStream(cmd.agentId, cmd.sessionId))))
      && Session.ModelIsCurrent(Session.Replay(Stream(h[j], AgentStream(cmd.agentId, cmd.sessionId))), cmd.modelVersion)
      && h[k + 1] == AppendAt(h[k], cmd.applicationId, CreditEvent(cmd), stamp,
                              LoanAt(h[i], cmd.applicationId).version, meta)
    case DecisionHandler(cmd, stamp, meta, i, scanAt) =>
      && i <= k
      && Loan.AwaitingDecision(LoanAt(h[i], cmd.applicationId))
      && Loan.Cleared(LoanAt(h[i], cmd.applicationId))
      && Loan.ConfidenceFloor(cmd.confidence, cmd.recommendation)
      && (forall s | s in cmd.contributingSessions ::
            s in scanAt && scanAt[s] <= k && Evidence(h[scanAt[s]].events, s, cmd.applicationId))
      && h[k + 1] == AppendAt(h[k], cmd.applicationId, DecisionEvent(cmd), stamp,
                              LoanAt(h[i], cmd.applicationId).version, meta)
    case ReviewHandler(cmd, stamp, meta, i) =>
      && i <= k
      && Loan.AwaitingHumanReview(LoanAt(h[i], cmd.applicationId))
      && h[k + 1] == AppendAt(h[k], cmd.applicationId, ReviewEvent(cmd), stamp,
                              LoanAt(h[i], cmd.applicationId).version, meta)
  }

  ghost predicate Explained(h: seq<Ledger>, k: nat)
    requires k + 1 < |h|
  {
    exists c :: Explains(h, k, c)
  }

  ghost predicate History(h: seq<Ledger>)
  {
    && |h| > 0 && h[0] == EmptyLedger
    && forall k: nat | k + 1 < |h| :: Explained(h, k)
  }

  /** All the ledgers of a history are sound and guarded, and each extends all before it. */
  ghost predicate Safe(h: seq<Ledger>)
  {
    && (forall k | 0 <= k < |h| :: Sound(h[k]) && Guarded(h[k].events))
    && (forall i, k | 0 <= i <= k < |h| :: Extends(h[i], h[k]))
  }

  lemma CommitKeepsGuarded(h: seq<Ledger>, k: nat, c: Cause)
    requires k + 1 < |h| && Safe(h[..k + 1]) && Explains(h, k, c)
    ensures Sound(h[k + 1]) && Guarded(h[k + 1].events) && Extends(h[k], h[k + 1])
  {
    var past := h[..k + 1];
    assert past[k] == h[k];
    match c {
      case OtherWriter(sid, inserts, expected, meta) =>
        AppendKeepsSound(h[k], sid, inserts, expected, meta);
        ForeignAppend(h[k], sid, inserts, expected, meta);
      case Archiver(sid) =>
        ArchiveKeepsSound(h[k], sid);
      case CreditHandler(cmd, stamp, meta, i, j) =>
        assert past[i] == h[i] && past[j] == h[j];
        LoadedVersionIsStreamVersion(h[i], LoanStream(cmd.applicationId));
        AppendKeepsSound(h[k], LoanStream(cmd.applicationId), [Insert(CreditEvent(cmd), stamp)],
                         LoanAt(h[i], cmd.applicationId).version, meta);
        CreditAppend(h[i], h[j], h[k], cmd, stamp, meta);
      case DecisionHandler(cmd, stamp, meta, i, scanAt) =>
        assert past[i] == h[i];
        LoadedVersionIsStreamVersion(h[i], LoanStream(cmd.applicationId));
        forall s | s in cmd.contributingSessions ensures Evidence(h[k].events, s, cmd.applicationId) {
          assert past[scanAt[s]] == h[scanAt[s]];
          EvidenceGrows(h[scanAt[s]].events, h[k].events, s, cmd.applicationId);
        }
        AppendKeepsSound(h[k], LoanStream(cmd.applicationId), [Insert(DecisionEvent(cmd), stamp)],
                         LoanAt(h[i], cmd.applicationId).version, meta);
        DecisionAppend(h[i], h[k], cmd, stamp, meta);
      case ReviewHandler(cmd, stamp, meta, i) =>
        assert past[i] == h[i];
        LoadedVersionIsStreamVersion(h[i], LoanStream(cmd.applicationId));
        AppendKeepsSound(h[k], LoanStream(cmd.applicationId), [Insert(ReviewEvent(cmd), stamp)],
                         LoanAt(h[i], cmd.applicationId).version, meta);
        ReviewAppend(h[i], h[k], cmd, stamp, meta);
    }
  }

  lemma EmptyLedgerIsSafe()
    ensures Sound(EmptyLedger) && Guarded(EmptyLedger.events) && Extends(EmptyLedger, EmptyLedger)
  {
    forall sid ensures StreamSound(EmptyLedger, sid) {
    }
  }

  lemma ExplainsLocally(h: seq<Ledger>, n: nat, k: nat, c: Cause)
    requires k + 1 < n <= |h| && Explains(h, k, c)
    ensures Explains(h[..n], k, c)
  {
    var past := h[..n];
    assert forall i | 0 <= i <= k + 1 :: past[i] == h[i];
  }

  lemma HistoryPrefix(h: seq<Ledger>, n: nat)
    requires History(h) && 0 < n <= |h|
    ensures History(h[..n])
  {
    forall k: nat | k + 1 < n ensures Explained(h[..n], k) {
      assert Explained(h, k);
      var c :| Explains(h, k, c);
      ExplainsLocally(h, n, k, c);
      assert Explains(h[..n], k, c);
    }
  }

  lemma SafeGrows(past: seq<Ledger>, l: Ledger)
    requires |past| > 0 && Safe(past)
    requires Sound(l) && Guarded(l.events) && Extends(past[|past| - 1], l) && Extends(l, l)
    ensures Safe(past + [l])
  {
    var h := past + [l];
    forall i | 0 <= i < |past| ensures Extends(past[i], l) {
      ExtendsTransitive(past[i], past[|past| - 1], l);
    }
  }

  lemma LastCommitKeepsGuarded(h: seq<Ledger>, n: nat)
    requires History(h) && 0 < n < |h| && Safe(h[..n])
    ensures Sound(h[n]) && Guarded(h[n].events) && Extends(h[n - 1], h[n])
  {
    assert Explained(h, n - 1);
    var c :| Explains(h, n - 1, c);
    CommitKeepsGuarded(h, n - 1, c);
  }

  /** Over every interleaving of credit, decision and review handlers with any other writers:
      whatever was loaded when, every commit leaves every guarded event justified. */
  lemma {:induction false} EveryHistoryIsSafe(h: seq<Ledger>)
    requires History(h)
    ensures Safe(h)
  {
    var n := |h| - 1;
    if n == 0 {
      EmptyLedgerIsSafe();
    } else {
      var past := h[..n];
      HistoryPrefix(h, n);
      EveryHistoryIsSafe(past);
      LastCommitKeepsGuarded(h, n);
      ExtendsReflexive(h[n]);
      SafeGrows(past, h[n]);
      assert h == past + [h[n]];
    }
  }

  /** The event sits in the log after a context load that vouches for it. */
  ghost predicate Vouched(log: seq<StoredEvent>, e: StoredEvent)
  {
    exists n: nat, m: nat | n < |log| && log[n] == e :: SessionVouches(log, n, m)
  }

  /** The event sits in the log after events that name every session it lists. */
  ghost predicate CausallyChained(log: seq<StoredEvent>, e: StoredEvent, app: string)
  {
    && Get(e.payload, ContributingSessions).List?
    && exists n: nat | n < |log| && log[n] == e ::
         forall x | x in e.payload[ContributingSessions].items :: x.Text? && Evidence(log[..n], x.s, app)
  }

  /** BR-2, BR-3: in every history, a loan stream holds at most one credit analysis, and the one it holds
      comes later in the log than a context load of its session with the same (or a null) model version. */
  lemma OneVouchedCreditAnalysis(h: seq<Ledger>, k: nat, app: string, i: nat)
    requires History(h) && k < |h|
    requires i < |Stream(h[k], LoanStream(app))|
    requires Stream(h[k], LoanStream(app))[i].eventType == CreditAnalysisCompleted
    ensures forall j | 0 <= j < |Stream(h[k], LoanStream(app))| && j != i ::
      Stream(h[k], LoanStream(app))[j].eventType != CreditAnalysisCompleted
    ensures Vouched(h[k].events, Stream(h[k], LoanStream(app))[i])
  {
    EveryHistoryIsSafe(h);
    var log := h[k].events;
    var es := Stream(h[k], LoanStream(app));
    forall j | 0 <= j < |es| && j != i ensures es[j].eventType != CreditAnalysisCompleted {
      if j < i {
        AtMostOneCreditAnalysis(log, app, j, i);
      } else {
        AtMostOneCreditAnalysis(log, app, i, j);
      }
    }
    var n := FilterIndex(log, OnStream(LoanStream(app)), i);
    LoanStreamShape(app);
    assert Justified(log, n);
    var m: nat :| SessionVouches(log, n, m);
    assert n < |log| && log[n] == es[i] && SessionVouches(log, n, m);
  }

  /** BR-1, BR-4, BR-5, BR-6: in every history, at every prefix of a loan stream reviews never outnumber decisions
      and decisions never outnumber clearances; each decision respects the confidence floor, and each
      session it names as contributing had already left an event about the application. */
  lemma DecisionsAreClearedAndVouched(h: seq<Ledger>, k: nat, app: string, i: nat)
    requires History(h) && k < |h|
    requires i < |Stream(h[k], LoanStream(app))|
    ensures var es := Stream(h[k], LoanStream(app))[..i + 1];
      Count(es, HumanReviewCompleted) <= Count(es, DecisionGenerated) <= Count(es, ComplianceClearanceIssued)
    ensures var e := Stream(h[k], LoanStream(app))[i];
      e.eventType == DecisionGenerated ==>
        FloorRespected(e.payload) && CausallyChained(h[k].events, e, app)
  {
    EveryHistoryIsSafe(h);
    var log := h[k].events;
    ReviewsDecisionsClearances(log, app, i + 1);
    var n := FilterIndex(log, OnStream(LoanStream(app)), i);
    LoanStreamShape(app);
    assert Justified(log, n);
    assert log[n] == Stream(h[k], LoanStream(app))[i];
  }
}
