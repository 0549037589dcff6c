/** The daemon driving application_summary: what a caught-up table says about every application. */
module CaughtUpSummary {
  import opened Events
  import opened Sequences
  import opened EventLog
  import opened Upcasting
  import opened Daemon
  import opened DaemonRuns
  import opened ApplicationSummary

  /** The events the daemon hands over come from load_all, which upcasts them. */
  function SummaryProjection(): Projection<Table>
  {
    Projection("application_summary", (t: Table, e: StoredEvent) => Handle(t, Migrated(Registered(), e)),
               (t: Table, e: StoredEvent) => t, map[])
  }

  lemma SummaryIsIdempotent()
    ensures Idempotent(SummaryProjection())
  {
    var p := SummaryProjection();
    forall t, e ensures p.handle(p.handle(t, e), e) == p.handle(t, e) {
      HandleIdempotent(t, Migrated(Registered(), e));
    }
  }

  lemma {:induction false} SummaryIsFold(log: seq<StoredEvent>)
    ensures FoldOf(SummaryProjection(), log) == Summary(log)
  {
    if log != [] {
      var front, last := log[..|log| - 1], log[|log| - 1];
      SummaryIsFold(front);
      HandleIgnoresUpcasting(Summary(front), last);
    }
  }

  /** Cache and source, over every run of the daemon, whatever its other projections do, crashes included: once
      application_summary is caught up, each application whose loan events occurred in step reads the same state from
      the table as its aggregate has. */
  lemma CaughtUpTableAgrees(ps: seq<Projection<Table>>, log: seq<StoredEvent>, steps: seq<Step>, i: nat, app: string)
    requires Ascending(log) && i < |ps| && ps[i] == SummaryProjection()
    requires Smooth(steps, i) && RebuildsSafe(ps, Start(ps, log), steps, i)
    ensures var n := DaemonRuns.Run(ps, Start(ps, log), steps);
      CaughtUp(n.log, n.workers[i]) && Routed(n.log) && Quiet(n.log) && InStepThroughout(n.log, app) ==>
        RowState(n.workers[i].table, app) == LoanState(n.log, app)
  {
    SummaryIsIdempotent();
    CaughtUpIsFold(ps, log, steps, i);
    var n := DaemonRuns.Run(ps, Start(ps, log), steps);
    SummaryIsFold(n.log);
    if Routed(n.log) && Quiet(n.log) && InStepThroughout(n.log, app) {
      SummaryAgreesExactly(n.log, app);
    }
  }
}
