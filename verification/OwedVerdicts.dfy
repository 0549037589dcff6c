/** What a table of verdicts together with the events from some point of the log on says, against the whole log. */
module OwedVerdicts {
  import opened Events
  import opened Sequences
  import opened EventLog
  import opened ComplianceAudit

  /** The verdicts about an application on its stream. */
  function StreamVerdicts(es: seq<StoredEvent>, app: string): Verdicts
  {
    VerdictsOf(Filter(es, OnStream(ComplianceStream(app))))
  }

  /** Folding verdicts overrides: the later ones win, rule by rule. */
  lemma {:induction false} FoldIsMerge(vs: Verdicts, es: seq<StoredEvent>)
    ensures Fold(Apply, vs, es) == vs + VerdictsOf(es)
  {
    if es != [] {
      FoldIsMerge(vs, es[..|es| - 1]);
    }
  }

  lemma StreamVerdictsAppend(xs: seq<StoredEvent>, ys: seq<StoredEvent>, app: string)
    ensures StreamVerdicts(xs + ys, app) == StreamVerdicts(xs, app) + StreamVerdicts(ys, app)
  {
    var on := OnStream(ComplianceStream(app));
    FilterAppend(xs, ys, on);
    FoldAppend(Apply, map[], Filter(xs, on), Filter(ys, on));
    FoldIsMerge(StreamVerdicts(xs, app), Filter(ys, on));
  }

  /** The verdicts the log holds from its n-th event on. */
  function From(log: seq<StoredEvent>, n: nat, app: string): Verdicts
  {
    if n <= |log| then StreamVerdicts(log[n..], app) else map[]
  }

  lemma FromSplits(log: seq<StoredEvent>, n: nat, t: nat, app: string)
    requires n <= t <= |log|
    ensures From(log, n, app) == StreamVerdicts(log[n..t], app) + From(log, t, app)
  {
    assert log[n..] == log[n..t] + log[t..];
    StreamVerdictsAppend(log[n..t], log[t..], app);
  }

  lemma FromGrows(log: seq<StoredEvent>, rows: seq<StoredEvent>, n: nat, app: string)
    requires n <= |log|
    ensures From(log + rows, n, app) == From(log, n, app) + StreamVerdicts(rows, app)
  {
    assert (log + rows)[n..] == log[n..] + rows;
    StreamVerdictsAppend(log[n..], rows, app);
  }

  /** Verdicts which the events from the n-th on complete to those of the whole log. */
  predicate Covers(log: seq<StoredEvent>, vs: Verdicts, n: nat, app: string)
  {
    vs + From(log, n, app) == From(log, 0, app)
  }

  lemma CoversGrows(log: seq<StoredEvent>, rows: seq<StoredEvent>, vs: Verdicts, n: nat, app: string)
    requires n <= |log| && Covers(log, vs, n, app)
    ensures Covers(log + rows, vs, n, app)
  {
    FromGrows(log, rows, n, app);
    FromGrows(log, rows, 0, app);
  }

  /** Delivering from further back does no harm. */
  lemma CoversEarlier(log: seq<StoredEvent>, vs: Verdicts, n: nat, later: nat, app: string)
    requires n <= later <= |log| && Covers(log, vs, later, app)
    ensures Covers(log, vs, n, app)
  {
    FromSplits(log, n, later, app);
    FromSplits(log, 0, n, app);
    var all := From(log, 0, app);
    assert vs + From(log, n, app) == all by {
      forall rule ensures rule in vs + From(log, n, app) <==> rule in all {
      }
    }
  }

  lemma MergeAssociates(a: Verdicts, b: Verdicts, c: Verdicts)
    ensures (a + b) + c == a + (b + c)
  {
  }

  /** The verdicts of one event, added to the table of an application by its upsert. */
  lemma UpsertMerges(v: View, e: StoredEvent, app: string)
    requires !Raises(e) && RoutedEvent(e)
    ensures Named(RowsOf(Upsert(v, e), app)) == Named(RowsOf(v, app)) + StreamVerdicts([e], app)
  {
    var on := OnStream(ComplianceStream(app));
    FilterSnoc([], e, on);
    assert [] + [e] == [e];
    FoldSnoc(Apply, map[], [], e);
    FoldSnoc(Apply, Named(RowsOf(v, app)), [], e);
    FoldIsMerge(Named(RowsOf(v, app)), Filter([e], on));
    UpsertVerdict(v, e, app);
  }

  /** The one event a delivery adds to the table is the one it takes from what is owed. */
  lemma DeliveryMerges(log: seq<StoredEvent>, m: nat, v: View, app: string)
    requires m < |log| && RoutedEvent(log[m]) && !Raises(log[m])
    ensures Named(RowsOf(Upsert(v, log[m]), app)) + From(log, m + 1, app) == Named(RowsOf(v, app)) + From(log, m, app)
  {
    FromSplits(log, m, m + 1, app);
    assert log[m..m + 1] == [log[m]];
    UpsertMerges(v, log[m], app);
    MergeAssociates(Named(RowsOf(v, app)), StreamVerdicts([log[m]], app), From(log, m + 1, app));
  }

  /** Whether every rule with a verdict among the first n events has one behind them. */
  predicate SaidAgain(log: seq<StoredEvent>, n: nat, app: string)
  {
    n <= |log| && forall rule | rule in StreamVerdicts(log[..n], app) :: rule in From(log, n, app)
  }

  lemma AddsNothing(seen: Verdicts, later: Verdicts)
    ensures map[] + later == later
    ensures (forall rule | rule in seen :: rule in later) <==> later == seen + later
  {
    if later == seen + later {
      forall rule | rule in seen ensures rule in later {
        assert rule in seen + later;
      }
    }
  }

  lemma SaidAgainCovers(log: seq<StoredEvent>, n: nat, app: string)
    requires n <= |log|
    ensures SaidAgain(log, n, app) <==> Covers(log, map[], n, app)
  {
    FromSplits(log, 0, n, app);
    assert log[0..n] == log[..n];
    AddsNothing(StreamVerdicts(log[..n], app), From(log, n, app));
  }

  lemma EmptyTable(app: string)
    ensures Named(RowsOf(map[], app)) == map[]
  {
  }

  lemma OneVerdictMerges(vs: Verdicts, rule: string, v: RuleVerdict, later: Verdicts)
    ensures vs + later == vs + map[rule := v] + later <==> rule in later || (rule in vs && vs[rule] == v)
  {
    if rule !in later {
      assert (vs + map[rule := v] + later)[rule] == v;
      assert rule in vs ==> (vs + later)[rule] == vs[rule];
    }
  }

  lemma SkippedEvent(log: seq<StoredEvent>, m: nat, vs: Verdicts, app: string)
    requires m < |log|
    ensures var e := log[m];
      vs + From(log, m + 1, app) == vs + From(log, m, app) <==>
        || e.streamId != ComplianceStream(app) || !IsVerdict(e) || !IsName(Get(e.payload, RuleId))
        || e.payload[RuleId].s in From(log, m + 1, app)
        || (e.payload[RuleId].s in vs && vs[e.payload[RuleId].s] == EventVerdict(e))
  {
    var e := log[m];
    var on := OnStream(ComplianceStream(app));
    FromSplits(log, m, m + 1, app);
    assert log[m..m + 1] == [e] && [] + [e] == [e];
    FilterSnoc([], e, on);
    FoldSnoc(Apply, map[], [], e);
    MergeAssociates(vs, StreamVerdicts([e], app), From(log, m + 1, app));
    if on(e) && IsVerdict(e) && IsName(Get(e.payload, RuleId)) {
      assert StreamVerdicts([e], app) == map[e.payload[RuleId].s := EventVerdict(e)];
      OneVerdictMerges(vs, e.payload[RuleId].s, EventVerdict(e), From(log, m + 1, app));
    } else {
      assert StreamVerdicts([e], app) == map[];
      assert vs + map[] == vs;
    }
  }

  lemma OverridesWithin(vs: Verdicts, e: Verdicts, before: Verdicts, later: Verdicts, rest: Verdicts)
    requires rest == before + (e + later)
    ensures vs + e + rest == vs + rest
  {
  }

  /** The verdicts of an event upserted again are overridden by the deliveries that include it. */
  lemma UpsertWithin(log: seq<StoredEvent>, n: nat, m: nat, v: View, app: string)
    requires n <= m < |log| && RoutedEvent(log[m]) && !Raises(log[m]) && Covers(log, Named(RowsOf(v, app)), n, app)
    ensures Covers(log, Named(RowsOf(Upsert(v, log[m]), app)), n, app)
  {
    UpsertMerges(v, log[m], app);
    FromSplits(log, n, m, app);
    FromSplits(log, m, m + 1, app);
    assert log[m..m + 1] == [log[m]];
    OverridesWithin(Named(RowsOf(v, app)), StreamVerdicts([log[m]], app), StreamVerdicts(log[n..m], app),
                    From(log, m + 1, app), From(log, n, app));
  }

  lemma OverridesTwice(vs: Verdicts, e: Verdicts, later: Verdicts)
    ensures vs + e + (e + later) == vs + (e + later)
  {
  }

  /** An upsert to be done again is overridden by the second one. */
  lemma AgainOverrides(log: seq<StoredEvent>, n: nat, v: View, app: string)
    requires n < |log| && RoutedEvent(log[n]) && !Raises(log[n])
    ensures Named(RowsOf(Upsert(v, log[n]), app)) + From(log, n, app) == Named(RowsOf(v, app)) + From(log, n, app)
  {
    var e, later := StreamVerdicts([log[n]], app), From(log, n + 1, app);
    UpsertMerges(v, log[n], app);
    FromSplits(log, n, n + 1, app);
    assert log[n..n + 1] == [log[n]];
    OverridesTwice(Named(RowsOf(v, app)), e, later);
  }

  /** Whether every rule with a verdict among the first n events has another one behind them, or the table
      says what the last one of them says. */
  predicate NothingMissing(log: seq<StoredEvent>, vs: Verdicts, n: nat, app: string)
  {
    && n <= |log|
    && var seen := StreamVerdicts(log[..n], app);
       forall rule | rule in seen :: rule in From(log, n, app) || (rule in vs && vs[rule] == seen[rule])
  }

  lemma MissingExactly(vs: Verdicts, seen: Verdicts, later: Verdicts)
    requires forall rule | rule in vs :: rule in seen || rule in later
    ensures vs + later == seen + later <==>
      forall rule | rule in seen :: rule in later || (rule in vs && vs[rule] == seen[rule])
  {
    if vs + later == seen + later {
      forall rule | rule in seen ensures rule in later || (rule in vs && vs[rule] == seen[rule]) {
        assert (vs + later)[rule] == (seen + later)[rule];
        assert rule in vs + later;
      }
    }
  }

  lemma NothingMissingCovers(log: seq<StoredEvent>, vs: Verdicts, from: nat, n: nat, app: string)
    requires from <= |log| && Covers(log, vs, from, app) && n <= |log|
    ensures NothingMissing(log, vs, n, app) <==> Covers(log, vs, n, app)
  {
    FromSplits(log, 0, n, app);
    assert log[0..n] == log[..n];
    forall rule | rule in vs ensures rule in StreamVerdicts(log[..n], app) || rule in From(log, n, app) {
      assert rule in vs + From(log, from, app);
    }
    MissingExactly(vs, StreamVerdicts(log[..n], app), From(log, n, app));
  }
}
