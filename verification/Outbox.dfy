/** The outbox publisher: one batch as the code runs it, why a fixed outbox drains, and
    several publishers over the same table. */
module Outbox {
  import opened Events
  import opened Sequences
  import opened Store

  datatype OutboxRow = OutboxRow(
    id: string, destination: string, payload: Payload, publishedAt: Option<int>, attempts: nat)

  datatype Config = Config(enabled: bool, batchSize: nat, destination: string, maxAttempts: int, dryRun: bool)

  /** Whether publishing the row with this id succeeds at this attempt. */
  type Broker = (string, nat) -> bool

  predicate Eligible(cfg: Config, r: OutboxRow)
  {
    r.publishedAt.None? && r.destination == cfg.destination && r.attempts < cfg.maxAttempts
  }

  function Lockable(cfg: Config, locked: set<string>): OutboxRow -> bool
  {
    (r: OutboxRow) => Eligible(cfg, r) && r.id !in locked
  }

  /** SELECT ... ORDER BY created_at LIMIT ... FOR UPDATE SKIP LOCKED, over rows in creation order. */
  function Selected(cfg: Config, rows: seq<OutboxRow>, locked: set<string>): seq<OutboxRow>
  {
    Take(Filter(rows, Lockable(cfg, locked)), cfg.batchSize)
  }

  /** UPDATE ... WHERE published_at IS NULL after one publish call. */
  function Attempted(r: OutboxRow, ok: bool, dryRun: bool, now: int): (a: OutboxRow)
    ensures a.id == r.id && a.destination == r.destination && a.payload == r.payload
  {
    if r.publishedAt.Some? then r
    else r.(attempts := r.attempts + 1, publishedAt := if ok && !dryRun then Some(now) else None)
  }

  function IdsOf(rows: seq<OutboxRow>): set<string>
  {
    set r | r in rows :: r.id
  }

  function RowAfter(cfg: Config, chosen: set<string>, broker: Broker, now: int, r: OutboxRow): (a: OutboxRow)
    ensures a.id == r.id
  {
    if r.id in chosen then Attempted(r, broker(r.id, r.attempts), cfg.dryRun, now) else r
  }

  function AfterRow(cfg: Config, chosen: set<string>, broker: Broker, now: int): OutboxRow -> OutboxRow
  {
    (r: OutboxRow) => RowAfter(cfg, chosen, broker, now, r)
  }

  /** The committed table after one batch. */
  function AfterBatch(cfg: Config, rows: seq<OutboxRow>, locked: set<string>, broker: Broker, now: int): seq<OutboxRow>
  {
    if !cfg.enabled then rows else Map(AfterRow(cfg, IdsOf(Selected(cfg, rows, locked)), broker, now), rows)
  }

  ghost predicate DistinctIds(rows: seq<OutboxRow>)
  {
    forall i, j | 0 <= i < j < |rows| :: rows[i].id != rows[j].id
  }

  class OutboxTable {
    var rows: seq<OutboxRow>

    constructor (rows: seq<OutboxRow>)
      ensures this.rows == rows
    {
      this.rows := rows;
    }

    /** UPDATE outbox ... WHERE id = ... AND published_at IS NULL. */
    method RecordAttempt(id: string, ok: bool, dryRun: bool, now: int)
      modifies this
      ensures rows == Map(Touch(id, ok, dryRun, now), old(rows))
    {
      rows := Map(Touch(id, ok, dryRun, now), rows);
    }
  }

  function Touch(id: string, ok: bool, dryRun: bool, now: int): OutboxRow -> OutboxRow
  {
    (r: OutboxRow) => if r.id == id then Attempted(r, ok, dryRun, now) else r
  }

  lemma TouchNext(cfg: Config, rows: seq<OutboxRow>, current: seq<OutboxRow>, done: seq<OutboxRow>, r: OutboxRow,
                  broker: Broker, now: int)
    requires DistinctIds(rows) && r in rows && r.id !in IdsOf(done)
    requires current == Map(AfterRow(cfg, IdsOf(done), broker, now), rows)
    ensures Map(Touch(r.id, broker(r.id, r.attempts), cfg.dryRun, now), current) ==
      Map(AfterRow(cfg, IdsOf(done + [r]), broker, now), rows)
  {
    assert IdsOf(done + [r]) == IdsOf(done) + {r.id};
    forall i | 0 <= i < |rows|
      ensures Touch(r.id, broker(r.id, r.attempts), cfg.dryRun, now)(current[i]) ==
        AfterRow(cfg, IdsOf(done + [r]), broker, now)(rows[i])
    {
      assert current[i] == AfterRow(cfg, IdsOf(done), broker, now)(rows[i]);
      if rows[i].id == r.id {
        var k :| 0 <= k < |rows| && rows[k] == r;
        assert rows[i] == r;
      } else {
        assert current[i].id == rows[i].id;
      }
    }
  }

  lemma {:induction false} FilterKeepsDistinct(rows: seq<OutboxRow>, keep: OutboxRow -> bool)
    requires DistinctIds(rows)
    ensures DistinctIds(Filter(rows, keep))
  {
    if rows != [] {
      var front, last := rows[..|rows| - 1], rows[|rows| - 1];
      FilterKeepsDistinct(front, keep);
      FilterMembers(front, keep);
      var kept := Filter(front, keep);
      forall i | 0 <= i < |kept| ensures kept[i].id != last.id {
        assert kept[i] in kept;
        var k :| 0 <= k < |front| && front[k] == kept[i];
        assert rows[k].id != rows[|rows| - 1].id;
      }
    }
  }

  lemma SelectedAreDistinctRows(cfg: Config, rows: seq<OutboxRow>, locked: set<string>)
    requires DistinctIds(rows)
    ensures DistinctIds(Selected(cfg, rows, locked))
    ensures forall r | r in Selected(cfg, rows, locked) :: r in rows && Eligible(cfg, r) && r.id !in locked
  {
    FilterKeepsDistinct(rows, Lockable(cfg, locked));
    FilterMembers(rows, Lockable(cfg, locked));
    forall r | r in Selected(cfg, rows, locked) ensures r in rows && Eligible(cfg, r) && r.id !in locked {
      assert r in Filter(rows, Lockable(cfg, locked));
    }
  }

  // ---- which rows a batch sends, and what becomes of them ----

  /** Unpublished, for this destination, not used up, and not held by another publisher. */
  predicate Open(cfg: Config, locked: set<string>, r: OutboxRow)
  {
    r.publishedAt == None && r.destination == cfg.destination && r.attempts < cfg.maxAttempts && r.id !in locked
  }

  /** As many open rows as the batch takes, in table order, and none left behind that is older than one sent. */
  ghost predicate OldestFirst(cfg: Config, rows: seq<OutboxRow>, locked: set<string>, sent: seq<OutboxRow>)
  {
    && |sent| <= cfg.batchSize
    && (|sent| < cfg.batchSize ==> forall r | r in rows && Open(cfg, locked, r) :: r in sent)
    && (forall r | r in sent :: r in rows && Open(cfg, locked, r))
    && (forall i, j, a, b | 0 <= i < j < |sent| && 0 <= a < |rows| && 0 <= b < |rows|
          && rows[a] == sent[i] && rows[b] == sent[j] :: a < b)
    && (forall a, b | 0 <= a < b < |rows| && Open(cfg, locked, rows[a]) && rows[b] in sent :: rows[a] in sent)
  }

  /** Each row sent has one attempt more, and is published exactly if the broker took it and this was no dry
      run; every other row is as it was. */
  ghost predicate Recorded(cfg: Config, before: seq<OutboxRow>, after: seq<OutboxRow>, sent: seq<OutboxRow>,
                           broker: Broker, now: int)
  {
    && |after| == |before|
    && forall i | 0 <= i < |before| ::
         var r := before[i];
         after[i] ==
           if r !in sent then r
           else OutboxRow(r.id, r.destination, r.payload,
                          if broker(r.id, r.attempts) && !cfg.dryRun then Some(now) else None, r.attempts + 1)
  }

  lemma {:induction false} FilterInOrder(rows: seq<OutboxRow>, keep: OutboxRow -> bool, i: nat, j: nat, a: nat, b: nat)
    requires DistinctIds(rows) && i < j < |Filter(rows, keep)| && a < |rows| && b < |rows|
    requires rows[a] == Filter(rows, keep)[i] && rows[b] == Filter(rows, keep)[j]
    ensures a < b
  {
    var front, last := rows[..|rows| - 1], rows[|rows| - 1];
    var kept := Filter(front, keep);
    FilterMembers(front, keep);
    assert kept[i] in kept;
    var k :| 0 <= k < |front| && front[k] == kept[i];
    assert rows[k] == rows[a];
    if j < |kept| {
      assert kept[j] in kept;
      var l :| 0 <= l < |front| && front[l] == kept[j];
      assert rows[l] == rows[b];
      FilterInOrder(front, keep, i, j, a, b);
    }
  }

  lemma NoneOlderLeft(cfg: Config, rows: seq<OutboxRow>, locked: set<string>, a: nat, b: nat)
    requires DistinctIds(rows) && a < b < |rows| && Open(cfg, locked, rows[a])
    requires rows[b] in Selected(cfg, rows, locked)
    ensures rows[a] in Selected(cfg, rows, locked)
  {
    var found, sent := Filter(rows, Lockable(cfg, locked)), Selected(cfg, rows, locked);
    FilterMembers(rows, Lockable(cfg, locked));
    assert Lockable(cfg, locked)(rows[a]) && rows[a] in found;
    var i :| 0 <= i < |found| && found[i] == rows[a];
    var j :| 0 <= j < |sent| && sent[j] == rows[b];
    if j < i {
      FilterInOrder(rows, Lockable(cfg, locked), j, i, b, a);
    }
    assert sent[i] == rows[a];
  }

  lemma SelectedOldestFirst(cfg: Config, rows: seq<OutboxRow>, locked: set<string>)
    requires DistinctIds(rows)
    ensures OldestFirst(cfg, rows, locked, Selected(cfg, rows, locked))
  {
    var found, sent := Filter(rows, Lockable(cfg, locked)), Selected(cfg, rows, locked);
    FilterMembers(rows, Lockable(cfg, locked));
    forall r | r in sent ensures r in rows && Open(cfg, locked, r) {
      assert r in found;
    }
    forall i, j, a, b | 0 <= i < j < |sent| && 0 <= a < |rows| && 0 <= b < |rows|
      && rows[a] == sent[i] && rows[b] == sent[j]
      ensures a < b
    {
      FilterInOrder(rows, Lockable(cfg, locked), i, j, a, b);
    }
    forall a, b | 0 <= a < b < |rows| && Open(cfg, locked, rows[a]) && rows[b] in sent ensures rows[a] in sent {
      NoneOlderLeft(cfg, rows, locked, a, b);
    }
  }

  lemma BatchRecords(cfg: Config, rows: seq<OutboxRow>, locked: set<string>, broker: Broker, now: int)
    requires DistinctIds(rows)
    ensures Recorded(cfg, rows, AfterBatch(cfg, rows, locked, broker, now),
                     if cfg.enabled then Selected(cfg, rows, locked) else [], broker, now)
  {
    var sent := Selected(cfg, rows, locked);
    SelectedAreDistinctRows(cfg, rows, locked);
    forall i | 0 <= i < |rows| ensures rows[i].id in IdsOf(sent) <==> rows[i] in sent {
      if rows[i].id in IdsOf(sent) {
        var r :| r in sent && r.id == rows[i].id;
        var k :| 0 <= k < |rows| && rows[k] == r;
      }
    }
  }

  /** The oldest open row goes out first in every batch that is not empty. */
  lemma OldestGoesOut(cfg: Config, rows: seq<OutboxRow>, locked: set<string>, sent: seq<OutboxRow>, k: nat)
    requires OldestFirst(cfg, rows, locked, sent) && cfg.batchSize > 0
    requires k < |rows| && Open(cfg, locked, rows[k]) && forall a | 0 <= a < k :: !Open(cfg, locked, rows[a])
    ensures |sent| > 0 && sent[0] == rows[k]
  {
    assert rows[k] in rows;
    assert sent[0] in sent;
    var b :| 0 <= b < |rows| && rows[b] == sent[0];
    if k < b {
      assert rows[k] in sent;
      var i :| 0 <= i < |sent| && sent[i] == rows[k];
    }
  }

  /** The i-th update of a batch. */
  lemma NextUpdate(cfg: Config, rows: seq<OutboxRow>, current: seq<OutboxRow>, chosen: seq<OutboxRow>, i: nat,
                   broker: Broker, now: int)
    requires DistinctIds(rows) && DistinctIds(chosen) && i < |chosen| && forall r | r in chosen :: r in rows
    requires current == Map(AfterRow(cfg, IdsOf(chosen[..i]), broker, now), rows)
    ensures var r := chosen[i];
      Map(Touch(r.id, broker(r.id, r.attempts), cfg.dryRun, now), current) ==
      Map(AfterRow(cfg, IdsOf(chosen[..i + 1]), broker, now), rows)
  {
    assert chosen[..i + 1] == chosen[..i] + [chosen[i]];
    TouchNext(cfg, rows, current, chosen[..i], chosen[i], broker, now);
  }

  function Accepted(broker: Broker): OutboxRow -> bool
  {
    (r: OutboxRow) => broker(r.id, r.attempts)
  }

  class OutboxPublisherDaemon {
    const cfg: Config
    var processedCount: nat
    var failedCount: nat

    constructor (cfg: Config)
      ensures this.cfg == cfg && processedCount == 0 && failedCount == 0
    {
      this.cfg := cfg;
      processedCount, failedCount := 0, 0;
    }

    /** One publish call and the update that follows it. */
    method PublishRow(table: OutboxTable, r: OutboxRow, broker: Broker, now: int)
      modifies this, table
      ensures table.rows == Map(Touch(r.id, broker(r.id, r.attempts), cfg.dryRun, now), old(table.rows))
      ensures processedCount == old(processedCount) + if broker(r.id, r.attempts) then 1 else 0
      ensures failedCount == old(failedCount) + if broker(r.id, r.attempts) then 0 else 1
    {
      var ok := broker(r.id, r.attempts);
      table.RecordAttempt(r.id, ok, cfg.dryRun, now);
      if ok {
        processedCount := processedCount + 1;
      } else {
        failedCount := failedCount + 1;
      }
    }

    /** The loop over the locked rows. */
    method PublishRows(table: OutboxTable, rows: seq<OutboxRow>, broker: Broker, now: int)
      requires DistinctIds(table.rows) && DistinctIds(rows) && forall r | r in rows :: r in table.rows
      modifies this, table
      ensures table.rows == Map(AfterRow(cfg, IdsOf(rows), broker, now), old(table.rows))
      ensures processedCount == old(processedCount) + |Filter(rows, Accepted(broker))|
      ensures failedCount == old(failedCount) + |rows| - |Filter(rows, Accepted(broker))|
    {
      ghost var before := table.rows;
      for i := 0 to |rows|
        invariant table.rows == Map(AfterRow(cfg, IdsOf(rows[..i]), broker, now), before)
        invariant processedCount == old(processedCount) + |Filter(rows[..i], Accepted(broker))|
        invariant failedCount == old(failedCount) + i - |Filter(rows[..i], Accepted(broker))|
      {
        NextUpdate(cfg, before, table.rows, rows, i, broker, now);
        assert rows[..i + 1] == rows[..i] + [rows[i]];
        FilterSnoc(rows[..i], rows[i], Accepted(broker));
        PublishRow(table, rows[i], broker, now);
      }
      assert rows[..|rows|] == rows;
    }

    /** One batch that commits. locked are the rows other publishers hold; sent lists the publish calls in order. */
    method ProcessBatch(table: OutboxTable, locked: set<string>, broker: Broker,
                        now: int) returns (sent: seq<OutboxRow>)
      requires DistinctIds(table.rows)
      modifies this, table
      ensures table.rows == AfterBatch(cfg, old(table.rows), locked, broker, now)
      ensures sent == if cfg.enabled then Selected(cfg, old(table.rows), locked) else []
      ensures if cfg.enabled then OldestFirst(cfg, old(table.rows), locked, sent) else sent == []
      ensures Recorded(cfg, old(table.rows), table.rows, sent, broker, now)
      ensures processedCount == old(processedCount) + |Filter(sent, Accepted(broker))|
      ensures failedCount == old(failedCount) + |sent| - |Filter(sent, Accepted(broker))|
    {
      sent := [];
      BatchRecords(cfg, table.rows, locked, broker, now);
      if cfg.enabled {
        SelectedOldestFirst(cfg, table.rows, locked);
        sent := Selected(cfg, table.rows, locked);
        SelectedAreDistinctRows(cfg, table.rows, locked);
        PublishRows(table, sent, broker, now);
      }
    }
  }

  // ---- draining ----

  /** The publish calls a row may still cost. */
  function Work(cfg: Config, r: OutboxRow): nat
  {
    if Eligible(cfg, r) then cfg.maxAttempts - r.attempts else 0
  }

  function TotalWork(cfg: Config, rows: seq<OutboxRow>): nat
  {
    if rows == [] then 0 else TotalWork(cfg, rows[..|rows| - 1]) + Work(cfg, rows[|rows| - 1])
  }

  predicate Settled(cfg: Config, rows: seq<OutboxRow>)
  {
    forall r | r in rows && r.destination == cfg.destination :: r.publishedAt.Some? || r.attempts >= cfg.maxAttempts
  }

  /** A batch finds nothing exactly when every row for the destination is published or exhausted. */
  lemma EmptyBatchMeansSettled(cfg: Config, rows: seq<OutboxRow>)
    requires cfg.batchSize > 0
    ensures Selected(cfg, rows, {}) == [] <==> Settled(cfg, rows)
  {
    FilterMembers(rows, Lockable(cfg, {}));
    var found := Filter(rows, Lockable(cfg, {}));
    if found != [] {
      assert found[0] in found;
    } else {
      forall r | r in rows && r.destination == cfg.destination
        ensures r.publishedAt.Some? || r.attempts >= cfg.maxAttempts
      {
        assert r !in found;
      }
    }
  }

  lemma AttemptShrinksWork(cfg: Config, r: OutboxRow, ok: bool, now: int)
    ensures Work(cfg, Attempted(r, ok, cfg.dryRun, now)) <= Work(cfg, r)
    ensures Eligible(cfg, r) ==> Work(cfg, Attempted(r, ok, cfg.dryRun, now)) < Work(cfg, r)
  {
  }

  lemma {:induction false} AttemptsShrinkWork(cfg: Config, rows: seq<OutboxRow>, chosen: set<string>, broker: Broker,
                                              now: int)
    ensures TotalWork(cfg, Map(AfterRow(cfg, chosen, broker, now), rows)) <= TotalWork(cfg, rows)
    ensures (exists r :: r in rows && r.id in chosen && Eligible(cfg, r)) ==>
      TotalWork(cfg, Map(AfterRow(cfg, chosen, broker, now), rows)) < TotalWork(cfg, rows)
  {
    if rows != [] {
      var front, last := rows[..|rows| - 1], rows[|rows| - 1];
      var f := AfterRow(cfg, chosen, broker, now);
      AttemptsShrinkWork(cfg, front, chosen, broker, now);
      assert rows == front + [last];
      assert Map(f, rows)[..|rows| - 1] == Map(f, front);
      AttemptShrinksWork(cfg, last, broker(last.id, last.attempts), now);
      assert Map(f, rows)[|rows| - 1] == f(last);
    }
  }

  /** Every batch that finds rows leaves strictly less work, whatever the broker does with each of them. */
  lemma BatchShrinksWork(cfg: Config, rows: seq<OutboxRow>, locked: set<string>, broker: Broker, now: int)
    requires cfg.enabled && Selected(cfg, rows, locked) != []
    ensures TotalWork(cfg, AfterBatch(cfg, rows, locked, broker, now)) < TotalWork(cfg, rows)
  {
    var rs := Selected(cfg, rows, locked);
    FilterMembers(rows, Lockable(cfg, locked));
    assert rs[0] in Filter(rows, Lockable(cfg, locked)) && rs[0].id in IdsOf(rs);
    AttemptsShrinkWork(cfg, rows, IdsOf(rs), broker, now);
  }

  function Batches(cfg: Config, rows: seq<OutboxRow>, brokers: seq<Broker>, now: int): seq<OutboxRow>
  {
    if brokers == [] then rows
    else AfterBatch(cfg, Batches(cfg, rows, brokers[..|brokers| - 1], now), {}, brokers[|brokers| - 1], now)
  }

  lemma SettledStays(cfg: Config, rows: seq<OutboxRow>, broker: Broker, now: int)
    requires cfg.batchSize > 0 && Settled(cfg, rows)
    ensures AfterBatch(cfg, rows, {}, broker, now) == rows
  {
    EmptyBatchMeansSettled(cfg, rows);
  }

  /** A fixed outbox drains: within as many batches as there is work, whatever succeeds or fails, every row for the
      destination is published or has used up its attempts. */
  lemma {:induction false} OutboxDrains(cfg: Config, rows: seq<OutboxRow>, brokers: seq<Broker>, now: int)
    requires cfg.enabled && cfg.batchSize > 0
    ensures TotalWork(cfg, Batches(cfg, rows, brokers, now)) + |brokers| <= TotalWork(cfg, rows)
      || Settled(cfg, Batches(cfg, rows, brokers, now))
    ensures |brokers| > TotalWork(cfg, rows) ==> Settled(cfg, Batches(cfg, rows, brokers, now))
  {
    if brokers != [] {
      var front, last := brokers[..|brokers| - 1], brokers[|brokers| - 1];
      OutboxDrains(cfg, rows, front, now);
      var before := Batches(cfg, rows, front, now);
      EmptyBatchMeansSettled(cfg, before);
      if Settled(cfg, before) {
        SettledStays(cfg, before, last, now);
      } else {
        BatchShrinksWork(cfg, before, {}, last, now);
      }
    }
  }

  // ---- several publishers ----

  /** A row as one publisher's open transaction sees it, and whether that transaction has published it yet. */
  datatype InTx = InTx(publisher: nat, work: OutboxRow, tried: bool, succeeded: bool)

  /** A row: what is committed, who holds its lock, and how many publish calls and real
      successes of it were rolled back. */
  datatype Cell = Cell(committed: OutboxRow, tx: Option<InTx>, lostCalls: nat, lostSuccesses: nat)

  /** One publish call, as the broker saw it. */
  datatype Sent = Sent(id: string, ok: bool, dryRun: bool)

  datatype Shared = Shared(cells: map<string, Cell>, sent: seq<Sent>)

  datatype Step =
    | Lock(publisher: nat, cfg: Config, ids: set<string>)
    | Publish(publisher: nat, id: string, ok: bool, dryRun: bool, now: int)
    | Commit(publisher: nat)
    | Rollback(publisher: nat)

  predicate Holds(c: Cell, publisher: nat)
  {
    c.tx.Some? && c.tx.value.publisher == publisher
  }

  predicate CanPublish(s: Shared, publisher: nat, id: string)
  {
    id in s.cells && Holds(s.cells[id], publisher) && !s.cells[id].tx.value.tried
  }

  /** A disabled publisher selects nothing, and one batch locks at most its size. */
  predicate CanLock(cfg: Config, ids: set<string>)
  {
    cfg.enabled && |ids| <= cfg.batchSize
  }

  /** What a step does to one row. */
  function CellAfter(s: Shared, id: string, step: Step): Cell
    requires id in s.cells
  {
    var c := s.cells[id];
    match step
    case Lock(d, cfg, ids) =>
      if id in ids && CanLock(cfg, ids) && c.tx.None? && Eligible(cfg, c.committed)
      then c.(tx := Some(InTx(d, c.committed, false, false))) else c
    case Publish(d, target, ok, dry, now) =>
      if id == target && CanPublish(s, d, id)
      then c.(tx := Some(InTx(d, Attempted(c.tx.value.work, ok, dry, now), true, ok && !dry))) else c
    case Commit(d) => if Holds(c, d) then c.(committed := c.tx.value.work, tx := None) else c
    case Rollback(d) =>
      if Holds(c, d)
      then c.(tx := None, lostCalls := c.lostCalls + (if c.tx.value.tried then 1 else 0),
              lostSuccesses := c.lostSuccesses + (if c.tx.value.succeeded then 1 else 0))
      else c
  }

  function Do(s: Shared, step: Step): Shared
  {
    Shared(map id | id in s.cells :: CellAfter(s, id, step),
           if step.Publish? && CanPublish(s, step.publisher, step.id)
           then s.sent + [Sent(step.id, step.ok, step.dryRun)] else s.sent)
  }

  function Run(s: Shared, steps: seq<Step>): Shared
  {
    if steps == [] then s else Do(Run(s, steps[..|steps| - 1]), steps[|steps| - 1])
  }

  function Fresh(rows: map<string, OutboxRow>): Shared
  {
    Shared(map id | id in rows :: Cell(rows[id], None, 0, 0), [])
  }

  function Of(id: string): Sent -> bool
  {
    (x: Sent) => x.id == id
  }

  function ReallyPublished(id: string): Sent -> bool
  {
    (x: Sent) => x.id == id && x.ok && !x.dryRun
  }

  function Calls(s: Shared, id: string): nat { |Filter(s.sent, Of(id))| }
  function Successes(s: Shared, id: string): nat { |Filter(s.sent, ReallyPublished(id))| }

  /** The row as its lock holder sees it, or as committed. */
  function Current(c: Cell): OutboxRow
  {
    if c.tx.Some? then c.tx.value.work else c.committed
  }

  function One(b: bool): nat { if b then 1 else 0 }

  /** Accounting of one row: every publish call is in its attempt counter or was rolled back, and every
      real success is its publication or was rolled back. */
  predicate Accounted(c: Cell, initial: OutboxRow, calls: nat, successes: nat)
  {
    && calls + initial.attempts == Current(c).attempts + c.lostCalls
    && successes + One(initial.publishedAt.Some?) == One(Current(c).publishedAt.Some?) + c.lostSuccesses
    && (c.tx.Some? ==>
          && c.committed.publishedAt.None?
          && (!c.tx.value.tried ==> c.tx.value.work == c.committed && !c.tx.value.succeeded)
          && (c.tx.value.tried ==> c.tx.value.work.attempts == c.committed.attempts + 1)
          && c.tx.value.succeeded == c.tx.value.work.publishedAt.Some?)
  }

  ghost predicate Balanced(s: Shared, initial: map<string, OutboxRow>, id: string)
    requires id in initial && id in s.cells
  {
    Accounted(s.cells[id], initial[id], Calls(s, id), Successes(s, id))
  }

  lemma SentGrows(s: Shared, id: string, step: Step)
    ensures var sends := step.Publish? && step.id == id && CanPublish(s, step.publisher, id);
      && Calls(Do(s, step), id) == Calls(s, id) + One(sends)
      && Successes(Do(s, step), id) == Successes(s, id) + One(sends && step.ok && !step.dryRun)
  {
    if step.Publish? && CanPublish(s, step.publisher, step.id) {
      var x := Sent(step.id, step.ok, step.dryRun);
      FilterSnoc(s.sent, x, Of(id));
      FilterSnoc(s.sent, x, ReallyPublished(id));
    }
  }

  lemma StepKeepsBalance(s: Shared, initial: map<string, OutboxRow>, id: string, step: Step)
    requires id in initial && id in s.cells && Balanced(s, initial, id)
    ensures id in Do(s, step).cells && Balanced(Do(s, step), initial, id)
  {
    SentGrows(s, id, step);
  }

  /** Conservation over every run of any number of publishers with disjoint row locks, through commits,
      rollbacks and dry runs: calls and successes are all accounted for. */
  lemma {:induction false} PublishingBalances(rows: map<string, OutboxRow>, steps: seq<Step>, id: string)
    requires id in rows
    ensures id in Run(Fresh(rows), steps).cells && Balanced(Run(Fresh(rows), steps), rows, id)
  {
    if steps != [] {
      PublishingBalances(rows, steps[..|steps| - 1], id);
      StepKeepsBalance(Run(Fresh(rows), steps[..|steps| - 1]), rows, id, steps[|steps| - 1]);
    }
  }

  lemma {:induction false} NothingLostWithoutRollback(rows: map<string, OutboxRow>, steps: seq<Step>, id: string)
    requires id in rows && forall k | 0 <= k < |steps| :: !steps[k].Rollback?
    ensures var s := Run(Fresh(rows), steps);
      id in s.cells && s.cells[id].lostCalls == 0 && s.cells[id].lostSuccesses == 0
  {
    if steps != [] {
      NothingLostWithoutRollback(rows, steps[..|steps| - 1], id);
    }
  }

  /** No double publication: without rollbacks, no row is really published twice, one published
      before the run not at all, and its attempt counter rises by one per publish call. */
  lemma AtMostOncePublished(rows: map<string, OutboxRow>, steps: seq<Step>, id: string)
    requires id in rows && forall k | 0 <= k < |steps| :: !steps[k].Rollback?
    ensures var s := Run(Fresh(rows), steps);
      && id in s.cells
      && Successes(s, id) + One(rows[id].publishedAt.Some?) <= 1
      && Current(s.cells[id]).attempts == rows[id].attempts + Calls(s, id)
  {
    PublishingBalances(rows, steps, id);
    NothingLostWithoutRollback(rows, steps, id);
  }

  lemma RunSnoc(s: Shared, steps: seq<Step>, step: Step)
    ensures Run(s, steps + [step]) == Do(Run(s, steps), step)
  {
    assert (steps + [step])[..|steps|] == steps;
  }

  // ---- when a rollback publishes a row twice ----

  /** Publishers that all run with one configuration and do not roll back. */
  ghost predicate Suits(cfg: Config, steps: seq<Step>)
  {
    forall k | 0 <= k < |steps| ::
      && !steps[k].Rollback?
      && (steps[k].Lock? ==> steps[k].cfg == cfg)
      && (steps[k].Publish? ==> steps[k].dryRun == cfg.dryRun)
  }

  /** Publishers with this configuration can still publish the committed row for real. */
  predicate CanStillPublish(cfg: Config, r: OutboxRow)
  {
    cfg.enabled && cfg.batchSize > 0 && !cfg.dryRun && Eligible(cfg, r)
  }

  /** A free unpublished row which publishers with this configuration leave unpublished. */
  predicate Unreachable(cfg: Config, c: Cell)
  {
    && Current(c).publishedAt.None? && (c.tx.Some? ==> !c.tx.value.succeeded)
    && (cfg.dryRun || (c.tx.None? && !CanStillPublish(cfg, c.committed)))
    && c.committed.publishedAt.None?
  }

  lemma {:induction false} RunKeepsBalance(s: Shared, initial: map<string, OutboxRow>, id: string, steps: seq<Step>)
    requires id in initial && id in s.cells && Balanced(s, initial, id)
    ensures id in Run(s, steps).cells && Balanced(Run(s, steps), initial, id)
  {
    if steps != [] {
      RunKeepsBalance(s, initial, id, steps[..|steps| - 1]);
      StepKeepsBalance(Run(s, steps[..|steps| - 1]), initial, id, steps[|steps| - 1]);
    }
  }

  lemma {:induction false} LossesStay(s: Shared, id: string, cfg: Config, steps: seq<Step>)
    requires id in s.cells && Suits(cfg, steps)
    ensures id in Run(s, steps).cells && Run(s, steps).cells[id].lostSuccesses == s.cells[id].lostSuccesses
  {
    if steps != [] {
      LossesStay(s, id, cfg, steps[..|steps| - 1]);
    }
  }

  lemma {:induction false} UnreachableStays(s: Shared, id: string, cfg: Config, steps: seq<Step>)
    requires id in s.cells && Suits(cfg, steps) && Unreachable(cfg, s.cells[id])
    ensures id in Run(s, steps).cells && Unreachable(cfg, Run(s, steps).cells[id])
  {
    if steps != [] {
      UnreachableStays(s, id, cfg, steps[..|steps| - 1]);
    }
  }

  /** Locking a free row that can still be published and publishing it. */
  lemma PublishAgain(s: Shared, id: string, cfg: Config) returns (steps: seq<Step>)
    requires id in s.cells && s.cells[id].tx.None? && CanStillPublish(cfg, s.cells[id].committed)
    ensures Suits(cfg, steps) && Successes(Run(s, steps), id) == Successes(s, id) + 1
  {
    var lock, publish := Lock(0, cfg, {id}), Publish(0, id, true, false, 0);
    var locked := Do(s, lock);
    RunSnoc(s, [], lock);
    RunSnoc(s, [lock], publish);
    assert [] + [lock] == [lock] && [lock] + [publish] == [lock, publish];
    SentGrows(s, id, lock);
    assert CanPublish(locked, 0, id);
    SentGrows(locked, id, publish);
    steps := [lock, publish];
  }

  /** A rollback, exactly. As long as no real publication of the row was rolled back before, rolling back a publisher
      keeps the row published at most once, on every continuation without further rollbacks, if and only if its
      transaction has not really published the row or the publishers cannot publish it again. */
  lemma RollbackSafeExactly(rows: map<string, OutboxRow>, before: seq<Step>, id: string, publisher: nat, cfg: Config)
    requires id in rows && rows[id].publishedAt.None?
    requires id in Run(Fresh(rows), before).cells
    requires var s := Run(Fresh(rows), before); Successes(s, id) == One(Current(s.cells[id]).publishedAt.Some?)
    ensures var s := Run(Fresh(rows), before);
      var c := s.cells[id];
      (forall steps | Suits(cfg, steps) :: Successes(Run(Do(s, Rollback(publisher)), steps), id) <= 1) <==>
        !(Holds(c, publisher) && c.tx.value.succeeded && CanStillPublish(cfg, c.committed))
  {
    var s := Run(Fresh(rows), before);
    var c := s.cells[id];
    var s' := Do(s, Rollback(publisher));
    PublishingBalances(rows, before, id);
    StepKeepsBalance(s, rows, id, Rollback(publisher));
    if Holds(c, publisher) && c.tx.value.succeeded && CanStillPublish(cfg, c.committed) {
      var steps := PublishAgain(s', id, cfg);
      assert Successes(Run(s', steps), id) == 2;
    } else {
      forall steps | Suits(cfg, steps) ensures Successes(Run(s', steps), id) <= 1 {
        RunKeepsBalance(s', rows, id, steps);
        LossesStay(s', id, cfg, steps);
        if Holds(c, publisher) && c.tx.value.succeeded {
          UnreachableStays(s', id, cfg, steps);
        }
      }
    }
  }

  /** Locking a free eligible row, publishing it and rolling back: the row is free and unpublished again,
      but the broker has it. */
  lemma LockPublishRollback(s: Shared, r: OutboxRow, cfg: Config, now: int)
    requires s.cells.Keys == {r.id} && s.cells[r.id].committed == r && s.cells[r.id].tx.None?
    requires Eligible(cfg, r) && cfg.enabled && cfg.batchSize > 0
    ensures var steps := [Lock(0, cfg, {r.id}), Publish(0, r.id, true, false, now), Rollback(0)];
      var s' := Run(s, steps);
      && s'.cells.Keys == {r.id} && s'.cells[r.id].committed == r && s'.cells[r.id].tx.None?
      && s'.sent == s.sent + [Sent(r.id, true, false)]
  {
    var lock, publish := Lock(0, cfg, {r.id}), Publish(0, r.id, true, false, now);
    RunSnoc(s, [], lock);
    RunSnoc(s, [lock], publish);
    RunSnoc(s, [lock, publish], Rollback(0));
    assert [] + [lock] == [lock] && [lock] + [publish] == [lock, publish];
    assert [lock, publish] + [Rollback(0)] == [lock, publish, Rollback(0)];
    var s1 := Do(s, lock);
    assert s1.cells[r.id].tx == Some(InTx(0, r, false, false));
    var s2 := Do(s1, publish);
    assert s2.sent == s.sent + [Sent(r.id, true, false)];
    assert s2.cells[r.id].committed == r && Holds(s2.cells[r.id], 0);
  }

  lemma {:induction false} RunAppend(s: Shared, xs: seq<Step>, ys: seq<Step>)
    ensures Run(s, xs + ys) == Run(Run(s, xs), ys)
  {
    if ys == [] {
      assert xs + ys == xs;
    } else {
      assert xs + ys == (xs + ys[..|ys| - 1]) + [ys[|ys| - 1]];
      RunSnoc(s, xs + ys[..|ys| - 1], ys[|ys| - 1]);
      RunAppend(s, xs, ys[..|ys| - 1]);
    }
  }

  /** The publish inside the transaction is not undone by its rollback: the same row goes out twice. */
  lemma RollbackRepublishes(r: OutboxRow, cfg: Config, now: int) returns (steps: seq<Step>)
    requires Eligible(cfg, r) && cfg.enabled && cfg.batchSize > 0
    ensures Successes(Run(Fresh(map[r.id := r]), steps), r.id) == 2
  {
    var start := Fresh(map[r.id := r]);
    var once := [Lock(0, cfg, {r.id}), Publish(0, r.id, true, false, now), Rollback(0)];
    LockPublishRollback(start, r, cfg, now);
    LockPublishRollback(Run(start, once), r, cfg, now);
    RunAppend(start, once, once);
    steps := once + once;
    var x := Sent(r.id, true, false);
    assert Run(start, steps).sent == [x] + [x];
    FilterAll([x] + [x], ReallyPublished(r.id));
  }
}
