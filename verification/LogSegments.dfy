/** Positions in the event log, and what the daemon's batch fetches and hands on as segments of the log. */
module LogSegments {
  import opened Events
  import opened Sequences
  import opened EventLog
  import opened Store
  import opened Daemon

  /** How many events lie below a position. */
  function Rank(log: seq<StoredEvent>, x: nat): (n: nat)
    ensures n <= |log|
  {
    if log == [] then 0
    else if log[|log| - 1].globalPosition < x then |log|
    else Rank(log[..|log| - 1], x)
  }

  lemma {:induction false} RankSplits(log: seq<StoredEvent>, x: nat)
    requires Ascending(log)
    ensures forall j | 0 <= j < |log| :: j < Rank(log, x) <==> log[j].globalPosition < x
  {
    if log != [] && log[|log| - 1].globalPosition >= x {
      RankSplits(log[..|log| - 1], x);
    }
  }

  lemma RankIs(log: seq<StoredEvent>, x: nat, n: nat)
    requires Ascending(log) && n <= |log|
    requires n > 0 ==> log[n - 1].globalPosition < x
    requires n < |log| ==> x <= log[n].globalPosition
    ensures Rank(log, x) == n
  {
    RankSplits(log, x);
  }

  /** The events at or past a position are a suffix of the log. */
  lemma {:induction false} MatchingIsSuffix(log: seq<StoredEvent>, x: nat)
    requires Ascending(log)
    ensures Matching(log, x, []) == log[Rank(log, x)..]
  {
    if log != [] {
      var front, last := log[..|log| - 1], log[|log| - 1];
      MatchingIsSuffix(front, x);
      RankSplits(log, x);
      if last.globalPosition < x {
        FilterNone(log, Wanted(x, []));
      } else {
        assert log[Rank(log, x)..] == front[Rank(front, x)..] + [last];
      }
    }
  }

  lemma FetchedIsSegment(log: seq<StoredEvent>, min: nat)
    requires Ascending(log)
    ensures var m := Rank(log, min);
      var hi := if |log| - m <= EVENTS_PER_BATCH then |log| else m + EVENTS_PER_BATCH;
      Fetched(log, min) == log[m..hi]
  {
    MatchingIsSuffix(log, min);
  }

  /** A batch loads the first thousand events from its position on: all of them if there are no more. */
  lemma BatchLoadsFirstThousand(log: seq<StoredEvent>, min: nat)
    requires Ascending(log)
    ensures exists m: nat, hi: nat ::
      && m <= hi <= |log| && Fetched(log, min) == log[m..hi]
      && (forall j | 0 <= j < |log| :: j < m <==> log[j].globalPosition < min)
      && hi - m <= 1000 && (hi < |log| ==> hi - m == 1000)
  {
    var m := Rank(log, min);
    FetchedIsSegment(log, min);
    RankSplits(log, min);
    var hi := if |log| - m <= 1000 then |log| else m + 1000;
    assert Fetched(log, min) == log[m..hi];
  }

  lemma SegmentAscends(log: seq<StoredEvent>, m: nat, hi: nat)
    requires Ascending(log) && m <= hi <= |log|
    ensures Ascending(log[m..hi])
  {
  }

  lemma RankInSegment(log: seq<StoredEvent>, m: nat, hi: nat, checkpoint: nat)
    requires Ascending(log) && m <= hi <= |log| && m <= Rank(log, checkpoint + 1)
    ensures var n := Rank(log, checkpoint + 1);
      Rank(log[m..hi], NextPosition(checkpoint)) == if n < hi then n - m else hi - m
  {
    var n := Rank(log, checkpoint + 1);
    var events := log[m..hi];
    var k := if n < hi then n - m else hi - m;
    RankSplits(log, checkpoint + 1);
    SegmentAscends(log, m, hi);
    assert k > 0 ==> events[k - 1] == log[m + k - 1] && events[k - 1].globalPosition >= 1;
    assert k < |events| ==> events[k] == log[m + k];
    RankIs(events, NextPosition(checkpoint), k);
  }

  lemma DropOfSegment(log: seq<StoredEvent>, m: nat, hi: nat, n: nat)
    requires m <= hi <= |log| && m <= n
    ensures log[m..hi][(if n < hi then n - m else hi - m)..] == if n < hi then log[n..hi] else []
  {
  }

  lemma RelevantOfSegment(log: seq<StoredEvent>, m: nat, hi: nat, checkpoint: nat)
    requires Ascending(log) && m <= hi <= |log| && m <= Rank(log, checkpoint + 1)
    ensures var n := Rank(log, checkpoint + 1);
      Relevant(log[m..hi], checkpoint) == if n < hi then log[n..hi] else []
  {
    RankInSegment(log, m, hi, checkpoint);
    SegmentAscends(log, m, hi);
    MatchingIsSuffix(log[m..hi], NextPosition(checkpoint));
    DropOfSegment(log, m, hi, Rank(log, checkpoint + 1));
  }

  /** What a batch loads for one projection is the run of events that starts right past its checkpoint. */
  lemma LoadIsSegment(log: seq<StoredEvent>, min: nat, checkpoint: nat)
    requires Ascending(log) && min <= NextPosition(checkpoint)
    ensures var n := Rank(log, checkpoint + 1);
      var pending := Relevant(Fetched(log, min), checkpoint);
      n + |pending| <= |log| && pending == log[n..n + |pending|]
  {
    var m := Rank(log, min);
    FetchedIsSegment(log, min);
    RankOrder(log, min, checkpoint + 1);
    RelevantOfSegment(log, m, if |log| - m <= EVENTS_PER_BATCH then |log| else m + EVENTS_PER_BATCH, checkpoint);
  }

  lemma RankOrder(log: seq<StoredEvent>, x: nat, y: nat)
    requires Ascending(log) && x <= y
    ensures Rank(log, x) <= Rank(log, y)
  {
    RankSplits(log, x);
    RankSplits(log, y);
    if Rank(log, y) < |log| {
      assert log[Rank(log, y)].globalPosition >= y;
    }
  }

  lemma RankGrows(log: seq<StoredEvent>, log': seq<StoredEvent>, n: nat)
    requires Ascending(log') && log <= log' && n < |log|
    ensures Rank(log', log[n].globalPosition) == Rank(log, log[n].globalPosition) == n
  {
    assert Ascending(log);
    assert log'[n] == log[n];
    RankIs(log, log[n].globalPosition, n);
    RankIs(log', log[n].globalPosition, n);
  }

  lemma PrefixOfGrown(log: seq<StoredEvent>, log': seq<StoredEvent>, n: nat)
    requires log <= log' && n <= |log|
    ensures log'[..n] == log[..n]
  {
  }

  lemma RankOfZero(log: seq<StoredEvent>)
    requires Ascending(log)
    ensures Rank(log, 1) == 0
  {
    RankIs(log, 1, 0);
  }

  lemma RankAfterLast(log: seq<StoredEvent>, hi: nat)
    requires Ascending(log) && 0 < hi <= |log|
    ensures Rank(log, log[hi - 1].globalPosition + 1) == hi
  {
    RankIs(log, log[hi - 1].globalPosition + 1, hi);
  }

  lemma NextRank(log: seq<StoredEvent>, checkpoint: nat)
    requires Ascending(log)
    ensures Rank(log, NextPosition(checkpoint)) == Rank(log, checkpoint + 1)
  {
    if checkpoint == 0 {
      RankIs(log, 0, 0);
      RankOfZero(log);
    }
  }

  lemma FetchedFromSlowest(log: seq<StoredEvent>, slowest: nat) returns (hi: nat)
    requires Ascending(log) && Rank(log, slowest + 1) < |log|
    ensures Rank(log, slowest + 1) < hi <= |log|
    ensures Fetched(log, NextPosition(slowest)) == log[Rank(log, slowest + 1)..hi]
  {
    var r := Rank(log, slowest + 1);
    hi := if |log| - r <= EVENTS_PER_BATCH then |log| else r + EVENTS_PER_BATCH;
    NextRank(log, slowest);
    FetchedIsSegment(log, NextPosition(slowest));
  }
}
