/** Hash-chained integrity checks: the incremental chain, the recorded links, and what a changed stream shows. */
module AuditChain {
  import opened Events
  import opened Sequences
  import opened EventLog
  import opened Upcasting
  import opened Store

  /** SHA-256 hex digests (section 6.2 of FIPS 180-4), the canonical JSON text of a payload, and int(). */
  datatype Hasher = Hasher(sha: string -> string, json: Payload -> string, toInt: Value -> Option<int>)

  /** A digest has 64 hexadecimal characters; int() of an integer is that integer. */
  ghost predicate Standard(h: Hasher)
  {
    (forall s :: |h.sha(s)| == 64) && (forall n :: h.toInt(Int(n)) == Some(n))
  }

  function EventHash(h: Hasher): StoredEvent -> string
  {
    (e: StoredEvent) => h.sha(h.json(e.payload))
  }

  function Hashes(h: Hasher, es: seq<StoredEvent>): seq<string>
  {
    Map(EventHash(h), es)
  }

  function Link(h: Hasher): (string, string) -> string
  {
    (prev: string, x: string) => h.sha(prev + x)
  }

  /** Every hash chained onto what came before it. */
  function Chain(h: Hasher, prev: string, hashes: seq<string>): string
  {
    Fold(Link(h), prev, hashes)
  }

  function FullChain(h: Hasher, es: seq<StoredEvent>): string
  {
    Chain(h, "", Hashes(h, es))
  }

  function PrimaryStream(entityType: string, entityId: string): string
  {
    entityType + "-" + entityId
  }

  function AuditStream(entityType: string, entityId: string): string
  {
    "audit-" + entityType + "-" + entityId
  }

  /** value or "" */
  function OrEmpty(v: Value): Value
  {
    if Truthy(v) then v else Text("")
  }

  /** How many events the last check covered, as this check reads it: 0 when int() fails, never more than there are. */
  function VerifiedBy(h: Hasher, last: StoredEvent, available: nat): nat
  {
    var n := h.toInt(GetOr(last.payload, VerifiedCount, Int(0)));
    Clamp(if n.Some? then n.value else 0, 0, available)
  }

  /** A count the last check recorded properly is taken as it is, up to the number of events there are; a missing
      one, one that is no number and a negative one count as zero. */
  lemma VerifiedByRecord(h: Hasher, last: StoredEvent, available: nat)
    requires Standard(h)
    ensures var p, n := last.payload, VerifiedBy(h, last, available);
      && (VerifiedCount !in p ==> n == 0)
      && (VerifiedCount in p && h.toInt(p[VerifiedCount]).None? ==> n == 0)
      && (VerifiedCount in p && p[VerifiedCount].Int? ==>
            n == if p[VerifiedCount].n < 0 then 0
                 else if p[VerifiedCount].n > available then available else p[VerifiedCount].n)
  {
  }

  /** The comparison of the stored hash with the chain of the already verified prefix. */
  predicate PrefixMatches(h: Hasher, es: seq<StoredEvent>, last: StoredEvent)
  {
    Text(FullChain(h, es[..VerifiedBy(h, last, |es|)])) == OrEmpty(Get(last.payload, IntegrityHash))
  }

  datatype CheckResult = CheckResult(
    eventsVerified: nat, chainValid: bool, tamperDetected: bool, integrityHash: string, previousHash: Value)

  function CheckEvent(entityId: string, r: CheckResult): NewEvent
  {
    NewEvent(AuditIntegrityCheckRun, 1, map[
      OtherKey("entity_id") := Text(entityId), VerifiedCount := Int(r.eventsVerified),
      IntegrityHash := Text(r.integrityHash), PreviousHash := r.previousHash])
  }

  /** The previous hash a check records: the last check's, unless the comparison fails; then the prefix chain. */
  function LinkTo(h: Hasher, es: seq<StoredEvent>, last: Option<StoredEvent>): Value
  {
    match last
    case None => Null
    case Some(a) =>
      if PrefixMatches(h, es, a) then Get(a.payload, IntegrityHash)
      else Text(FullChain(h, es[..VerifiedBy(h, a, |es|)]))
  }

  /** What a check of es after the given last check establishes. */
  function Verified(h: Hasher, es: seq<StoredEvent>, last: Option<StoredEvent>): CheckResult
  {
    CheckResult(|es|, true, false, FullChain(h, es), LinkTo(h, es, last))
  }

  function LastCheck(audits: seq<StoredEvent>): Option<StoredEvent>
  {
    Latest(audits, AuditIntegrityCheckRun)
  }

  // ---- the check as the code runs it ----

  method HashEvents(h: Hasher, es: seq<StoredEvent>) returns (out: seq<string>)
    ensures out == Hashes(h, es)
  {
    out := [];
    for i := 0 to |es|
      invariant out == Hashes(h, es)[..i]
    {
      out := out + [h.sha(h.json(es[i].payload))];
    }
  }

  method ChainHashFromPrev(h: Hasher, prev: string, hashes: seq<string>) returns (out: string)
    ensures out == Chain(h, prev, hashes)
  {
    out := prev;
    for i := 0 to |hashes|
      invariant out == Chain(h, prev, hashes[..i])
    {
      assert hashes[..i + 1] == hashes[..i] + [hashes[i]];
      FoldSnoc(Link(h), prev, hashes[..i], hashes[i]);
      out := h.sha(out + hashes[i]);
    }
    assert hashes[..|hashes|] == hashes;
  }

  method RecomputeFullChain(h: Hasher, es: seq<StoredEvent>) returns (prev: string)
    ensures prev == FullChain(h, es)
  {
    prev := "";
    for i := 0 to |es|
      invariant prev == Chain(h, "", Hashes(h, es)[..i])
    {
      assert Hashes(h, es)[..i + 1] == Hashes(h, es)[..i] + [Hashes(h, es)[i]];
      FoldSnoc(Link(h), "", Hashes(h, es)[..i], Hashes(h, es)[i]);
      prev := h.sha(prev + h.sha(h.json(es[i].payload)));
    }
    assert Hashes(h, es)[..|es|] == Hashes(h, es);
  }

  method FindLastCheck(audits: seq<StoredEvent>) returns (last: Option<StoredEvent>)
    ensures last == LastCheck(audits)
  {
    var i := |audits|;
    assert audits[..i] == audits;
    while i > 0
      invariant 0 <= i <= |audits|
      invariant LastCheck(audits[..i]) == LastCheck(audits)
    {
      assert audits[..i] == audits[..i - 1] + [audits[i - 1]];
      LatestSnoc(audits[..i - 1], audits[i - 1], AuditIntegrityCheckRun);
      if audits[i - 1].eventType == AuditIntegrityCheckRun {
        return Some(audits[i - 1]);
      }
      i := i - 1;
    }
    last := None;
  }

  /** Steps 3 and 4: incremental from the last check, or rebaselined when the comparison fails. Every path
      ends with the full chain of the stream just read and with no tampering reported. */
  method ComputeCheck(h: Hasher, es: seq<StoredEvent>, last: Option<StoredEvent>) returns (r: CheckResult)
    ensures r == Verified(h, es, last)
  {
    var hashes := HashEvents(h, es);
    if last.None? {
      var hash := ChainHashFromPrev(h, "", hashes);
      return CheckResult(|es|, true, false, hash, Null);
    }
    var previous := Get(last.value.payload, IntegrityHash);
    var verified := VerifiedBy(h, last.value, |es|);
    var prefix := RecomputeFullChain(h, es[..verified]);
    if Text(prefix) != OrEmpty(previous) {
      var hash := RecomputeFullChain(h, es);
      return CheckResult(|es|, true, false, hash, Text(prefix));
    }
    var hash := ChainHashFromPrev(h, OrEmpty(previous).s, hashes[verified..]);
    var full := RecomputeFullChain(h, es);
    ChainFromPrefix(h, es, verified);
    r := CheckResult(|es|, !(full != hash), full != hash, hash, previous);
  }

  /** The stream is what it was in before, with this event behind it. */
  ghost predicate Landed(before: Ledger, now: Ledger, sid: string, event: NewEvent)
  {
    var rows := Stream(now, sid);
    && |rows| > 0 && rows[..|rows| - 1] == Stream(before, sid)
    && rows[|rows| - 1].eventType == event.eventType && rows[|rows| - 1].version == event.version
    && rows[|rows| - 1].payload == event.payload
  }

  lemma UpcastKeepsLastPosition(reg: Registry, es: seq<StoredEvent>)
    ensures LastPosition(MigratedAll(reg, es)) == LastPosition(es)
  {
    if es != [] {
      UpcastEndsAtLeastUnregistered(reg, es[|es| - 1]);
    }
  }

  lemma AppendLands(seen: Ledger, now: Ledger, sid: string, ins: Insert, meta: Metadata)
    requires Sound(seen) && Sound(now) && Extends(seen, now)
    requires Append(now, sid, [ins], Version(seen, sid), meta).1.Appended?
    ensures Landed(seen, Append(now, sid, [ins], Version(seen, sid), meta).0, sid, ins.event)
  {
    ExactVersionMeansUnchanged(seen, now, sid);
    AppendStream(now, sid, [ins], Version(seen, sid), meta, sid);
    assert Rows(sid, Version(seen, sid), [ins], meta)[0] == Row(sid, Version(seen, sid) + 1, ins, meta);
  }

  /** The audit ledger is loaded for its version, and the check is appended at it. */
  method RecordCheck(store: EventStore, audit: string, event: NewEvent, stamp: Stamp) returns (a: AppendResult)
    requires store.Valid()
    modifies store`events, store`streams, store`outbox
    ensures store.Valid() && Extends(old(store.State()), store.State())
    ensures a.Appended? ==> Landed(old(store.State()), store.State(), audit, event)
  {
    ghost var seen := store.State();
    var ledger := store.LoadStream(audit, 0, None);
    var version := LastPosition(ledger);
    LoadedVersionIsStreamVersion(seen, audit);
    UpcastKeepsLastPosition(store.upcasters, Stream(seen, audit));
    Interfere(store);
    ghost var now := store.State();
    a := store.Append(audit, [Insert(event, stamp)], version, None, None);
    ExtendsTransitive(seen, now, store.State());
    if a.Appended? {
      AppendLands(seen, now, audit, Insert(event, stamp), NoMeta);
    }
  }

  /** The whole check, with other writers free to commit between its loads and its append. It links to the last check of
      the audit stream as in read, and lands right behind the audit stream as in versioned, read later. */
  method RunIntegrityCheck(store: EventStore, h: Hasher, entityType: string, entityId: string, stamp: Stamp)
    returns (r: CheckResult, a: AppendResult, ghost read: Ledger, ghost versioned: Ledger)
    requires store.Valid()
    modifies store`events, store`streams, store`outbox
    ensures store.Valid()
    ensures Extends(old(store.State()), read) && Extends(read, versioned) && Extends(versioned, store.State())
    ensures var primary, audit := entityType + "-" + entityId, "audit-" + entityType + "-" + entityId;
      && r == Verified(h, MigratedAll(store.upcasters, old(Stream(store.State(), primary))),
                       LastCheck(MigratedAll(store.upcasters, Stream(read, audit))))
      && (a.Appended? ==>
            Landed(versioned, store.State(), audit,
                   NewEvent(AuditIntegrityCheckRun, 1, map[
                     OtherKey("entity_id") := Text(entityId), VerifiedCount := Int(r.eventsVerified),
                     IntegrityHash := Text(r.integrityHash), PreviousHash := r.previousHash])))
    ensures entityType == "loan" ==> r.eventsVerified == old(|Stream(store.State(), LoanStream(entityId))|)
    ensures entityType == "compliance" ==> r.eventsVerified == old(|Stream(store.State(), ComplianceStream(entityId))|)
  {
    assert LoanStream(entityId) == "loan" + "-" + entityId;
    assert ComplianceStream(entityId) == "compliance" + "-" + entityId;
    var audit := AuditStream(entityType, entityId);
    var events := store.LoadStream(PrimaryStream(entityType, entityId), 0, None);
    Interfere(store);
    read := store.State();
    var audits := store.LoadStream(audit, 0, None);
    var last := FindLastCheck(audits);
    r := ComputeCheck(h, events, last);
    Interfere(store);
    versioned := store.State();
    a := RecordCheck(store, audit, CheckEvent(entityId, r), stamp);
  }

  // ---- the chain ----

  /** Chaining the tail from the prefix's chain is recomputing over the whole stream. */
  lemma ChainFromPrefix(h: Hasher, es: seq<StoredEvent>, k: nat)
    requires k <= |es|
    ensures Chain(h, FullChain(h, es[..k]), Hashes(h, es)[k..]) == FullChain(h, es)
  {
    var hashes := Hashes(h, es);
    assert hashes == hashes[..k] + hashes[k..];
    assert Hashes(h, es[..k]) == hashes[..k];
    FoldAppend(Link(h), "", hashes[..k], hashes[k..]);
  }

  ghost predicate Collision(h: Hasher, x: string, y: string)
  {
    x != y && h.sha(x) == h.sha(y)
  }

  /** Equal chains of different digest lists contain two colliding inputs. */
  lemma {:induction false} EqualChainsCollide(h: Hasher, xs: seq<string>, ys: seq<string>) returns (x: string,
                                              y: string)
    requires Standard(h) && xs != ys && Chain(h, "", xs) == Chain(h, "", ys)
    requires (forall i | 0 <= i < |xs| :: |xs[i]| == 64) && (forall i | 0 <= i < |ys| :: |ys[i]| == 64)
    ensures Collision(h, x, y)
  {
    assert xs != [] && ys != [] by {
      assert Chain(h, "", []) == "";
      assert xs != [] ==> |Chain(h, "", xs)| == 64;
      assert ys != [] ==> |Chain(h, "", ys)| == 64;
    }
    var front, last := xs[..|xs| - 1], xs[|xs| - 1];
    var front', last' := ys[..|ys| - 1], ys[|ys| - 1];
    x, y := Chain(h, "", front) + last, Chain(h, "", front') + last';
    if x == y {
      assert last == x[|x| - 64..] && last' == y[|y| - 64..];
      assert Chain(h, "", front) == x[..|x| - 64] && Chain(h, "", front') == y[..|y| - 64];
      assert xs == front + [last] && ys == front' + [last'];
      x, y := EqualChainsCollide(h, front, front');
    }
  }

  /** The texts that are hashed. */
  function Texts(h: Hasher, es: seq<StoredEvent>): seq<string>
  {
    Map((e: StoredEvent) => h.json(e.payload), es)
  }

  lemma DigestLengths(h: Hasher, es: seq<StoredEvent>)
    requires Standard(h)
    ensures forall i | 0 <= i < |Hashes(h, es)| :: |Hashes(h, es)[i]| == 64
  {
    forall i | 0 <= i < |es| ensures |Hashes(h, es)[i]| == 64 {
      assert Hashes(h, es)[i] == h.sha(h.json(es[i].payload));
    }
  }

  /** Equal chains mean equal payload texts, or here are two colliding inputs. */
  lemma EqualChainsEqualTexts(h: Hasher, es: seq<StoredEvent>, es': seq<StoredEvent>) returns (x: string, y: string)
    requires Standard(h) && FullChain(h, es) == FullChain(h, es')
    ensures Texts(h, es) == Texts(h, es') || Collision(h, x, y)
  {
    x, y := "", "";
    if Hashes(h, es) != Hashes(h, es') {
      DigestLengths(h, es);
      DigestLengths(h, es');
      x, y := EqualChainsCollide(h, Hashes(h, es), Hashes(h, es'));
    } else if Texts(h, es) != Texts(h, es') {
      assert |es| == |Hashes(h, es)| == |Hashes(h, es')| == |es'|;
      var i :| 0 <= i < |es| && Texts(h, es)[i] != Texts(h, es')[i];
      x, y := Texts(h, es)[i], Texts(h, es')[i];
      assert h.sha(x) == Hashes(h, es)[i] && h.sha(y) == Hashes(h, es')[i];
    }
  }

  lemma EqualTextsEqualChains(h: Hasher, es: seq<StoredEvent>, es': seq<StoredEvent>)
    requires Texts(h, es) == Texts(h, es')
    ensures FullChain(h, es) == FullChain(h, es')
  {
    assert |es| == |Texts(h, es)| == |Texts(h, es')| == |es'|;
    forall i | 0 <= i < |es| ensures Hashes(h, es)[i] == Hashes(h, es')[i] {
      assert Texts(h, es)[i] == Texts(h, es')[i];
    }
    assert Hashes(h, es) == Hashes(h, es');
  }

  // ---- what a check records ----

  /** The check recorded how many events there were and their full chain. */
  ghost predicate Records(h: Hasher, check: StoredEvent, es: seq<StoredEvent>)
  {
    && Get(check.payload, VerifiedCount) == Int(|es|)
    && Get(check.payload, IntegrityHash) == Text(FullChain(h, es))
  }

  lemma CheckFields(entityId: string, r: CheckResult)
    ensures var p := CheckEvent(entityId, r).payload;
      && Get(p, VerifiedCount) == Int(r.eventsVerified)
      && Get(p, IntegrityHash) == Text(r.integrityHash)
      && Get(p, PreviousHash) == r.previousHash
  {
  }

  /** On a stream that only grows, the link is the chain of the events that the last check covered and this check
      has read, whether the comparison holds or not. */
  lemma LinkIsPrefixChain(h: Hasher, es: seq<StoredEvent>, read: nat, covered: nat, last: StoredEvent)
    requires Standard(h) && read <= |es| && covered <= |es| && Records(h, last, es[..covered])
    ensures LinkTo(h, es[..read], Some(last)) == Text(FullChain(h, es[..if covered < read then covered else read]))
  {
    var both := if covered < read then covered else read;
    assert |es[..covered]| == covered && |es[..read]| == read;
    assert VerifiedBy(h, last, read) == both;
    assert es[..read][..both] == es[..both];
  }

  /** Tampering shows at the comparison, not in the flag: if a verified payload changed or was removed, then the
      comparison of the next check fails or two colliding inputs can be exhibited; and while the verified payloads
      are as they were, it holds. In both cases the check reports no tampering. */
  lemma TamperingShowsAtComparison(h: Hasher, check: StoredEvent, verified: seq<StoredEvent>, now: seq<StoredEvent>)
    returns (x: string, y: string)
    requires Standard(h) && Records(h, check, verified)
    ensures var kept := now[..Clamp(|verified|, 0, |now|)];
      && (Texts(h, kept) == Texts(h, verified) ==> PrefixMatches(h, now, check))
      && (Texts(h, kept) != Texts(h, verified) ==> !PrefixMatches(h, now, check) || Collision(h, x, y))
    ensures !Verified(h, now, Some(check)).tamperDetected && Verified(h, now, Some(check)).chainValid
  {
    var kept := now[..Clamp(|verified|, 0, |now|)];
    x, y := "", "";
    assert VerifiedBy(h, check, |now|) == |kept|;
    if Texts(h, kept) == Texts(h, verified) {
      EqualTextsEqualChains(h, kept, verified);
    } else if PrefixMatches(h, now, check) {
      x, y := EqualChainsEqualTexts(h, kept, verified);
    }
  }
}
