/** Read-time version migration: the registry walk and the two registered transforms. */
module Upcasting {
  import opened Events
  import opened Sequences

  type Transform = Payload -> Payload
  type Registry = map<(EventType, int), Transform>

  /** The versions of one event type, at or above v, that still have a transform. */
  function Pending(reg: Registry, t: EventType, v: int): set<int>
  {
    set k | k in reg && k.0 == t && k.1 >= v :: k.1
  }

  lemma PendingShrinks(reg: Registry, t: EventType, v: int)
    requires (t, v) in reg
    ensures |Pending(reg, t, v + 1)| < |Pending(reg, t, v)|
  {
    var all := Pending(reg, t, v);
    assert (t, v) in reg && (t, v).0 == t && (t, v).1 == v;
    assert v in all;
    var rest := Pending(reg, t, v + 1);
    assert all == rest + (all - rest) && v in all - rest;
  }

  /** The chain v, v+1, ... is walked until no transform is registered. */
  function Migrated(reg: Registry, e: StoredEvent): StoredEvent
    decreases |Pending(reg, e.eventType, e.version)|
  {
    if (e.eventType, e.version) in reg then
      PendingShrinks(reg, e.eventType, e.version);
      Migrated(reg, e.(payload := reg[(e.eventType, e.version)](e.payload), version := e.version + 1))
    else e
  }

  /** Upcasting a list, as the store does on every load. */
  function MigratedAll(reg: Registry, es: seq<StoredEvent>): (r: seq<StoredEvent>)
    ensures |r| == |es|
    ensures forall i | 0 <= i < |es| :: r[i] == Migrated(reg, es[i])
  {
    Map((e: StoredEvent) => Migrated(reg, e), es)
  }

  class UpcasterRegistry {
    var upcasters: Registry

    constructor ()
      ensures upcasters == map[]
    {
      upcasters := map[];
    }

    method Register(eventType: EventType, fromVersion: int, fn: Transform)
      modifies this
      ensures upcasters == old(upcasters)[(eventType, fromVersion) := fn]
    {
      upcasters := upcasters[(eventType, fromVersion) := fn];
    }

    method Upcast(event: StoredEvent) returns (current: StoredEvent)
      ensures current == Migrated(upcasters, event)
    {
      current := event;
      var v := event.version;
      while (event.eventType, v) in upcasters
        invariant current.eventType == event.eventType && current.version == v
        invariant Migrated(upcasters, current) == Migrated(upcasters, event)
        decreases |Pending(upcasters, event.eventType, v)|
      {
        PendingShrinks(upcasters, event.eventType, v);
        var newPayload := upcasters[(event.eventType, v)](current.payload);
        current := current.(payload := newPayload, version := v + 1);
        v := v + 1;
      }
    }
  }

  /** The walk stops at the least unregistered version at or above the stored
      one and touches nothing but the payload and the version. */
  lemma {:induction false} UpcastEndsAtLeastUnregistered(reg: Registry, e: StoredEvent)
    ensures var r := Migrated(reg, e);
      && e.version <= r.version
      && (e.eventType, r.version) !in reg
      && (forall v | e.version <= v < r.version :: (e.eventType, v) in reg)
      && r == e.(payload := r.payload, version := r.version)
    decreases |Pending(reg, e.eventType, e.version)|
  {
    if (e.eventType, e.version) in reg {
      PendingShrinks(reg, e.eventType, e.version);
      UpcastEndsAtLeastUnregistered(reg,
        e.(payload := reg[(e.eventType, e.version)](e.payload), version := e.version + 1));
    }
  }

  /** Loading an already migrated event again changes nothing. */
  lemma UpcastIdempotent(reg: Registry, e: StoredEvent)
    ensures Migrated(reg, Migrated(reg, e)) == Migrated(reg, e)
  {
    UpcastEndsAtLeastUnregistered(reg, e);
  }

  /** Whether the walk of an event of this type from one version comes to another. */
  ghost predicate Climbs(reg: Registry, t: EventType, from: int, to: int)
  {
    from <= to && forall v | from <= v < to :: (t, v) in reg
  }

  /** What registering a transform does to loads: events whose walk does not come to its version are loaded as before;
      an event that was loaded as that version is now loaded as what the transform makes of it, walked on. */
  lemma {:induction false} RegisterTakesEffect(reg: Registry, t: EventType, v: int, fn: Transform, e: StoredEvent)
    ensures var now, before := Migrated(reg[(t, v) := fn], e), Migrated(reg, e);
      && (!(e.eventType == t && Climbs(reg, t, e.version, v)) ==> now == before)
      && (e.eventType == t && before.version == v ==>
            now == Migrated(reg, before.(payload := fn(before.payload), version := v + 1)))
    decreases |Pending(reg, e.eventType, e.version)|
  {
    var reg' := reg[(t, v) := fn];
    if e.eventType == t && e.version == v {
      RegisterAbove(reg, t, v, fn, e.(payload := fn(e.payload), version := v + 1));
      UpcastEndsAtLeastUnregistered(reg, e);
    } else if (e.eventType, e.version) in reg {
      PendingShrinks(reg, e.eventType, e.version);
      RegisterTakesEffect(reg, t, v, fn,
                          e.(payload := reg[(e.eventType, e.version)](e.payload), version := e.version + 1));
    }
  }

  lemma {:induction false} RegisterAbove(reg: Registry, t: EventType, v: int, fn: Transform, e: StoredEvent)
    requires e.version > v
    ensures Migrated(reg[(t, v) := fn], e) == Migrated(reg, e)
    decreases |Pending(reg, e.eventType, e.version)|
  {
    if (e.eventType, e.version) in reg {
      PendingShrinks(reg, e.eventType, e.version);
      RegisterAbove(reg, t, v, fn, e.(payload := reg[(e.eventType, e.version)](e.payload), version := e.version + 1));
    }
  }

  function Versions(from: int, count: nat): seq<int>
  {
    seq(count, i => from + i)
  }

  function TransformAt(reg: Registry, t: EventType): (Payload, int) -> Payload
  {
    (p: Payload, v: int) => if (t, v) in reg then reg[(t, v)](p) else p
  }

  /** The loaded payload is the stored one sent through every registered transform
      from the stored version up to the version it is loaded as, each once, in order. */
  lemma {:induction false} UpcastAppliesTransformsInOrder(reg: Registry, e: StoredEvent)
    ensures var r := Migrated(reg, e);
      && e.version <= r.version
      && r.payload == Fold(TransformAt(reg, e.eventType), e.payload, Versions(e.version, r.version - e.version))
    decreases |Pending(reg, e.eventType, e.version)|
  {
    var r := Migrated(reg, e);
    UpcastEndsAtLeastUnregistered(reg, e);
    if (e.eventType, e.version) in reg {
      PendingShrinks(reg, e.eventType, e.version);
      var next := e.(payload := reg[(e.eventType, e.version)](e.payload), version := e.version + 1);
      UpcastAppliesTransformsInOrder(reg, next);
      var step := TransformAt(reg, e.eventType);
      var rest := Versions(next.version, r.version - next.version);
      assert Versions(e.version, r.version - e.version) == [e.version] + rest;
      FoldAppend(step, e.payload, [e.version], rest);
      FoldSnoc(step, e.payload, [], e.version);
      assert [] + [e.version] == [e.version];
    }
  }

  /** A transform that never drops or changes a key it was given. */
  ghost predicate OnlyAdds(f: Transform)
  {
    forall p: Payload, k: Key | k in p :: k in f(p) && f(p)[k] == p[k]
  }

  lemma {:induction false} UpcastKeepsKeys(reg: Registry, e: StoredEvent)
    requires forall k | k in reg :: OnlyAdds(reg[k])
    ensures forall k | k in e.payload :: k in Migrated(reg, e).payload && Migrated(reg, e).payload[k] == e.payload[k]
    decreases |Pending(reg, e.eventType, e.version)|
  {
    if (e.eventType, e.version) in reg {
      PendingShrinks(reg, e.eventType, e.version);
      var f := reg[(e.eventType, e.version)];
      assert OnlyAdds(f);
      UpcastKeepsKeys(reg, e.(payload := f(e.payload), version := e.version + 1));
    }
  }

  /** A fold, and a test, that cannot tell an event from its upcast form cannot tell a stored stream from a loaded
      one. */
  lemma {:induction false} FoldIgnoresUpcasting<A(!new)>(reg: Registry, step: (A, StoredEvent) -> A, init: A,
                                                 readable: StoredEvent -> bool, es: seq<StoredEvent>)
    requires forall a, e :: step(a, Migrated(reg, e)) == step(a, e)
    requires forall e :: readable(Migrated(reg, e)) == readable(e)
    ensures Fold(step, init, MigratedAll(reg, es)) == Fold(step, init, es)
    ensures (forall e | e in MigratedAll(reg, es) :: readable(e)) <==> forall e | e in es :: readable(e)
  {
    if es != [] {
      var front, last := es[..|es| - 1], es[|es| - 1];
      FoldIgnoresUpcasting(reg, step, init, readable, front);
      assert MigratedAll(reg, es)[..|es| - 1] == MigratedAll(reg, front);
      assert es == front + [last] && MigratedAll(reg, es) == MigratedAll(reg, front) + [Migrated(reg, last)];
    }
  }

  // ---- the registered transforms ----

  const LEGACY_MODEL := "legacy-pre-2026"

  function CreditV1ToV2(p: Payload): Payload
  {
    p + map[ModelVersion := GetOr(p, ModelVersion, Text(LEGACY_MODEL)),
            ConfidenceScore := Get(p, ConfidenceScore),
            RegulatoryBasis := Get(p, RegulatoryBasis)]
  }

  function DecisionV1ToV2(p: Payload): Payload
  {
    p + map[ModelVersions := GetOr(p, ModelVersions, Object(map[]))]
  }

  function Registered(): Registry
  {
    map[(CreditAnalysisCompleted, 1) := CreditV1ToV2, (DecisionGenerated, 1) := DecisionV1ToV2]
  }

  lemma RegisteredMigrates(e: StoredEvent)
    ensures Migrated(Registered(), e) ==
      if e.eventType == CreditAnalysisCompleted && e.version == 1
      then e.(payload := CreditV1ToV2(e.payload), version := 2)
      else if e.eventType == DecisionGenerated && e.version == 1
      then e.(payload := DecisionV1ToV2(e.payload), version := 2)
      else e
  {
    var reg := Registered();
    if e.version == 1 && (e.eventType == CreditAnalysisCompleted || e.eventType == DecisionGenerated) {
      var e2 := e.(payload := reg[(e.eventType, 1)](e.payload), version := 2);
      assert (e2.eventType, e2.version) !in reg;
      assert Migrated(reg, e2) == e2;
    }
  }

  /** What a load returns with the registered transforms, in closed form: a first-version
      credit analysis or decision gains its missing keys, everything else is untouched,
      and in no case is a stored key dropped or altered. */
  lemma RegisteredUpcast(e: StoredEvent)
    ensures var r := Migrated(Registered(), e);
      && r == (if e.eventType == CreditAnalysisCompleted && e.version == 1
               then e.(payload := CreditV1ToV2(e.payload), version := 2)
               else if e.eventType == DecisionGenerated && e.version == 1
               then e.(payload := DecisionV1ToV2(e.payload), version := 2)
               else e)
      && (forall k | k in e.payload :: k in r.payload && r.payload[k] == e.payload[k])
      && (forall k | k !in {ModelVersion, ConfidenceScore, RegulatoryBasis, ModelVersions} ::
            (k in r.payload <==> k in e.payload) && Get(r.payload, k) == Get(e.payload, k))
      && (e.eventType == CreditAnalysisCompleted && e.version == 1 ==>
            && r.version == 2
            && r.payload.Keys == e.payload.Keys + {ModelVersion, ConfidenceScore, RegulatoryBasis}
            && (ModelVersion !in e.payload ==> r.payload[ModelVersion] == Text("legacy-pre-2026"))
            && (ConfidenceScore !in e.payload ==> r.payload[ConfidenceScore] == Null)
            && (RegulatoryBasis !in e.payload ==> r.payload[RegulatoryBasis] == Null))
      && (e.eventType == DecisionGenerated && e.version == 1 ==>
            && r.version == 2
            && r.payload.Keys == e.payload.Keys + {ModelVersions}
            && (ModelVersions !in e.payload ==> r.payload[ModelVersions] == Object(map[])))
  {
    RegisteredMigrates(e);
  }
}
