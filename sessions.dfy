/**
 * The client session registry (m_watchedServices): reference counts,
 * requested update intervals, and the effective recompute interval.
 */
module Sessions {
  import opened Basics

  /** A client's bus name (the D-Bus message sender). */
  type ClientId = string

  /** Per-client entry: reference count and requested interval in ms (0: no preference). */
  datatype ServiceData = ServiceData(referenceCount: int, updateInterval: uint32)

  /** The entry operator[] inserts for a client it does not know. */
  const DefaultEntry := ServiceData(0, 0)

  /** 10 s: the shortest recompute interval. */
  const MinimumInterval: uint32 := 10000
  /** UINT_MAX: the running minimum's start value, meaning "nothing requested". */
  const UintMax: uint32 := 0xffff_ffff

  /** The entry a client has, or the default entry if it has none. */
  function Entry(services: map<ClientId, ServiceData>, client: ClientId): (d: ServiceData) {
    if client in services then services[client] else DefaultEntry
  }

  /** Every registered client holds at least one reference. */
  predicate AllActive(services: map<ClientId, ServiceData>) {
    forall c :: c in services ==> services[c].referenceCount > 0
  }

  /** The registry after AddReference from a client. */
  function AfterAddReference(services: map<ClientId, ServiceData>, client: ClientId): map<ClientId, ServiceData> {
    var d := Entry(services, client);
    services[client := d.(referenceCount := d.referenceCount + 1)]
  }

  /**
   * AddReference registers the client, raises its count by one (from zero
   * for a new client, keeping its interval) and leaves every other entry alone.
   */
  lemma AddReferenceEffect(services: map<ClientId, ServiceData>, client: ClientId)
    ensures AfterAddReference(services, client).Keys == services.Keys + {client}
    ensures AfterAddReference(services, client)[client].referenceCount == Entry(services, client).referenceCount + 1
    ensures AfterAddReference(services, client)[client].updateInterval == Entry(services, client).updateInterval
    ensures forall c :: c in services && c != client ==> AfterAddReference(services, client)[c] == services[c]
  {
  }

  /**
   * The registry after RemoveReference from a client: a positive count drops
   * by one, and an entry whose count is then zero is removed; an unknown
   * client's default entry is inserted and removed again.
   */
  function AfterRemoveReference(services: map<ClientId, ServiceData>, client: ClientId): map<ClientId, ServiceData> {
    var d := Entry(services, client);
    var d' := if d.referenceCount > 0 then d.(referenceCount := d.referenceCount - 1) else d;
    if d'.referenceCount == 0 then services - {client} else services[client := d']
  }

  /** RemoveReference never registers a client and leaves every other entry alone. */
  lemma RemoveReferenceEffect(services: map<ClientId, ServiceData>, client: ClientId)
    ensures AfterRemoveReference(services, client).Keys <= services.Keys
    ensures forall c :: c != client ==> (c in AfterRemoveReference(services, client) <==> c in services)
    ensures forall c :: c in services && c != client ==> AfterRemoveReference(services, client)[c] == services[c]
  {
  }

  /** Adding a reference keeps every count positive. */
  lemma AddKeepsActive(services: map<ClientId, ServiceData>, client: ClientId)
    requires AllActive(services)
    ensures AllActive(AfterAddReference(services, client))
  {
  }

  /**
   * Removing a reference keeps every count positive: no count goes negative
   * and a count that reaches zero takes its entry with it.
   */
  lemma RemoveKeepsActive(services: map<ClientId, ServiceData>, client: ClientId)
    requires AllActive(services)
    ensures AllActive(AfterRemoveReference(services, client))
    ensures client in services && services[client].referenceCount == 1 <==>
      client in services && client !in AfterRemoveReference(services, client)
    ensures client in services && services[client].referenceCount > 1 ==>
      AfterRemoveReference(services, client)[client] ==
        services[client].(referenceCount := services[client].referenceCount - 1)
  {
  }

  /** RemoveReference from a client that holds no reference changes nothing. */
  lemma RemoveUnknownClient(services: map<ClientId, ServiceData>, client: ClientId)
    requires client !in services
    ensures AfterRemoveReference(services, client) == services
  {
  }

  /** RemoveReference undoes AddReference. */
  lemma {:induction false} RemoveUndoesAdd(services: map<ClientId, ServiceData>, client: ClientId)
    requires AllActive(services)
    ensures AfterRemoveReference(AfterAddReference(services, client), client) == services
  {
    var added := AfterAddReference(services, client);
    var r := AfterRemoveReference(added, client);
    if client in services {
      assert r == services[client := services[client]];
    } else {
      assert r.Keys == services.Keys;
    }
  }

  /**
   * A client whose count is positive and who asked for an interval other
   * than 0 (no preference) and UINT_MAX (the "nothing requested" mark).
   */
  predicate Requests(services: map<ClientId, ServiceData>, client: ClientId) {
    client in services
    && services[client].referenceCount > 0
    && services[client].updateInterval != 0
    && services[client].updateInterval != UintMax
  }

  /**
   * r is the effective recompute interval: the smallest requested interval,
   * raised to 10 s, or exactly 10 s when nobody requests one.
   */
  ghost predicate IsEffectiveInterval(services: map<ClientId, ServiceData>, r: int) {
    && r >= MinimumInterval
    && (forall c :: Requests(services, c) ==> r <= Max(services[c].updateInterval, MinimumInterval))
    && ((exists c :: Requests(services, c)) ==>
          exists c :: Requests(services, c) && r == Max(services[c].updateInterval, MinimumInterval))
    && ((forall c :: !Requests(services, c)) ==> r == MinimumInterval)
  }

  /** The characterisation above determines the interval. */
  lemma EffectiveIntervalUnique(services: map<ClientId, ServiceData>, a: int, b: int)
    requires IsEffectiveInterval(services, a) && IsEffectiveInterval(services, b)
    ensures a == b
  {
    if exists c :: Requests(services, c) {
      var ca :| Requests(services, ca) && a == Max(services[ca].updateInterval, MinimumInterval);
      var cb :| Requests(services, cb) && b == Max(services[cb].updateInterval, MinimumInterval);
      assert a <= b && b <= a;
    }
  }

  /** The smallest interval requested by a client in keys, or UINT_MAX if none requests one. */
  ghost function SmallestRequest(services: map<ClientId, ServiceData>, keys: set<ClientId>): (m: int)
    ensures m <= UintMax
    ensures forall c :: c in keys && Requests(services, c) ==> m <= services[c].updateInterval
    ensures m == UintMax || exists c :: c in keys && Requests(services, c) && m == services[c].updateInterval
    decreases keys
  {
    if keys == {} then UintMax
    else
      var c :| c in keys;
      var rest := SmallestRequest(services, keys - {c});
      if Requests(services, c) then Min(rest, services[c].updateInterval) else rest
  }

  /** The effective recompute interval of a registry. */
  ghost function EffectiveInterval(services: map<ClientId, ServiceData>): int {
    var m := SmallestRequest(services, services.Keys);
    if m == UintMax then MinimumInterval else Max(m, MinimumInterval)
  }

  /** EffectiveInterval meets the characterisation, and so is the only value that does. */
  lemma EffectiveIntervalIsEffective(services: map<ClientId, ServiceData>)
    ensures IsEffectiveInterval(services, EffectiveInterval(services))
  {
    var m := SmallestRequest(services, services.Keys);
    if m != UintMax {
      var c :| c in services && Requests(services, c) && m == services[c].updateInterval;
      assert Requests(services, c);
    }
  }

  /**
   * YandexProvider::minimumRequestedUpdateInterval: the minimum of the nonzero
   * intervals of clients with a positive count, starting from UINT_MAX;
   * 10 s if it stays UINT_MAX, else the minimum raised to 10 s.
   */
  method MinimumRequestedUpdateInterval(services: map<ClientId, ServiceData>) returns (interval: uint32)
    ensures interval == EffectiveInterval(services)
    ensures MinimumInterval <= interval < UintMax
  {
    var updateInterval: uint32 := UintMax;
    var remaining := services.Keys;
    while remaining != {}
      invariant remaining <= services.Keys
      invariant forall c :: Requests(services, c) && c !in remaining ==> updateInterval <= services[c].updateInterval
      invariant updateInterval == UintMax ||
        exists c :: Requests(services, c) && c !in remaining && updateInterval == services[c].updateInterval
      invariant updateInterval == UintMax ==> forall c :: Requests(services, c) ==> c in remaining
      decreases remaining
    {
      var client :| client in remaining;
      var data := services[client];
      remaining := remaining - {client};
      // Old data: the client is not currently using positioning.
      if data.referenceCount <= 0 {
        continue;
      }
      // The client has not requested a specific interval.
      if data.updateInterval == 0 {
        continue;
      }
      updateInterval := Min(updateInterval, data.updateInterval);
    }
    if updateInterval == UintMax {
      interval := MinimumInterval;
    } else {
      interval := Max(updateInterval, MinimumInterval);
    }
    EffectiveIntervalIsEffective(services);
    EffectiveIntervalUnique(services, interval, EffectiveInterval(services));
  }
}
