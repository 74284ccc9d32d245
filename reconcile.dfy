/** What both client variants share beyond the validator: the record fetch
    with its lazy zone bootstrap, the create / update / skip decision against
    the cached records, and the dispatch of that decision followed by a
    refresh. Each is given as a Plan, computed from the state before the
    call: the requests the call sends when none of them fails for transport
    reasons, and the outcome, cache and server state it then ends with. */
module Reconcile {
  import opened Wrappers
  import opened DnsModel
  import opened Validation
  import opened Remote

  datatype Plan = Plan(
    trace: seq<Request>,
    outcome: Result<map<Key, Record>, Error>,
    cache: map<string, Zone>,
    server: ServerState)

  /** The cache after the lazy bootstrap: an empty cache is filled from the zone listing. */
  function Booted(cache: map<string, Zone>, s: ServerState): map<string, Zone> {
    if cache == map[] then ZoneCache(s.zones) else cache
  }

  function BootTrace(cache: map<string, Zone>): seq<Request> {
    if cache == map[] then [ListZones] else []
  }

  /** A record map keyed the way the listing loop keys it. */
  ghost predicate Keyed(m: map<Key, RemoteRecord>) {
    forall k :: k in m ==> KeyOf(m[k]) == k
  }

  /** Every fetched record map of the cache is keyed the way the listing loop keys it. */
  ghost predicate CacheKeyed(cache: map<string, Zone>) {
    forall z :: z in cache && cache[z].dnsRecords.Some? ==> Keyed(cache[z].dnsRecords.value)
  }

  /** Appending in two steps is appending once: a proof step for the logs. */
  lemma SeqAssoc<T>(a: seq<T>, b: seq<T>, c: seq<T>)
    ensures a + b + c == a + (b + c)
  {
  }

  /** Requests none of which writes have no writes among them. */
  lemma {:induction false} NoWrites(qs: seq<Request>)
    requires forall q :: q in qs ==> !q.IsWrite()
    ensures Writes(qs) == []
  {
    if qs != [] {
      assert qs[0] in qs;
      assert forall q :: q in qs[1..] ==> q in qs;
      NoWrites(qs[1..]);
    }
  }

  /** Storing a keyed record map, or none, for one zone keeps the cache keyed. */
  lemma CacheKeyedStore(cache: map<string, Zone>, zoneName: string, zone: Zone)
    requires CacheKeyed(cache)
    requires zone.dnsRecords.Some? ==> Keyed(zone.dnsRecords.value)
    ensures CacheKeyed(cache[zoneName := zone])
  {
  }

  /** The record fetch (`get` / `get_records`): bootstrap the zones when the
      cache is empty, fail for an unknown zone, otherwise replace that zone's
      records by the listing keyed by (name, type). */
  function FetchPlan(cache: map<string, Zone>, s: ServerState, zoneName: string): (p: Plan)
    ensures p.server == s
    ensures forall q :: q in p.trace ==> !q.IsWrite()
    ensures p.outcome.Err? ==> p.outcome.error == ZoneNotFound || p.outcome.error == RequestFailed
    ensures p.outcome.Err? && p.outcome.error == ZoneNotFound <==> zoneName !in Booted(cache, s)
    ensures p.outcome.Ok? ==>
      && zoneName in p.cache && p.cache[zoneName].dnsRecords.Some?
      && Keyed(p.cache[zoneName].dnsRecords.value)
      && p.outcome.value == SimplifyAll(p.cache[zoneName].dnsRecords.value)
    ensures CacheKeyed(cache) ==> CacheKeyed(p.cache)
    ensures zoneName in Booted(cache, s) ==> zoneName in p.cache && p.cache[zoneName].info == Booted(cache, s)[zoneName].info
  {
    var c1 := Booted(cache, s);
    var t1 := BootTrace(cache);
    if zoneName !in c1 then Plan(t1, Err(ZoneNotFound), c1, s)
    else
      var zoneId := c1[zoneName].info.id;
      var t2 := t1 + [ListRecords(zoneId)];
      if zoneId !in s.listings then Plan(t2, Err(RequestFailed), c1, s)
      else
        var c2 := c1[zoneName := c1[zoneName].(dnsRecords := Some(IndexBy(s.listings[zoneId], KeyOf)))];
        Plan(t2, Ok(SimplifyAll(c2[zoneName].dnsRecords.value)), c2, s)
  }

  /** A fetch bootstraps the zones exactly when the cache is empty, fails only
      for an unknown zone or a failed request, and otherwise replaces that
      zone's records by the keyed listing and leaves every other zone alone. */
  lemma FetchTouchesOnlyItsZone(cache: map<string, Zone>, s: ServerState, zoneName: string)
    ensures var p := FetchPlan(cache, s, zoneName);
      && (|p.trace| > 0 && p.trace[0] == ListZones <==> cache == map[])
      && (p.outcome.Ok? ==>
            var c1 := Booted(cache, s);
            && p.cache.Keys == c1.Keys
            && (forall z :: z in c1 && z != zoneName ==> p.cache[z] == c1[z])
            && c1[zoneName].info.id in s.listings
            && p.cache[zoneName] == Zone(c1[zoneName].info, Some(IndexBy(s.listings[c1[zoneName].info.id], KeyOf))))
  {
  }

  /** The fetch step by step: the bootstrap, then the zone lookup, then the
      listing request and the keyed store. */
  lemma FetchSteps(cache: map<string, Zone>, s: ServerState, zoneName: string)
    ensures var p := FetchPlan(cache, s, zoneName);
      var c1 := Booted(cache, s);
      && BootTrace(cache) <= p.trace
      && (zoneName !in c1 ==> p == Plan(BootTrace(cache), Err(ZoneNotFound), c1, s))
      && (zoneName in c1 ==>
            var zoneId := c1[zoneName].info.id;
            && p.trace == BootTrace(cache) + [ListRecords(zoneId)]
            && (zoneId in s.listings ==>
                  && p.cache == c1[zoneName := Zone(c1[zoneName].info, Some(IndexBy(s.listings[zoneId], KeyOf)))]
                  && p.outcome == Ok(SimplifyAll(IndexBy(s.listings[zoneId], KeyOf)))))
  {
  }

  /** What a zone-scoped call does with the cache: it must hold the zone and
      is refreshed only when the zone's records have never been fetched. */
  function Prepared(c1: map<string, Zone>, s: ServerState, zoneName: string): (p: Plan)
    requires zoneName in c1
    ensures p.server == s
    ensures forall q :: q in p.trace ==> !q.IsWrite()
    ensures p.outcome.Err? ==> p.outcome.error == RequestFailed
    ensures zoneName in p.cache && p.cache[zoneName].info == c1[zoneName].info
    ensures p.outcome.Ok? ==>
      && p.cache[zoneName].dnsRecords.Some?
      && p.outcome.value == SimplifyAll(p.cache[zoneName].dnsRecords.value)
    ensures c1[zoneName].dnsRecords.Some? ==> p.outcome.Ok? && p.cache == c1 && p.trace == []
    ensures var zoneId := c1[zoneName].info.id;
      c1[zoneName].dnsRecords.None? ==>
        && p.trace == [ListRecords(zoneId)]
        && (p.outcome.Ok? <==> zoneId in s.listings)
        && (zoneId in s.listings ==>
              p.cache == c1[zoneName := Zone(c1[zoneName].info, Some(IndexBy(s.listings[zoneId], KeyOf)))])
    ensures CacheKeyed(c1) ==> CacheKeyed(p.cache)
  {
    FetchSteps(c1, s, zoneName);
    if c1[zoneName].dnsRecords.None? then FetchPlan(c1, s, zoneName)
    else Plan([], Ok(SimplifyAll(c1[zoneName].dnsRecords.value)), c1, s)
  }

  /** What the reconciler decided to send for one record. */
  datatype Action =
    | Create(body: Record)
    | Replace(recordId: string, body: Record)
    | Remove(recordId: string)
    | Skip

  function ActionRequests(zoneId: string, a: Action): (qs: seq<Request>)
    ensures forall q :: q in qs ==> q.IsWrite()
  {
    match a
    case Create(body) => [CreateRecord(zoneId, body)]
    case Replace(id, body) => [UpdateRecord(zoneId, id, body)]
    case Remove(id) => [DeleteRecord(zoneId, id)]
    case Skip => []
  }

  /** The request each kind of action sends: `ActionRequests` unfolded, a
      proof step for the dispatch lemmas. */
  lemma ActionRequestsCases(zoneId: string, a: Action)
    ensures a.Create? ==> ActionRequests(zoneId, a) == [CreateRecord(zoneId, a.body)]
    ensures a.Replace? ==> ActionRequests(zoneId, a) == [UpdateRecord(zoneId, a.recordId, a.body)]
    ensures a.Remove? ==> ActionRequests(zoneId, a) == [DeleteRecord(zoneId, a.recordId)]
    ensures a.Skip? ==> ActionRequests(zoneId, a) == []
  {
  }

  /** An action's requests are all writes. */
  lemma ActionWrites(zoneId: string, a: Action)
    ensures Writes(ActionRequests(zoneId, a)) == ActionRequests(zoneId, a)
  {
    var qs := ActionRequests(zoneId, a);
    if qs != [] {
      assert qs[1..] == [];
    }
  }

  /** The server after the action, or None when the server refuses it. */
  function Perform(s: ServerState, zoneId: string, a: Action): Option<ServerState> {
    var qs := ActionRequests(zoneId, a);
    if qs == [] then Some(s) else Apply(s, qs[0])
  }

  /** Send the action's request, then refresh the zone's records. */
  function Dispatch(trace: seq<Request>, cache: map<string, Zone>, s: ServerState,
                    zoneName: string, zoneId: string, a: Action): (p: Plan)
    requires zoneName in cache
    ensures Writes(p.trace) == Writes(trace) + ActionRequests(zoneId, a)
    ensures trace + ActionRequests(zoneId, a) <= p.trace
    ensures p.server == s || Some(p.server) == Perform(s, zoneId, a)
    ensures p.outcome.Err? ==> p.outcome.error == RequestFailed
    ensures p.outcome.Ok? ==>
      && Perform(s, zoneId, a) == Some(p.server)
      && zoneName in p.cache && p.cache[zoneName].dnsRecords.Some?
      && Keyed(p.cache[zoneName].dnsRecords.value)
      && p.outcome.value == SimplifyAll(p.cache[zoneName].dnsRecords.value)
    ensures zoneName in p.cache && p.cache[zoneName].info == cache[zoneName].info
    ensures CacheKeyed(cache) ==> CacheKeyed(p.cache)
  {
    var t := trace + ActionRequests(zoneId, a);
    WritesAppend(trace, ActionRequests(zoneId, a));
    ActionWrites(zoneId, a);
    var s2 := Perform(s, zoneId, a);
    if s2.None? then Plan(t, Err(RequestFailed), cache, s)
    else
      var fin := FetchPlan(cache, s2.value, zoneName);
      WritesAppend(t, fin.trace);
      NoWrites(fin.trace);
      Plan(t + fin.trace, fin.outcome, fin.cache, s2.value)
  }

  /** A dispatch whose write the server performs is that write followed by
      a fetch against the new server state. */
  lemma DispatchPerformed(trace: seq<Request>, cache: map<string, Zone>, s: ServerState,
                          zoneName: string, zoneId: string, a: Action, s2: ServerState)
    requires zoneName in cache && Perform(s, zoneId, a) == Some(s2)
    ensures var fin := FetchPlan(cache, s2, zoneName);
      Dispatch(trace, cache, s, zoneName, zoneId, a)
        == Plan(trace + ActionRequests(zoneId, a) + fin.trace, fin.outcome, fin.cache, s2)
  {
  }

  /** A dispatch after requests that wrote nothing writes exactly the action's requests. */
  lemma DispatchWrites(trace: seq<Request>, cache: map<string, Zone>, s: ServerState,
                       zoneName: string, zoneId: string, a: Action)
    requires zoneName in cache && Writes(trace) == []
    ensures Writes(Dispatch(trace, cache, s, zoneName, zoneId, a).trace) == ActionRequests(zoneId, a)
  {
    assert [] + ActionRequests(zoneId, a) == ActionRequests(zoneId, a);
  }

  /** The (name, type) key of a record that has both. */
  function RecordKey(r: Record): Key
    requires r.name.Some? && r.rtype.Some?
  {
    Key(r.name.value, r.rtype.value)
  }

  /** The caller's record once the cached id has been copied onto it. */
  function Stamped(cached: map<Key, RemoteRecord>, rec: Record): Record
    requires rec.name.Some? && rec.rtype.Some?
  {
    var k := RecordKey(rec);
    if k in cached then rec.(id := Some(cached[k].id)) else rec
  }

  /** The merge decision: create when the key is not cached; otherwise copy
      the cached id onto the record and update by that id unless the record
      is then equal to the cached simplified one. */
  function Merged(cached: map<Key, RemoteRecord>, rec: Record): Action
    requires rec.name.Some? && rec.rtype.Some?
  {
    var k := RecordKey(rec);
    if k !in cached then Create(rec)
    else
      var sent := Stamped(cached, rec);
      if sent != Simplify(cached[k]) then Replace(cached[k].id, sent) else Skip
  }

  /** The requests of the merge decision for a valid record. */
  lemma MergedRequests(cached: map<Key, RemoteRecord>, rec: Record, zoneId: string)
    requires Valid(rec) && Keyed(cached)
    ensures var k := RecordKey(rec);
      ActionRequests(zoneId, Merged(cached, rec)) ==
        if k !in cached then [CreateRecord(zoneId, rec)]
        else if SameFields(rec, cached[k]) then []
        else [UpdateRecord(zoneId, cached[k].id, rec.(id := Some(cached[k].id)))]
  {
    MergedDecides(cached, rec);
  }

  /** A record agrees with a listed one on every field the simplified view compares. */
  predicate SameFields(rec: Record, r: RemoteRecord) {
    && rec.content == Some(r.content)
    && rec.ttl == Some(r.ttl)
    && rec.priority == r.priority
    && rec.proxied == Some(r.proxied)
  }

  /** For a valid record the decision is: create when its key is not cached,
      nothing when it agrees with the cached record field by field, and
      otherwise one update addressed by the cached id. */
  lemma MergedDecides(cached: map<Key, RemoteRecord>, rec: Record)
    requires Valid(rec) && Keyed(cached)
    ensures var k := RecordKey(rec);
      Merged(cached, rec) ==
        if k !in cached then Create(rec)
        else if SameFields(rec, cached[k]) then Skip
        else Replace(cached[k].id, rec.(id := Some(cached[k].id)))
  {
    if rec.id.Some? || rec.extra != {} {
      IdOrExtraKeyInvalidates(rec);
    }
    var k := RecordKey(rec);
    if k in cached {
      var sent := rec.(id := Some(cached[k].id));
      assert KeyOf(cached[k]) == k;
      assert sent == Simplify(cached[k]) <==> SameFields(rec, cached[k]);
    }
  }
}
