/** What the operations achieve on a server that stores what it is sent:
    an inserted record reads back with the input's fields and a new id, a
    repeated update or merge writes nothing, and a deleted key is gone. */
module RoundTrips {
  import opened Wrappers
  import opened DnsModel
  import opened Validation
  import opened Remote
  import opened Reconcile
  import CloudflareApi
  import CloudflareDns

  /** No two records of a listing share a (name, type). */
  predicate OneRecordPerKey(rs: seq<RemoteRecord>) {
    forall i, j :: 0 <= i < j < |rs| ==> KeyOf(rs[i]) != KeyOf(rs[j])
  }

  /** A valid record carries neither an id nor an extra key. */
  lemma ValidHasNoIdNorExtra(rec: Record)
    requires Valid(rec)
    ensures rec.id.None? && rec.extra == {}
  {
    if rec.id.Some? || rec.extra != {} {
      IdOrExtraKeyInvalidates(rec);
    }
  }

  /** What the server stores for a valid record with `proxied` set reads back
      as that record plus the assigned id, and agrees with it field by field. */
  lemma {:induction false} StoredReadsBack(rec: Record, id: string)
    requires Valid(rec) && rec.proxied.Some?
    ensures Simplify(Materialize(rec, id)) == rec.(id := Some(id))
    ensures SameFields(rec, Materialize(rec, id))
  {
    ValidHasNoIdNorExtra(rec);
  }

  /** Fetching again from the same server changes nothing but sends the
      record listing request again. */
  lemma RefetchIsStable(cache: map<string, Zone>, s: ServerState, zoneName: string)
    requires FetchPlan(cache, s, zoneName).outcome.Ok?
    ensures var p := FetchPlan(cache, s, zoneName);
      var again := FetchPlan(p.cache, s, zoneName);
      && again.outcome == p.outcome && again.cache == p.cache && again.server == s
      && again.trace == [ListRecords(p.cache[zoneName].info.id)]
  {
    var p := FetchPlan(cache, s, zoneName);
    FetchTouchesOnlyItsZone(cache, s, zoneName);
    FetchTouchesOnlyItsZone(p.cache, s, zoneName);
    var c1 := Booted(cache, s);
    var again := FetchPlan(p.cache, s, zoneName);
    assert again.cache.Keys == p.cache.Keys;
    assert again.cache == p.cache;
  }

  /** A dispatch that ends well has sent its write, and its refresh stored
      and returned what the server then lists for the zone. */
  lemma DispatchOk(trace: seq<Request>, cache: map<string, Zone>, s: ServerState,
                   zoneName: string, zoneId: string, a: Action)
    requires zoneName in cache && Dispatch(trace, cache, s, zoneName, zoneId, a).outcome.Ok?
    ensures var p := Dispatch(trace, cache, s, zoneName, zoneId, a);
      var id := cache[zoneName].info.id;
      && Perform(s, zoneId, a) == Some(p.server)
      && id in p.server.listings
      && p.cache == cache[zoneName := Zone(cache[zoneName].info, Some(IndexBy(p.server.listings[id], KeyOf)))]
      && p.outcome == Ok(SimplifyAll(IndexBy(p.server.listings[id], KeyOf)))
  {
    var p := Dispatch(trace, cache, s, zoneName, zoneId, a);
    FetchTouchesOnlyItsZone(cache, p.server, zoneName);
  }

  /** With unique ids, overwriting the record whose id the keyed map holds for
      a key, by a record of the same key and id, overwrites that map entry. */
  lemma {:induction false} ReplacedIsIndexed(rs: seq<RemoteRecord>, y: RemoteRecord)
    requires UniqueIds(rs)
    requires KeyOf(y) in IndexBy(rs, KeyOf) && IndexBy(rs, KeyOf)[KeyOf(y)].id == y.id
    ensures IndexBy(ReplaceId(rs, y.id, y), KeyOf) == IndexBy(rs, KeyOf)[KeyOf(y) := y]
  {
    IndexByLastWins(rs, KeyOf, KeyOf(y));
    var i :| LastWith(rs, KeyOf, KeyOf(y), i) && IndexBy(rs, KeyOf)[KeyOf(y)] == rs[i];
    ReplaceUniqueId(rs, i, y);
    IndexByReplace(rs, KeyOf, i, y);
  }

  /** With unique ids, replacing by id replaces the one record of that id:
      a proof step for `ReplacedIsIndexed`. */
  lemma ReplaceUniqueId(rs: seq<RemoteRecord>, i: int, y: RemoteRecord)
    requires UniqueIds(rs) && 0 <= i < |rs| && rs[i].id == y.id
    ensures ReplaceId(rs, y.id, y) == rs[i := y]
  {
    forall j | 0 <= j < |rs|
      ensures ReplaceId(rs, y.id, y)[j] == rs[i := y][j]
    {
      if j < i {
        assert rs[j].id != rs[i].id;
      } else if i < j {
        assert rs[i].id != rs[j].id;
      }
    }
  }

  /** With one record per key, no record of the key survives the deletion of
      the id the keyed map holds for it. */
  lemma RemovedIsGone(rs: seq<RemoteRecord>, k: Key)
    requires OneRecordPerKey(rs) && k in IndexBy(rs, KeyOf)
    ensures k !in IndexBy(RemoveId(rs, IndexBy(rs, KeyOf)[k].id), KeyOf)
  {
  }

  /** `insert_record` that succeeds on a valid record with `proxied` set
      returns a view in which the record's key holds the input's fields plus
      the id the server assigned. */
  lemma InsertRoundTrip(cache: map<string, Zone>, s: ServerState, zoneName: string, rec: Record)
    requires Valid(rec) && rec.proxied.Some?
    requires CloudflareDns.InsertPlan(cache, s, zoneName, rec).outcome.Ok?
    ensures var view := CloudflareDns.InsertPlan(cache, s, zoneName, rec).outcome.value;
      && RecordKey(rec) in view && view[RecordKey(rec)].id.Some?
      && view[RecordKey(rec)] == rec.(id := view[RecordKey(rec)].id)
  {
    var pre := FetchPlan(cache, s, zoneName);
    var zoneId := pre.cache[zoneName].info.id;
    var p := CloudflareDns.InsertPlan(cache, s, zoneName, rec);
    assert p == Dispatch(pre.trace, pre.cache, s, zoneName, zoneId, Create(rec));
    FetchTouchesOnlyItsZone(cache, s, zoneName);
    var rs := s.listings[zoneId];
    var m := Materialize(rec, FreshId(rs));
    var s1 := s.(listings := s.listings[zoneId := rs + [m]]);
    assert Perform(s, zoneId, Create(rec)) == Some(s1);
    var fin := FetchPlan(pre.cache, s1, zoneName);
    assert p.outcome == fin.outcome;
    FetchTouchesOnlyItsZone(pre.cache, s1, zoneName);
    IndexByAppend(rs, KeyOf, m);
    assert fin.cache[zoneName].dnsRecords.value[RecordKey(rec)] == m;
    StoredReadsBack(rec, FreshId(rs));
  }

  /** The keyed listing is keyed by the key of its records. */
  lemma IndexedIsKeyed(rs: seq<RemoteRecord>)
    ensures Keyed(IndexBy(rs, KeyOf))
  {
  }

  /** A fetch of a zone whose cached records are what the server lists
      changes nothing: it only sends the listing request. */
  lemma FetchInStep(c: map<string, Zone>, s: ServerState, zoneName: string)
    requires zoneName in c && c[zoneName].info.id in s.listings
    requires c[zoneName].dnsRecords == Some(IndexBy(s.listings[c[zoneName].info.id], KeyOf))
    ensures FetchPlan(c, s, zoneName)
      == Plan([ListRecords(c[zoneName].info.id)], Ok(SimplifyAll(c[zoneName].dnsRecords.value)), c, s)
  {
    assert Booted(c, s) == c;
    var id := c[zoneName].info.id;
    assert c[zoneName := c[zoneName].(dnsRecords := Some(IndexBy(s.listings[id], KeyOf)))] == c;
  }

  /** Dispatching nothing for a zone in step with the server sends only the
      refresh and changes nothing. */
  lemma SkipInStep(trace: seq<Request>, c: map<string, Zone>, s: ServerState, zoneName: string, zoneId: string)
    requires zoneName in c && c[zoneName].info.id in s.listings
    requires c[zoneName].dnsRecords == Some(IndexBy(s.listings[c[zoneName].info.id], KeyOf))
    ensures var p := Dispatch(trace, c, s, zoneName, zoneId, Skip);
      && p.outcome == Ok(SimplifyAll(c[zoneName].dnsRecords.value)) && p.cache == c && p.server == s
      && Writes(p.trace) == Writes(trace)
  {
    assert Perform(s, zoneId, Skip) == Some(s);
    DispatchPerformed(trace, c, s, zoneName, zoneId, Skip, s);
    FetchInStep(c, s, zoneName);
    assert Writes(trace) + ActionRequests(zoneId, Skip) == Writes(trace);
  }

  /** Whatever the merge decision for a valid record with `proxied` set,
      once the server has performed it the zone lists a record of the
      record's key that agrees with it field by field. */
  lemma MergedLands(s: ServerState, zoneId: string, rec: Record, s1: ServerState)
    requires WellFormed(s) && zoneId in s.listings && Valid(rec) && rec.proxied.Some?
    requires Perform(s, zoneId, Merged(IndexBy(s.listings[zoneId], KeyOf), rec)) == Some(s1)
    ensures zoneId in s1.listings
    ensures var m := IndexBy(s1.listings[zoneId], KeyOf);
      RecordKey(rec) in m && SameFields(rec, m[RecordKey(rec)])
    ensures var before := IndexBy(s.listings[zoneId], KeyOf);
      RecordKey(rec) in before ==> IndexBy(s1.listings[zoneId], KeyOf)[RecordKey(rec)].id == before[RecordKey(rec)].id
  {
    var rs := s.listings[zoneId];
    var cached := IndexBy(rs, KeyOf);
    var k := RecordKey(rec);
    IndexedIsKeyed(rs);
    MergedDecides(cached, rec);
    if k !in cached {
      CreateLands(s, zoneId, rec, s1);
    } else if SameFields(rec, cached[k]) {
      assert s1 == s;
    } else {
      ReplaceLands(s, zoneId, rec, s1);
    }
  }

  /** A created record is listed under its key with the record's fields. */
  lemma CreateLands(s: ServerState, zoneId: string, rec: Record, s1: ServerState)
    requires zoneId in s.listings && Valid(rec) && rec.proxied.Some?
    requires Perform(s, zoneId, Create(rec)) == Some(s1)
    ensures zoneId in s1.listings
    ensures var m := IndexBy(s1.listings[zoneId], KeyOf);
      RecordKey(rec) in m && SameFields(rec, m[RecordKey(rec)])
  {
    var rs := s.listings[zoneId];
    var m := Materialize(rec, FreshId(rs));
    assert ActionRequests(zoneId, Create(rec)) == [CreateRecord(zoneId, rec)];
    assert s1.listings[zoneId] == rs + [m];
    IndexByAppend(rs, KeyOf, m);
    StoredReadsBack(rec, FreshId(rs));
  }

  /** An update by the cached id of the record's key leaves that key listing
      a record with the record's fields, when ids are unique. */
  lemma ReplaceLands(s: ServerState, zoneId: string, rec: Record, s1: ServerState)
    requires WellFormed(s) && zoneId in s.listings && Valid(rec) && rec.proxied.Some?
    requires RecordKey(rec) in IndexBy(s.listings[zoneId], KeyOf)
    requires var id := IndexBy(s.listings[zoneId], KeyOf)[RecordKey(rec)].id;
      Perform(s, zoneId, Replace(id, rec.(id := Some(id)))) == Some(s1)
    ensures zoneId in s1.listings
    ensures var m := IndexBy(s1.listings[zoneId], KeyOf);
      && RecordKey(rec) in m && SameFields(rec, m[RecordKey(rec)])
      && m[RecordKey(rec)].id == IndexBy(s.listings[zoneId], KeyOf)[RecordKey(rec)].id
  {
    var rs := s.listings[zoneId];
    var id := IndexBy(rs, KeyOf)[RecordKey(rec)].id;
    var y := Materialize(rec.(id := Some(id)), id);
    assert IndexBy(rs, KeyOf)[RecordKey(rec)] in rs;
    PerformReplace(s, zoneId, id, rec.(id := Some(id)));
    assert s1.listings[zoneId] == ReplaceId(rs, id, y);
    ReplacedIsIndexed(rs, y);
    StoredReadsBack(rec, id);
    assert y == Materialize(rec, id);
  }

  /** A second merge decision, taken against what the server lists after the
      first one landed, is to do nothing. */
  lemma SecondDecisionSkips(s1: ServerState, zoneId: string, rec: Record)
    requires Valid(rec) && zoneId in s1.listings
    requires var m := IndexBy(s1.listings[zoneId], KeyOf);
      RecordKey(rec) in m && SameFields(rec, m[RecordKey(rec)])
    ensures Merged(IndexBy(s1.listings[zoneId], KeyOf), rec) == Skip
  {
    IndexedIsKeyed(s1.listings[zoneId]);
    MergedDecides(IndexBy(s1.listings[zoneId], KeyOf), rec);
  }

  /** One successful `update_record` leaves the zone so that a second call
      with the record as first given (without the id the first call stamped
      on it) writes nothing and changes nothing: it only reads. */
  lemma UpdateIsIdempotent(cache: map<string, Zone>, s: ServerState, zoneName: string, rec: Record)
    requires WellFormed(s) && Valid(rec) && rec.proxied.Some?
    requires CloudflareDns.UpdatePlan(cache, s, zoneName, rec).outcome.Ok?
    ensures var p1 := CloudflareDns.UpdatePlan(cache, s, zoneName, rec);
      var p2 := CloudflareDns.UpdatePlan(p1.cache, p1.server, zoneName, rec);
      && Writes(p2.trace) == []
      && p2.outcome == p1.outcome && p2.server == p1.server && p2.cache == p1.cache
  {
    var pre := FetchPlan(cache, s, zoneName);
    var zoneId := pre.cache[zoneName].info.id;
    FetchTouchesOnlyItsZone(cache, s, zoneName);
    var a := Merged(IndexBy(s.listings[zoneId], KeyOf), rec);
    var p1 := CloudflareDns.UpdatePlan(cache, s, zoneName, rec);
    assert p1 == Dispatch(pre.trace, pre.cache, s, zoneName, zoneId, a);
    DispatchOk(pre.trace, pre.cache, s, zoneName, zoneId, a);
    var s1 := p1.server;
    MergedLands(s, zoneId, rec, s1);
    SecondDecisionSkips(s1, zoneId, rec);
    FetchInStep(p1.cache, s1, zoneName);
    var pre2 := FetchPlan(p1.cache, s1, zoneName);
    var p2 := CloudflareDns.UpdatePlan(p1.cache, s1, zoneName, rec);
    assert p2 == Dispatch(pre2.trace, p1.cache, s1, zoneName, zoneId, Skip);
    SkipInStep(pre2.trace, p1.cache, s1, zoneName, zoneId);
    NoWrites(pre2.trace);
  }

  /** A listed record of the record's key that agrees with it field by field
      reads back as the record plus the listed id. */
  lemma AgreeingReadsBack(rec: Record, r: RemoteRecord)
    requires Valid(rec) && KeyOf(r) == RecordKey(rec) && SameFields(rec, r)
    ensures Simplify(r) == rec.(id := Some(r.id))
  {
    ValidHasNoIdNorExtra(rec);
  }

  /** `update_record` that succeeds on a valid record with `proxied` set
      returns a view in which the record's key holds the input's fields plus
      the id of the record it updated. */
  lemma UpdateRoundTrip(cache: map<string, Zone>, s: ServerState, zoneName: string, rec: Record)
    requires WellFormed(s) && Valid(rec) && rec.proxied.Some?
    requires CloudflareDns.UpdatePlan(cache, s, zoneName, rec).outcome.Ok?
    ensures var view := CloudflareDns.UpdatePlan(cache, s, zoneName, rec).outcome.value;
      && RecordKey(rec) in view && view[RecordKey(rec)].id.Some?
      && view[RecordKey(rec)] == rec.(id := view[RecordKey(rec)].id)
    ensures var fetched := FetchPlan(cache, s, zoneName).outcome;
      && fetched.Ok? && RecordKey(rec) in fetched.value
      && CloudflareDns.UpdatePlan(cache, s, zoneName, rec).outcome.value[RecordKey(rec)].id == fetched.value[RecordKey(rec)].id
  {
    var pre := FetchPlan(cache, s, zoneName);
    var zoneId := pre.cache[zoneName].info.id;
    FetchTouchesOnlyItsZone(cache, s, zoneName);
    var a := Merged(IndexBy(s.listings[zoneId], KeyOf), rec);
    var p1 := CloudflareDns.UpdatePlan(cache, s, zoneName, rec);
    assert p1 == Dispatch(pre.trace, pre.cache, s, zoneName, zoneId, a);
    DispatchOk(pre.trace, pre.cache, s, zoneName, zoneId, a);
    MergedLands(s, zoneId, rec, p1.server);
    var m := IndexBy(p1.server.listings[zoneId], KeyOf);
    IndexedIsKeyed(p1.server.listings[zoneId]);
    AgreeingReadsBack(rec, m[RecordKey(rec)]);
  }

  /** The action `delete_record` decides on for a key. */
  function DeleteAction(cached: map<Key, RemoteRecord>, k: Key): Action {
    if k in cached then Remove(cached[k].id) else Skip
  }

  /** Once the server has performed the deletion decided for a key, the zone
      lists no record of that key, provided it held at most one. */
  lemma DeleteLands(s: ServerState, zoneId: string, k: Key, s1: ServerState)
    requires zoneId in s.listings && OneRecordPerKey(s.listings[zoneId])
    requires Perform(s, zoneId, DeleteAction(IndexBy(s.listings[zoneId], KeyOf), k)) == Some(s1)
    ensures zoneId in s1.listings && k !in IndexBy(s1.listings[zoneId], KeyOf)
  {
    var rs := s.listings[zoneId];
    var cached := IndexBy(rs, KeyOf);
    if k in cached {
      var id := cached[k].id;
      assert DeleteAction(cached, k) == Remove(id);
      assert cached[k] in rs;
      PerformRemove(s, zoneId, id);
      RemovedIsGone(rs, k);
    } else {
      assert s1 == s;
    }
  }

  /** The server overwrites the records of a listed id by a complete body:
      `Perform` and `Apply` unfolded, a proof step for `ReplaceLands`. */
  lemma PerformReplace(s: ServerState, zoneId: string, id: string, body: Record)
    requires zoneId in s.listings && HasId(s.listings[zoneId], id) && Complete(body)
    ensures Perform(s, zoneId, Replace(id, body))
      == Some(s.(listings := s.listings[zoneId := ReplaceId(s.listings[zoneId], id, Materialize(body, id))]))
  {
    assert ActionRequests(zoneId, Replace(id, body)) == [UpdateRecord(zoneId, id, body)];
  }

  /** The server deletes a record of a listed id: `Perform` and `Apply`
      unfolded, a proof step for `DeleteLands`. */
  lemma PerformRemove(s: ServerState, zoneId: string, id: string)
    requires zoneId in s.listings && HasId(s.listings[zoneId], id)
    ensures Perform(s, zoneId, Remove(id)) == Some(s.(listings := s.listings[zoneId := RemoveId(s.listings[zoneId], id)]))
  {
    assert ActionRequests(zoneId, Remove(id)) == [DeleteRecord(zoneId, id)];
  }

  /** Once a successful `delete_record` returns, the key is absent from the
      returned view, provided the zone holds at most one record per key. */
  lemma DeleteRemovesKey(cache: map<string, Zone>, s: ServerState, zoneName: string, name: string, rtype: string)
    requires forall z :: z in s.listings ==> OneRecordPerKey(s.listings[z])
    requires CloudflareDns.DeleteRecordPlan(cache, s, zoneName, name, rtype).outcome.Ok?
    ensures Key(name, rtype) !in CloudflareDns.DeleteRecordPlan(cache, s, zoneName, name, rtype).outcome.value
  {
    var pre := FetchPlan(cache, s, zoneName);
    var zoneId := pre.cache[zoneName].info.id;
    FetchTouchesOnlyItsZone(cache, s, zoneName);
    var k := Key(name, rtype);
    var a := DeleteAction(IndexBy(s.listings[zoneId], KeyOf), k);
    var p := CloudflareDns.DeleteRecordPlan(cache, s, zoneName, name, rtype);
    assert p == Dispatch(pre.trace, pre.cache, s, zoneName, zoneId, a);
    DispatchOk(pre.trace, pre.cache, s, zoneName, zoneId, a);
    DeleteLands(s, zoneId, k, p.server);
  }

  /** The cached records of a zone, when there are any, are what the server
      lists for it. */
  ghost predicate InStep(cache: map<string, Zone>, s: ServerState, zoneName: string) {
    zoneName in cache && cache[zoneName].dnsRecords.Some? ==>
      && cache[zoneName].info.id in s.listings
      && cache[zoneName].dnsRecords.value == IndexBy(s.listings[cache[zoneName].info.id], KeyOf)
  }

  /** One successful `merge` of a valid record with `proxied` set, from a
      cache in step with the server, leaves the zone so that a second merge
      of the record as first given (without the id the first call stamped on
      it) writes nothing and returns the same view. */
  lemma MergeIsIdempotent(cache: map<string, Zone>, s: ServerState, zoneName: string, rec: Record)
    requires WellFormed(s) && Valid(rec) && rec.proxied.Some?
    requires InStep(cache, s, zoneName)
    requires CloudflareApi.MergePlan(cache, s, zoneName, rec).outcome.Ok?
    ensures var p1 := CloudflareApi.MergePlan(cache, s, zoneName, rec);
      var p2 := CloudflareApi.MergePlan(p1.cache, p1.server, zoneName, rec);
      && Writes(p2.trace) == []
      && p2.outcome == p1.outcome && p2.server == p1.server && p2.cache == p1.cache
  {
    var pre := CloudflareApi.Prelude(cache, s, zoneName);
    var zoneId := pre.cache[zoneName].info.id;
    PreludeInStep(cache, s, zoneName);
    var a := Merged(IndexBy(s.listings[zoneId], KeyOf), rec);
    var p1 := CloudflareApi.MergePlan(cache, s, zoneName, rec);
    assert p1 == Dispatch(pre.trace, pre.cache, s, zoneName, zoneId, a);
    DispatchOk(pre.trace, pre.cache, s, zoneName, zoneId, a);
    var s1 := p1.server;
    MergedLands(s, zoneId, rec, s1);
    SecondDecisionSkips(s1, zoneId, rec);
    var pre2 := CloudflareApi.Prelude(p1.cache, s1, zoneName);
    assert p1.cache != map[];
    assert pre2.cache == p1.cache && pre2.trace == [];
    var p2 := CloudflareApi.MergePlan(p1.cache, s1, zoneName, rec);
    assert p2 == Dispatch([], p1.cache, s1, zoneName, zoneId, Skip);
    SkipInStep([], p1.cache, s1, zoneName, zoneId);
  }

  /** The prelude of `merge` on a cache in step with the server fetches, or
      finds cached, exactly what the server lists for the zone. */
  lemma PreludeInStep(cache: map<string, Zone>, s: ServerState, zoneName: string)
    requires InStep(cache, s, zoneName)
    requires CloudflareApi.Prelude(cache, s, zoneName).outcome.Ok?
    ensures var pre := CloudflareApi.Prelude(cache, s, zoneName);
      var zoneId := pre.cache[zoneName].info.id;
      && zoneId in s.listings
      && pre.cache[zoneName].dnsRecords.value == IndexBy(s.listings[zoneId], KeyOf)
  {
    var c1 := Booted(cache, s);
    if c1[zoneName].dnsRecords.None? {
      FetchTouchesOnlyItsZone(c1, s, zoneName);
    } else {
      assert cache != map[];
    }
  }
}
