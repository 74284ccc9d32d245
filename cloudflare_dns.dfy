/** The second client variant: a validator that raises instead of answering,
    and a `CloudflareDNS` object whose `get_records`, `insert_record`,
    `update_record` and `delete_record` always start from a fresh fetch of
    the zone's records and end with another. */
module CloudflareDns {
  import opened Wrappers
  import opened DnsModel
  import opened Validation
  import opened Remote
  import opened Reconcile

  /** The validator of this variant: it returns normally for a valid record
      and raises otherwise; the failure carries the problems it reports. */
  method CheckRecord(record: Record) returns (outcome: Outcome<seq<Violation>>)
    ensures outcome.Pass? <==> Valid(record)
    ensures outcome.Fail? ==> outcome.error != [] && forall v :: v in outcome.error <==> Violates(record, v)
  {
    var violations := Audit(record);
    if violations != [] {
      outcome := Fail(violations);
    } else {
      outcome := Pass;
    }
  }

  /** `insert_record`: fetch the zone's records, reject an invalid record and
      a key that is already there, otherwise create it and refresh. */
  function InsertPlan(cache: map<string, Zone>, s: ServerState, zoneName: string, rec: Record): (p: Plan)
  {
    var pre := FetchPlan(cache, s, zoneName);
    if pre.outcome.Err? then pre
    else if !Valid(rec) then pre.(outcome := Err(InvalidRecord))
    else if RecordKey(rec) in pre.outcome.value then pre.(outcome := Err(DuplicateRecord))
    else Dispatch(pre.trace, pre.cache, s, zoneName, pre.cache[zoneName].info.id, Create(rec))
  }

  /** `update_record`: fetch the zone's records, reject an invalid record and
      a key that is not there, otherwise update or skip as `merge` does, and
      refresh. */
  function UpdatePlan(cache: map<string, Zone>, s: ServerState, zoneName: string, rec: Record): (p: Plan)
  {
    var pre := FetchPlan(cache, s, zoneName);
    if pre.outcome.Err? then pre
    else if !Valid(rec) then pre.(outcome := Err(InvalidRecord))
    else if RecordKey(rec) !in pre.outcome.value then pre.(outcome := Err(RecordNotFound))
    else
      Dispatch(pre.trace, pre.cache, s, zoneName, pre.cache[zoneName].info.id,
               Merged(pre.cache[zoneName].dnsRecords.value, rec))
  }

  /** The caller's record after `update_record`: it carries the id of the
      record it updates. */
  function UpdateSent(cache: map<string, Zone>, s: ServerState, zoneName: string, rec: Record): Record {
    var pre := FetchPlan(cache, s, zoneName);
    if pre.outcome.Ok? && Valid(rec) && RecordKey(rec) in pre.outcome.value then
      Stamped(pre.cache[zoneName].dnsRecords.value, rec)
    else rec
  }

  /** `delete_record`: fetch the zone's records, delete the record of the
      given (name, type) if there is one, and refresh. */
  function DeleteRecordPlan(cache: map<string, Zone>, s: ServerState, zoneName: string,
                            name: string, rtype: string): (p: Plan)
  {
    var pre := FetchPlan(cache, s, zoneName);
    if pre.outcome.Err? then pre
    else
      var records := pre.cache[zoneName].dnsRecords.value;
      var key := Key(name, rtype);
      Dispatch(pre.trace, pre.cache, s, zoneName, pre.cache[zoneName].info.id,
               if key in pre.outcome.value then Remove(records[key].id) else Skip)
  }

  /** `InsertPlan` begins with the fetch, and stops there when it fails: a proof
      step for `CloudflareDNS.InsertRecord`. */
  lemma InsertBeginsWithFetch(cache: map<string, Zone>, s: ServerState, zoneName: string, rec: Record)
    ensures FetchPlan(cache, s, zoneName).trace <= InsertPlan(cache, s, zoneName, rec).trace
    ensures FetchPlan(cache, s, zoneName).outcome.Err? ==>
      InsertPlan(cache, s, zoneName, rec) == FetchPlan(cache, s, zoneName)
  {
  }

  /** `UpdatePlan` begins with the fetch, and stops there when it fails: a proof
      step for `CloudflareDNS.UpdateRecord`. */
  lemma UpdateBeginsWithFetch(cache: map<string, Zone>, s: ServerState, zoneName: string, rec: Record)
    ensures FetchPlan(cache, s, zoneName).trace <= UpdatePlan(cache, s, zoneName, rec).trace
    ensures FetchPlan(cache, s, zoneName).outcome.Err? ==>
      UpdatePlan(cache, s, zoneName, rec) == FetchPlan(cache, s, zoneName)
  {
  }

  /** `DeleteRecordPlan` begins with the fetch, and stops there when it fails: a proof
      step for `CloudflareDNS.DeleteRecord`. */
  lemma DeleteRecordBeginsWithFetch(cache: map<string, Zone>, s: ServerState, zoneName: string,
                                    name: string, rtype: string)
    ensures FetchPlan(cache, s, zoneName).trace <= DeleteRecordPlan(cache, s, zoneName, name, rtype).trace
    ensures FetchPlan(cache, s, zoneName).outcome.Err? ==>
      DeleteRecordPlan(cache, s, zoneName, name, rtype) == FetchPlan(cache, s, zoneName)
  {
  }

  /** `insert_record` on a zone it can fetch writes nothing for an invalid
      record or a key already fetched, and otherwise exactly one POST of the
      record. */
  lemma InsertDispatches(cache: map<string, Zone>, s: ServerState, zoneName: string, rec: Record)
    requires FetchPlan(cache, s, zoneName).outcome.Ok?
    ensures var pre := FetchPlan(cache, s, zoneName);
      var p := InsertPlan(cache, s, zoneName, rec);
      && (!Valid(rec) ==> p.outcome == Err(InvalidRecord) && Writes(p.trace) == [])
      && (Valid(rec) && RecordKey(rec) in pre.outcome.value ==>
            p.outcome == Err(DuplicateRecord) && Writes(p.trace) == [] && p.server == s)
      && (Valid(rec) && RecordKey(rec) !in pre.outcome.value ==>
            Writes(p.trace) == [CreateRecord(pre.cache[zoneName].info.id, rec)])
  {
    var pre := FetchPlan(cache, s, zoneName);
    NoWrites(pre.trace);
  }

  /** `update_record` on a zone it can fetch writes nothing for an invalid
      record or a key that is not there; for a key that is there it writes
      nothing and succeeds, the server unchanged, when the record agrees with
      the fetched one field by field, and otherwise sends exactly one PUT to
      the fetched id; the record it sends carries that id. */
  lemma UpdateDispatches(cache: map<string, Zone>, s: ServerState, zoneName: string, rec: Record)
    requires FetchPlan(cache, s, zoneName).outcome.Ok?
    ensures var pre := FetchPlan(cache, s, zoneName);
      var p := UpdatePlan(cache, s, zoneName, rec);
      && (!Valid(rec) ==> p.outcome == Err(InvalidRecord) && Writes(p.trace) == [])
      && (Valid(rec) && RecordKey(rec) !in pre.outcome.value ==>
            p.outcome == Err(RecordNotFound) && Writes(p.trace) == [] && p.server == s)
      && (Valid(rec) && RecordKey(rec) in pre.outcome.value ==>
            var cached := pre.cache[zoneName].dnsRecords.value[RecordKey(rec)];
            && UpdateSent(cache, s, zoneName, rec).id == Some(cached.id)
            && Writes(p.trace) ==
                 (if SameFields(rec, cached) then []
                  else [UpdateRecord(pre.cache[zoneName].info.id, cached.id, rec.(id := Some(cached.id)))])
            && (SameFields(rec, cached) ==> p.outcome.Ok? && p.server == s))
  {
    var pre := FetchPlan(cache, s, zoneName);
    NoWrites(pre.trace);
    if Valid(rec) && RecordKey(rec) in pre.outcome.value {
      UpdateFound(cache, s, zoneName, rec);
      if SameFields(rec, pre.cache[zoneName].dnsRecords.value[RecordKey(rec)]) {
        UpdateAgrees(cache, s, zoneName, rec);
      }
    }
  }

  /** The case of a valid record that agrees with the fetched record of its
      key: the update is skipped and the refresh succeeds. */
  lemma UpdateAgrees(cache: map<string, Zone>, s: ServerState, zoneName: string, rec: Record)
    requires FetchPlan(cache, s, zoneName).outcome.Ok? && Valid(rec)
    requires var records := FetchPlan(cache, s, zoneName).cache[zoneName].dnsRecords.value;
      RecordKey(rec) in records && SameFields(rec, records[RecordKey(rec)])
    ensures var p := UpdatePlan(cache, s, zoneName, rec);
      p.outcome.Ok? && p.server == s
  {
    var pre := FetchPlan(cache, s, zoneName);
    var records := pre.cache[zoneName].dnsRecords.value;
    var zoneId := pre.cache[zoneName].info.id;
    MergedDecides(records, rec);
    assert UpdatePlan(cache, s, zoneName, rec) == Dispatch(pre.trace, pre.cache, s, zoneName, zoneId, Skip);
    DispatchPerformed(pre.trace, pre.cache, s, zoneName, zoneId, Skip, s);
    FetchTouchesOnlyItsZone(cache, s, zoneName);
    assert Booted(pre.cache, s) == pre.cache;
    FetchSteps(pre.cache, s, zoneName);
  }

  /** The case of a valid record whose key was fetched: the writes. */
  lemma UpdateFound(cache: map<string, Zone>, s: ServerState, zoneName: string, rec: Record)
    requires FetchPlan(cache, s, zoneName).outcome.Ok? && Valid(rec)
    requires RecordKey(rec) in FetchPlan(cache, s, zoneName).outcome.value
    ensures var pre := FetchPlan(cache, s, zoneName);
      var cached := pre.cache[zoneName].dnsRecords.value[RecordKey(rec)];
      Writes(UpdatePlan(cache, s, zoneName, rec).trace) ==
           (if SameFields(rec, cached) then []
            else [UpdateRecord(pre.cache[zoneName].info.id, cached.id, rec.(id := Some(cached.id)))])
  {
    var pre := FetchPlan(cache, s, zoneName);
    var records := pre.cache[zoneName].dnsRecords.value;
    var zoneId := pre.cache[zoneName].info.id;
    NoWrites(pre.trace);
    var a := Merged(records, rec);
    assert UpdatePlan(cache, s, zoneName, rec) == Dispatch(pre.trace, pre.cache, s, zoneName, zoneId, a);
    DispatchWrites(pre.trace, pre.cache, s, zoneName, zoneId, a);
    MergedRequests(records, rec, zoneId);
  }

  /** `delete_record` on a zone it can fetch writes exactly one DELETE to the
      fetched id when the key is there; when it is not, it writes nothing and
      succeeds unless a request fails. */
  lemma DeleteRecordDispatches(cache: map<string, Zone>, s: ServerState, zoneName: string,
                               name: string, rtype: string)
    requires FetchPlan(cache, s, zoneName).outcome.Ok?
    ensures var pre := FetchPlan(cache, s, zoneName);
      var p := DeleteRecordPlan(cache, s, zoneName, name, rtype);
      var records := pre.cache[zoneName].dnsRecords.value;
      var key := Key(name, rtype);
      && (key in records ==> Writes(p.trace) == [DeleteRecord(pre.cache[zoneName].info.id, records[key].id)])
      && (key !in records ==> Writes(p.trace) == [] && p.outcome.Ok? && p.server == s)
  {
    var pre := FetchPlan(cache, s, zoneName);
    if Key(name, rtype) in pre.cache[zoneName].dnsRecords.value {
      DeleteRecordFound(cache, s, zoneName, name, rtype);
    } else {
      DeleteRecordAbsent(cache, s, zoneName, name, rtype);
    }
  }

  /** The case of a fetched key: one DELETE of its id. */
  lemma DeleteRecordFound(cache: map<string, Zone>, s: ServerState, zoneName: string,
                          name: string, rtype: string)
    requires FetchPlan(cache, s, zoneName).outcome.Ok?
    requires Key(name, rtype) in FetchPlan(cache, s, zoneName).cache[zoneName].dnsRecords.value
    ensures var pre := FetchPlan(cache, s, zoneName);
      Writes(DeleteRecordPlan(cache, s, zoneName, name, rtype).trace)
        == [DeleteRecord(pre.cache[zoneName].info.id, pre.cache[zoneName].dnsRecords.value[Key(name, rtype)].id)]
  {
    var pre := FetchPlan(cache, s, zoneName);
    var zoneId := pre.cache[zoneName].info.id;
    var a := Remove(pre.cache[zoneName].dnsRecords.value[Key(name, rtype)].id);
    NoWrites(pre.trace);
    assert DeleteRecordPlan(cache, s, zoneName, name, rtype) == Dispatch(pre.trace, pre.cache, s, zoneName, zoneId, a);
    DispatchWrites(pre.trace, pre.cache, s, zoneName, zoneId, a);
    ActionRequestsCases(zoneId, a);
  }

  /** The case of a key not fetched: no write, and the refresh succeeds. */
  lemma DeleteRecordAbsent(cache: map<string, Zone>, s: ServerState, zoneName: string,
                           name: string, rtype: string)
    requires FetchPlan(cache, s, zoneName).outcome.Ok?
    requires Key(name, rtype) !in FetchPlan(cache, s, zoneName).cache[zoneName].dnsRecords.value
    ensures var p := DeleteRecordPlan(cache, s, zoneName, name, rtype);
      Writes(p.trace) == [] && p.outcome.Ok? && p.server == s
  {
    var pre := FetchPlan(cache, s, zoneName);
    var zoneId := pre.cache[zoneName].info.id;
    NoWrites(pre.trace);
    assert DeleteRecordPlan(cache, s, zoneName, name, rtype) == Dispatch(pre.trace, pre.cache, s, zoneName, zoneId, Skip);
    DispatchPerformed(pre.trace, pre.cache, s, zoneName, zoneId, Skip, s);
    FetchTouchesOnlyItsZone(cache, s, zoneName);
    assert Booted(pre.cache, s) == pre.cache;
    FetchSteps(pre.cache, s, zoneName);
  }

  /** The client object: the cache and the connection it talks over. */
  class CloudflareDNS {
    /** Zone name to zone; each zone gains its record map once fetched. */
    var dnsRecords: map<string, Zone>
    const remote: Server

    ghost predicate Inv()
      reads this
    {
      CacheKeyed(dnsRecords)
    }

    /** A new client starts with an empty cache. */
    constructor (server: Server)
      ensures dnsRecords == map[] && remote == server && Inv()
    {
      dnsRecords := map[];
      remote := server;
    }

    /** The simplified view of every cached zone. */
    method SimplifiedZones() returns (output: map<string, ZoneSummary>)
      ensures output.Keys == dnsRecords.Keys
      ensures forall n :: n in output ==> output[n] == Summarize(dnsRecords[n])
    {
      output := map[];
      var todo := dnsRecords.Keys;
      while todo != {}
        invariant todo <= dnsRecords.Keys
        invariant output.Keys == dnsRecords.Keys - todo
        invariant forall n :: n in output ==> output[n] == Summarize(dnsRecords[n])
        decreases todo
      {
        var zoneName :| zoneName in todo;
        var record := dnsRecords[zoneName].info;
        output := output[zoneName := ZoneSummary(record.id, record.name, record.status)];
        todo := todo - {zoneName};
      }
    }

    /** The simplified view of one zone's cached records, as a flat map: each
        entry is built without priority, which is added when the listed record
        has one. */
    method SimplifiedDnsRecords(zoneName: string) returns (output: map<Key, Record>)
      requires zoneName in dnsRecords && dnsRecords[zoneName].dnsRecords.Some?
      ensures output == SimplifyAll(dnsRecords[zoneName].dnsRecords.value)
    {
      var records := dnsRecords[zoneName].dnsRecords.value;
      output := map[];
      var todo := records.Keys;
      while todo != {}
        invariant todo <= records.Keys
        invariant output.Keys == records.Keys - todo
        invariant forall k :: k in output ==> output[k] == Simplify(records[k])
        decreases todo
      {
        var key :| key in todo;
        var record := records[key];
        var entry := Record(Some(record.rtype), Some(record.name), Some(record.content),
                            Some(record.ttl), None, Some(record.proxied), Some(record.id), {});
        if record.priority.Some? {
          entry := entry.(priority := record.priority);
        }
        output := output[key := entry];
        todo := todo - {key};
      }
    }

    /** `get_zones`: replace the whole cache by the zone listing keyed by name. */
    method GetZones() returns (res: Result<map<string, ZoneSummary>, Error>)
      requires Inv()
      modifies this, remote`log
      ensures Inv()
      ensures remote.log == old(remote.log) + [ListZones]
      ensures res.Ok? ==>
        && dnsRecords == ZoneCache(remote.state.zones)
        && res.value.Keys == dnsRecords.Keys
        && forall n :: n in res.value ==> res.value[n] == Summarize(dnsRecords[n])
      ensures res.Err? ==> res.error == RequestFailed && dnsRecords == old(dnsRecords)
    {
      var response := remote.GetZones();
      if response.None? {
        res := Err(RequestFailed);
        return;
      }
      var zones := ZonesByName(response.value);
      dnsRecords := zones;
      var output := SimplifiedZones();
      res := Ok(output);
    }

    /** The bootstrap of `get_records`: list the zones when the cache is empty. */
    method Boot() returns (ok: bool)
      requires Inv()
      modifies this, remote`log
      ensures Inv()
      ensures remote.log == old(remote.log) + BootTrace(old(dnsRecords))
      ensures ok ==> dnsRecords == Booted(old(dnsRecords), remote.state)
      ensures !ok ==> dnsRecords == old(dnsRecords) && old(dnsRecords) == map[]
    {
      ok := true;
      if dnsRecords == map[] {
        var z := GetZones();
        ok := z.Ok?;
      }
    }

    /** The listing and keying step of `get_records`, for a zone the cache holds. */
    method FetchRecords(zoneName: string) returns (ok: bool)
      requires Inv() && zoneName in dnsRecords
      modifies this, remote`log
      ensures Inv()
      ensures remote.log == old(remote.log) + [ListRecords(old(dnsRecords)[zoneName].info.id)]
      ensures var zoneId := old(dnsRecords)[zoneName].info.id;
        ok ==> (&& zoneId in remote.state.listings
                && dnsRecords == old(dnsRecords)[zoneName := Zone(old(dnsRecords)[zoneName].info,
                                                                  Some(IndexBy(remote.state.listings[zoneId], KeyOf)))])
      ensures !ok ==> dnsRecords == old(dnsRecords)
    {
      var zoneId := dnsRecords[zoneName].info.id;
      var response := remote.GetRecords(zoneId);
      if response.None? {
        return false;
      }
      var records := RecordsByKey(response.value);
      CacheKeyedStore(dnsRecords, zoneName, Zone(dnsRecords[zoneName].info, Some(records)));
      dnsRecords := dnsRecords[zoneName := Zone(dnsRecords[zoneName].info, Some(records))];
      ok := true;
    }

    /** `get_records`: fetch one zone's records into the cache and return their view. */
    method GetRecords(zoneName: string) returns (res: Result<map<Key, Record>, Error>, ghost issued: seq<Request>)
      requires Inv()
      modifies this, remote`log
      ensures Inv()
      ensures var p := FetchPlan(old(dnsRecords), old(remote.state), zoneName);
        && remote.log == old(remote.log) + issued
        && issued <= p.trace
        && (res.Ok? || res.error != RequestFailed ==>
              issued == p.trace && res == p.outcome && dnsRecords == p.cache)
        && (res == Err(RequestFailed) ==>
              || (old(dnsRecords) == map[] && issued == [ListZones] && dnsRecords == old(dnsRecords))
              || (issued == p.trace && dnsRecords == Booted(old(dnsRecords), old(remote.state))))
    {
      ghost var cache0, s0 := dnsRecords, remote.state;
      FetchSteps(cache0, s0, zoneName);
      var booted := Boot();
      issued := BootTrace(cache0);
      if !booted {
        res := Err(RequestFailed);
        return;
      }
      if zoneName !in dnsRecords {
        res := Err(ZoneNotFound);
        return;
      }
      ghost var zoneId := dnsRecords[zoneName].info.id;
      var fetched := FetchRecords(zoneName);
      issued := issued + [ListRecords(zoneId)];
      if !fetched {
        res := Err(RequestFailed);
        return;
      }
      var output := SimplifiedDnsRecords(zoneName);
      res := Ok(output);
    }

    /** Sends the write an action stands for, if any. */
    method Submit(zoneId: string, action: Action) returns (ok: bool)
      modifies remote
      ensures remote.log == old(remote.log) + ActionRequests(zoneId, action)
      ensures ok ==> Perform(old(remote.state), zoneId, action) == Some(remote.state)
      ensures !ok ==> remote.state == old(remote.state)
    {
      match action
      case Create(body) => ok := remote.Send(Request.CreateRecord(zoneId, body));
      case Replace(recordId, body) => ok := remote.Send(Request.UpdateRecord(zoneId, recordId, body));
      case Remove(recordId) => ok := remote.Send(Request.DeleteRecord(zoneId, recordId));
      case Skip => ok := true;
    }

    /** Sends the action's write, if any, then refreshes the zone's records:
        the tail the three writing operations share. */
    method SubmitAndRefresh(zoneName: string, zoneId: string, action: Action, ghost trace: seq<Request>)
      returns (res: Result<map<Key, Record>, Error>, ghost issued: seq<Request>)
      requires Inv() && zoneName in dnsRecords
      modifies this, remote
      ensures Inv()
      ensures var p := Dispatch(trace, old(dnsRecords), old(remote.state), zoneName, zoneId, action);
        && remote.log == old(remote.log) + issued
        && trace + issued <= p.trace
        && (remote.state == old(remote.state) || remote.state == p.server)
        && (res.Ok? || res.error != RequestFailed ==>
              && trace + issued == p.trace && res == p.outcome
              && dnsRecords == p.cache && remote.state == p.server)
        && (res == Err(RequestFailed) ==>
              && dnsRecords == old(dnsRecords)
              && (|| (issued == ActionRequests(zoneId, action) && remote.state == old(remote.state))
                  || (trace + issued == p.trace && remote.state == p.server)))
    {
      ghost var cache0, s0 := dnsRecords, remote.state;
      var ok := Submit(zoneId, action);
      issued := ActionRequests(zoneId, action);
      if !ok {
        res := Err(RequestFailed);
        return;
      }
      DispatchPerformed(trace, cache0, s0, zoneName, zoneId, action, remote.state);
      ghost var refreshed;
      res, refreshed := GetRecords(zoneName);
      issued := issued + refreshed;
      SeqAssoc(trace, ActionRequests(zoneId, action), refreshed);
    }

    /** `insert_record`: create a record whose key the zone does not have yet. */
    method InsertRecord(zoneName: string, newRecord: Record)
      returns (res: Result<map<Key, Record>, Error>, ghost issued: seq<Request>)
      requires Inv()
      modifies this, remote
      ensures Inv()
      ensures var p := InsertPlan(old(dnsRecords), old(remote.state), zoneName, newRecord);
        && remote.log == old(remote.log) + issued
        && issued <= p.trace
        && (remote.state == old(remote.state) || remote.state == p.server)
        && (res.Ok? || res.error != RequestFailed ==>
              && issued == p.trace && res == p.outcome
              && dnsRecords == p.cache && remote.state == p.server)
      ensures res == Err(RequestFailed) ==>
        || dnsRecords == old(dnsRecords)
        || dnsRecords == Booted(old(dnsRecords), old(remote.state))
        || dnsRecords == FetchPlan(old(dnsRecords), old(remote.state), zoneName).cache
    {
      ghost var cache0, s0, log0 := dnsRecords, remote.state, remote.log;
      ghost var pre := FetchPlan(cache0, s0, zoneName);
      var oldRecords;
      oldRecords, issued := GetRecords(zoneName);
      if oldRecords.Err? {
        res := Err(oldRecords.error);
        InsertBeginsWithFetch(cache0, s0, zoneName, newRecord);
        return;
      }
      assert dnsRecords == pre.cache && issued == pre.trace && oldRecords == pre.outcome;
      var zoneId := dnsRecords[zoneName].info.id;
      var checked := CheckRecord(newRecord);
      if checked.Fail? {
        res := Err(InvalidRecord);
        return;
      }
      var key := Key(newRecord.name.value, newRecord.rtype.value);
      if key in oldRecords.value {
        res := Err(DuplicateRecord);
        return;
      }
      assert InsertPlan(cache0, s0, zoneName, newRecord) == Dispatch(pre.trace, pre.cache, s0, zoneName, zoneId, Create(newRecord));
      ghost var tail;
      res, tail := SubmitAndRefresh(zoneName, zoneId, Create(newRecord), issued);
      SeqAssoc(log0, issued, tail);
      issued := issued + tail;
    }

    /** `update_record`: bring the record of an existing key into line with
        the caller's version. The caller's dictionary gains the fetched id;
        that changed record is returned as `sent`. */
    method UpdateRecord(zoneName: string, newRecord: Record)
      returns (res: Result<map<Key, Record>, Error>, sent: Record, ghost issued: seq<Request>)
      requires Inv()
      modifies this, remote
      ensures Inv()
      ensures var p := UpdatePlan(old(dnsRecords), old(remote.state), zoneName, newRecord);
        && remote.log == old(remote.log) + issued
        && issued <= p.trace
        && (remote.state == old(remote.state) || remote.state == p.server)
        && (res.Ok? || res.error != RequestFailed ==>
              && issued == p.trace && res == p.outcome
              && dnsRecords == p.cache && remote.state == p.server
              && sent == UpdateSent(old(dnsRecords), old(remote.state), zoneName, newRecord))
      ensures res == Err(RequestFailed) ==>
        || dnsRecords == old(dnsRecords)
        || dnsRecords == Booted(old(dnsRecords), old(remote.state))
        || dnsRecords == FetchPlan(old(dnsRecords), old(remote.state), zoneName).cache
    {
      ghost var cache0, s0, log0 := dnsRecords, remote.state, remote.log;
      ghost var pre := FetchPlan(cache0, s0, zoneName);
      sent := newRecord;
      var oldRecords;
      oldRecords, issued := GetRecords(zoneName);
      if oldRecords.Err? {
        res := Err(oldRecords.error);
        UpdateBeginsWithFetch(cache0, s0, zoneName, newRecord);
        return;
      }
      assert dnsRecords == pre.cache && issued == pre.trace && oldRecords == pre.outcome;
      var zoneId := dnsRecords[zoneName].info.id;
      var checked := CheckRecord(newRecord);
      if checked.Fail? {
        res := Err(InvalidRecord);
        return;
      }
      var key := Key(newRecord.name.value, newRecord.rtype.value);
      if key !in oldRecords.value {
        res := Err(RecordNotFound);
        return;
      }
      sent := newRecord.(id := oldRecords.value[key].id);
      var action := Skip;
      if sent != oldRecords.value[key] {
        action := Replace(sent.id.value, sent);
      }
      assert action == Merged(pre.cache[zoneName].dnsRecords.value, newRecord);
      assert sent == UpdateSent(cache0, s0, zoneName, newRecord);
      assert UpdatePlan(cache0, s0, zoneName, newRecord) == Dispatch(pre.trace, pre.cache, s0, zoneName, zoneId, action);
      ghost var tail;
      res, tail := SubmitAndRefresh(zoneName, zoneId, action, issued);
      SeqAssoc(log0, issued, tail);
      issued := issued + tail;
    }

    /** `delete_record`: delete the record of a (name, type), if the zone has one. */
    method DeleteRecord(zoneName: string, dnsRecordName: string, dnsRecordType: string)
      returns (res: Result<map<Key, Record>, Error>, ghost issued: seq<Request>)
      requires Inv()
      modifies this, remote
      ensures Inv()
      ensures var p := DeleteRecordPlan(old(dnsRecords), old(remote.state), zoneName, dnsRecordName, dnsRecordType);
        && remote.log == old(remote.log) + issued
        && issued <= p.trace
        && (remote.state == old(remote.state) || remote.state == p.server)
        && (res.Ok? || res.error != RequestFailed ==>
              && issued == p.trace && res == p.outcome
              && dnsRecords == p.cache && remote.state == p.server)
      ensures res == Err(RequestFailed) ==>
        || dnsRecords == old(dnsRecords)
        || dnsRecords == Booted(old(dnsRecords), old(remote.state))
        || dnsRecords == FetchPlan(old(dnsRecords), old(remote.state), zoneName).cache
    {
      ghost var cache0, s0, log0 := dnsRecords, remote.state, remote.log;
      ghost var pre := FetchPlan(cache0, s0, zoneName);
      var oldRecords;
      oldRecords, issued := GetRecords(zoneName);
      if oldRecords.Err? {
        res := Err(oldRecords.error);
        DeleteRecordBeginsWithFetch(cache0, s0, zoneName, dnsRecordName, dnsRecordType);
        return;
      }
      assert dnsRecords == pre.cache && issued == pre.trace && oldRecords == pre.outcome;
      var zoneId := dnsRecords[zoneName].info.id;
      var key := Key(dnsRecordName, dnsRecordType);
      var action := Skip;
      if key in oldRecords.value {
        action := Remove(oldRecords.value[key].id.value);
      }
      assert DeleteRecordPlan(cache0, s0, zoneName, dnsRecordName, dnsRecordType)
        == Dispatch(pre.trace, pre.cache, s0, zoneName, zoneId, action);
      ghost var tail;
      res, tail := SubmitAndRefresh(zoneName, zoneId, action, issued);
      SeqAssoc(log0, issued, tail);
      issued := issued + tail;
    }
  }
}
