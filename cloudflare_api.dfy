/** The first client variant: a validator that answers true or false, and a
    `DNSRecords` object whose `get`, `merge` and `delete` keep its two-level
    cache (zone name to zone, zone to records keyed by (name, type)) in step
    with the provider. */
module CloudflareApi {
  import opened Wrappers
  import opened DnsModel
  import opened Validation
  import opened Remote
  import opened Reconcile

  /** The validator of this variant: true exactly when the record is valid. */
  method CheckRecord(record: Record) returns (recordPass: bool)
    ensures recordPass <==> Valid(record)
  {
    var violations := Audit(record);
    recordPass := violations == [];
  }

  /** The inner `{"dns_records": ...}` dictionary of a zone's view. */
  datatype RecordsView = RecordsView(dnsRecords: map<Key, Record>)

  /** A record view wrapped under its zone name, as this variant returns it. */
  function Wrapped(zoneName: string, r: Result<map<Key, Record>, Error>): Result<map<string, RecordsView>, Error> {
    match r
    case Ok(v) => Ok(map[zoneName := RecordsView(v)])
    case Err(e) => Err(e)
  }

  /** What `merge` and `delete` do before deciding: bootstrap the zones if the
      cache is empty, reject an unknown zone, then fetch the zone's records
      unless they are cached already. */
  function Prelude(cache: map<string, Zone>, s: ServerState, zoneName: string): (p: Plan)
    ensures p.server == s
    ensures Writes(p.trace) == []
    ensures p.outcome.Err? ==> p.outcome.error == ZoneNotFound || p.outcome.error == RequestFailed
    ensures p.outcome.Err? && p.outcome.error == ZoneNotFound <==> zoneName !in Booted(cache, s)
    ensures zoneName in Booted(cache, s) ==>
      zoneName in p.cache && p.cache[zoneName].info == Booted(cache, s)[zoneName].info
    ensures p.outcome.Ok? ==>
      && zoneName in p.cache && p.cache[zoneName].dnsRecords.Some?
      && p.outcome.value == SimplifyAll(p.cache[zoneName].dnsRecords.value)
    ensures CacheKeyed(cache) ==> CacheKeyed(p.cache)
  {
    var c1 := Booted(cache, s);
    NoWrites(BootTrace(cache));
    if zoneName !in c1 then Plan(BootTrace(cache), Err(ZoneNotFound), c1, s)
    else
      var pre := Prepared(c1, s, zoneName);
      NoWrites(BootTrace(cache) + pre.trace);
      pre.(trace := BootTrace(cache) + pre.trace)
  }

  /** The prelude step by step: the bootstrap, the zone lookup, and the
      fetch of records never fetched. */
  lemma PreludeSteps(cache: map<string, Zone>, s: ServerState, zoneName: string)
    ensures var p := Prelude(cache, s, zoneName);
      var c1 := Booted(cache, s);
      && BootTrace(cache) <= p.trace
      && (zoneName !in c1 ==> p.trace == BootTrace(cache) && p.outcome == Err(ZoneNotFound) && p.cache == c1)
      && (zoneName in c1 && c1[zoneName].dnsRecords.None? ==>
            var f := FetchPlan(c1, s, zoneName);
            p.trace == BootTrace(cache) + f.trace && p.outcome == f.outcome && p.cache == f.cache)
      && (zoneName in c1 && c1[zoneName].dnsRecords.Some? ==>
            p.trace == BootTrace(cache) && p.outcome.Ok? && p.cache == c1)
  {
  }

  /** `merge`: reject an unknown zone, fetch the zone's records if they were
      never fetched, reject an invalid record, then create, update or skip
      against the cached records and refresh. */
  function MergePlan(cache: map<string, Zone>, s: ServerState, zoneName: string, rec: Record): (p: Plan)
  {
    var pre := Prelude(cache, s, zoneName);
    if pre.outcome.Err? then pre
    else if !Valid(rec) then pre.(outcome := Err(InvalidRecord))
    else
      Dispatch(pre.trace, pre.cache, s, zoneName, pre.cache[zoneName].info.id,
               Merged(pre.cache[zoneName].dnsRecords.value, rec))
  }

  /** The caller's record after `merge`: the cached id is copied onto it when
      its key is cached. */
  function MergeSent(cache: map<string, Zone>, s: ServerState, zoneName: string, rec: Record): Record {
    var pre := Prelude(cache, s, zoneName);
    if pre.outcome.Ok? && Valid(rec) then Stamped(pre.cache[zoneName].dnsRecords.value, rec) else rec
  }

  /** A non-empty string: the only ids `delete` acts on. */
  predicate Truthy(id: Option<string>) {
    id.Some? && id.value != ""
  }

  /** The id `delete` addresses: the cached record's id when the (name, type)
      key is cached, otherwise the id passed in. */
  function ResolvedId(cached: map<Key, RemoteRecord>, recordId: Option<string>,
                      name: Option<string>, rtype: Option<string>): Option<string>
  {
    if name.Some? && rtype.Some? && Key(name.value, rtype.value) in cached then
      Some(cached[Key(name.value, rtype.value)].id)
    else recordId
  }

  /** `delete`: reject an unknown zone, fetch the zone's records if they were
      never fetched, delete by the resolved id when it is truthy, and refresh. */
  function DeletePlan(cache: map<string, Zone>, s: ServerState, zoneName: string,
                      recordId: Option<string>, name: Option<string>, rtype: Option<string>): (p: Plan)
  {
    var pre := Prelude(cache, s, zoneName);
    if pre.outcome.Err? then pre
    else
      var id := ResolvedId(pre.cache[zoneName].dnsRecords.value, recordId, name, rtype);
      Dispatch(pre.trace, pre.cache, s, zoneName, pre.cache[zoneName].info.id,
               if Truthy(id) then Remove(id.value) else Skip)
  }

  /** `merge` on an unknown zone or an invalid record fails without any write. */
  lemma MergeRejectsWithoutWrites(cache: map<string, Zone>, s: ServerState, zoneName: string, rec: Record)
    requires zoneName !in Booted(cache, s) || !Valid(rec)
    ensures var p := MergePlan(cache, s, zoneName, rec);
      && p.outcome.Err? && Writes(p.trace) == [] && p.server == s
      && (zoneName !in Booted(cache, s) ==> p.outcome.error == ZoneNotFound)
      && (zoneName in Booted(cache, s) ==> p.outcome.error == InvalidRecord || p.outcome.error == RequestFailed)
  {
    if zoneName !in Booted(cache, s) {
      NoWrites(BootTrace(cache));
    }
  }

  /** For a valid record and a known zone whose records are at hand, `merge`
      writes exactly once to create an uncached key, not at all when the
      cached record agrees field by field, and otherwise exactly once to
      update the cached id; the record it sends then carries that id. */
  lemma MergeDispatches(cache: map<string, Zone>, s: ServerState, zoneName: string, rec: Record)
    requires CacheKeyed(cache) && Valid(rec) && Prelude(cache, s, zoneName).outcome.Ok?
    ensures var pre := Prelude(cache, s, zoneName);
      var cached := pre.cache[zoneName].dnsRecords.value;
      var zoneId := pre.cache[zoneName].info.id;
      var k := Key(rec.name.value, rec.rtype.value);
      && Writes(MergePlan(cache, s, zoneName, rec).trace) ==
           (if k !in cached then [CreateRecord(zoneId, rec)]
            else if SameFields(rec, cached[k]) then []
            else [UpdateRecord(zoneId, cached[k].id, rec.(id := Some(cached[k].id)))])
      && MergeSent(cache, s, zoneName, rec) == (if k in cached then rec.(id := Some(cached[k].id)) else rec)
  {
    var pre := Prelude(cache, s, zoneName);
    var cached := pre.cache[zoneName].dnsRecords.value;
    var zoneId := pre.cache[zoneName].info.id;
    var a := Merged(cached, rec);
    assert MergePlan(cache, s, zoneName, rec) == Dispatch(pre.trace, pre.cache, s, zoneName, zoneId, a);
    DispatchWrites(pre.trace, pre.cache, s, zoneName, zoneId, a);
    MergedRequests(cached, rec, zoneId);
    MergedDecides(cached, rec);
  }

  /** `delete` on an unknown zone fails without any write. */
  lemma DeleteRejectsUnknownZone(cache: map<string, Zone>, s: ServerState, zoneName: string,
                                 recordId: Option<string>, name: Option<string>, rtype: Option<string>)
    requires zoneName !in Booted(cache, s)
    ensures var p := DeletePlan(cache, s, zoneName, recordId, name, rtype);
      p.outcome == Err(ZoneNotFound) && Writes(p.trace) == [] && p.server == s
  {
  }

  /** `delete` on a known zone whose records are at hand: for a cached
      (name, type) its only write is one DELETE of the cached id (when that id
      is non-empty), whatever id is passed in; otherwise one DELETE of the id
      passed in when it is a non-empty string, and no write when it is not.
      It fails only when a request does. */
  lemma DeleteDispatches(cache: map<string, Zone>, s: ServerState, zoneName: string,
                         recordId: Option<string>, name: Option<string>, rtype: Option<string>)
    requires Prelude(cache, s, zoneName).outcome.Ok?
    ensures var pre := Prelude(cache, s, zoneName);
      var cached := pre.cache[zoneName].dnsRecords.value;
      var zoneId := pre.cache[zoneName].info.id;
      var p := DeletePlan(cache, s, zoneName, recordId, name, rtype);
      && (name.Some? && rtype.Some? && Key(name.value, rtype.value) in cached ==>
            var id := cached[Key(name.value, rtype.value)].id;
            Writes(p.trace) == (if id != "" then [DeleteRecord(zoneId, id)] else []))
      && (!(name.Some? && rtype.Some? && Key(name.value, rtype.value) in cached) ==>
            Writes(p.trace) ==
              (if recordId.Some? && recordId.value != "" then [DeleteRecord(zoneId, recordId.value)] else []))
      && (p.outcome.Err? ==> p.outcome.error == RequestFailed)
  {
    DeleteResolvedWrites(cache, s, zoneName, recordId, name, rtype);
  }

  /** The writes of `delete` in terms of the resolved id: a proof step for
      `DeleteDispatches`. */
  lemma DeleteResolvedWrites(cache: map<string, Zone>, s: ServerState, zoneName: string,
                             recordId: Option<string>, name: Option<string>, rtype: Option<string>)
    requires Prelude(cache, s, zoneName).outcome.Ok?
    ensures var pre := Prelude(cache, s, zoneName);
      var id := ResolvedId(pre.cache[zoneName].dnsRecords.value, recordId, name, rtype);
      var p := DeletePlan(cache, s, zoneName, recordId, name, rtype);
      && Writes(p.trace) == (if Truthy(id) then [DeleteRecord(pre.cache[zoneName].info.id, id.value)] else [])
      && (p.outcome.Err? ==> p.outcome.error == RequestFailed)
  {
    var pre := Prelude(cache, s, zoneName);
    var zoneId := pre.cache[zoneName].info.id;
    var id := ResolvedId(pre.cache[zoneName].dnsRecords.value, recordId, name, rtype);
    var a := if Truthy(id) then Remove(id.value) else Skip;
    assert DeletePlan(cache, s, zoneName, recordId, name, rtype) == Dispatch(pre.trace, pre.cache, s, zoneName, zoneId, a);
    DispatchWrites(pre.trace, pre.cache, s, zoneName, zoneId, a);
    ActionRequestsCases(zoneId, a);
  }

  /** `MergePlan` begins with the prelude, and stops there when it fails: a proof
      step for `DNSRecords.Merge`. */
  lemma MergeBeginsWithPrelude(cache: map<string, Zone>, s: ServerState, zoneName: string, rec: Record)
    ensures Prelude(cache, s, zoneName).trace <= MergePlan(cache, s, zoneName, rec).trace
    ensures Prelude(cache, s, zoneName).outcome.Err? ==>
      MergePlan(cache, s, zoneName, rec) == Prelude(cache, s, zoneName)
  {
  }

  /** `DeletePlan` begins with the prelude, and stops there when it fails: a proof
      step for `DNSRecords.Delete`. */
  lemma DeleteBeginsWithPrelude(cache: map<string, Zone>, s: ServerState, zoneName: string,
                                recordId: Option<string>, name: Option<string>, rtype: Option<string>)
    ensures Prelude(cache, s, zoneName).trace <= DeletePlan(cache, s, zoneName, recordId, name, rtype).trace
    ensures Prelude(cache, s, zoneName).outcome.Err? ==>
      DeletePlan(cache, s, zoneName, recordId, name, rtype) == Prelude(cache, s, zoneName)
  {
  }

  /** `DeletePlan` once the prelude has succeeded and the decision is made:
      a proof step for `DNSRecords.Delete`. */
  lemma DeletePlanDispatches(cache: map<string, Zone>, s: ServerState, zoneName: string,
                             recordId: Option<string>, name: Option<string>, rtype: Option<string>, action: Action)
    requires Prelude(cache, s, zoneName).outcome.Ok?
    requires var id := ResolvedId(Prelude(cache, s, zoneName).cache[zoneName].dnsRecords.value, recordId, name, rtype);
      action == if Truthy(id) then Remove(id.value) else Skip
    ensures var pre := Prelude(cache, s, zoneName);
      DeletePlan(cache, s, zoneName, recordId, name, rtype)
        == Dispatch(pre.trace, pre.cache, s, zoneName, pre.cache[zoneName].info.id, action)
  {
  }

  /** The client object: the cache and the connection it talks over. */
  class DNSRecords {
    /** Zone name to zone; each zone gains its record map once fetched. */
    var dnsRecords: map<string, Zone>
    const remote: Server

    ghost predicate Inv()
      reads this
    {
      CacheKeyed(dnsRecords)
    }

    /** A new client starts with an empty cache. */
    constructor (server: Server)
      ensures dnsRecords == map[] && remote == server && Inv()
    {
      dnsRecords := map[];
      remote := server;
    }

    /** The simplified view of every cached zone. */
    method SimplifiedZones() returns (output: map<string, ZoneSummary>)
      ensures output.Keys == dnsRecords.Keys
      ensures forall n :: n in output ==> output[n] == Summarize(dnsRecords[n])
    {
      output := map[];
      var todo := dnsRecords.Keys;
      while todo != {}
        invariant todo <= dnsRecords.Keys
        invariant output.Keys == dnsRecords.Keys - todo
        invariant forall n :: n in output ==> output[n] == Summarize(dnsRecords[n])
        decreases todo
      {
        var zoneName :| zoneName in todo;
        var record := dnsRecords[zoneName].info;
        output := output[zoneName := ZoneSummary(record.id, record.name, record.status)];
        todo := todo - {zoneName};
      }
    }

    /** The simplified view of one zone's cached records, wrapped under the
        zone's name. */
    method SimplifiedDnsRecords(zoneName: string) returns (output: map<string, RecordsView>)
      requires zoneName in dnsRecords && dnsRecords[zoneName].dnsRecords.Some?
      ensures output == map[zoneName := RecordsView(SimplifyAll(dnsRecords[zoneName].dnsRecords.value))]
    {
      var records := dnsRecords[zoneName].dnsRecords.value;
      var simplified: map<Key, Record> := map[];
      var todo := records.Keys;
      while todo != {}
        invariant todo <= records.Keys
        invariant simplified.Keys == records.Keys - todo
        invariant forall k :: k in simplified ==> simplified[k] == Simplify(records[k])
        decreases todo
      {
        var key :| key in todo;
        var record := records[key];
        if record.priority.Some? {
          simplified := simplified[key := Record(Some(record.rtype), Some(record.name), Some(record.content),
            Some(record.ttl), record.priority, Some(record.proxied), Some(record.id), {})];
        } else {
          simplified := simplified[key := Record(Some(record.rtype), Some(record.name), Some(record.content),
            Some(record.ttl), None, Some(record.proxied), Some(record.id), {})];
        }
        todo := todo - {key};
      }
      assert simplified == SimplifyAll(records);
      output := map[zoneName := RecordsView(simplified)];
    }

    /** `zones`: replace the whole cache by the zone listing keyed by name. */
    method Zones() returns (res: Result<map<string, ZoneSummary>, Error>)
      requires Inv()
      modifies this, remote`log
      ensures Inv()
      ensures remote.log == old(remote.log) + [ListZones]
      ensures res.Ok? ==>
        && dnsRecords == ZoneCache(remote.state.zones)
        && res.value.Keys == dnsRecords.Keys
        && forall n :: n in res.value ==> res.value[n] == Summarize(dnsRecords[n])
      ensures res.Err? ==> res.error == RequestFailed && dnsRecords == old(dnsRecords)
    {
      var response := remote.GetZones();
      if response.None? {
        res := Err(RequestFailed);
        return;
      }
      var zones := ZonesByName(response.value);
      dnsRecords := zones;
      var output := SimplifiedZones();
      res := Ok(output);
    }

    /** The bootstrap every zone-scoped call starts with: list the zones when
        the cache is empty. */
    method Boot() returns (ok: bool)
      requires Inv()
      modifies this, remote`log
      ensures Inv()
      ensures remote.log == old(remote.log) + BootTrace(old(dnsRecords))
      ensures ok ==> dnsRecords == Booted(old(dnsRecords), remote.state)
      ensures !ok ==> dnsRecords == old(dnsRecords) && old(dnsRecords) == map[]
    {
      ok := true;
      if dnsRecords == map[] {
        var z := Zones();
        ok := z.Ok?;
      }
    }

    /** The listing and keying step of `get`, for a zone the cache holds. */
    method FetchRecords(zoneName: string) returns (ok: bool)
      requires Inv() && zoneName in dnsRecords
      modifies this, remote`log
      ensures Inv()
      ensures remote.log == old(remote.log) + [ListRecords(old(dnsRecords)[zoneName].info.id)]
      ensures var zoneId := old(dnsRecords)[zoneName].info.id;
        ok ==> (&& zoneId in remote.state.listings
                && dnsRecords == old(dnsRecords)[zoneName := Zone(old(dnsRecords)[zoneName].info,
                                                                  Some(IndexBy(remote.state.listings[zoneId], KeyOf)))])
      ensures !ok ==> dnsRecords == old(dnsRecords)
    {
      var zoneId := dnsRecords[zoneName].info.id;
      var response := remote.GetRecords(zoneId);
      if response.None? {
        return false;
      }
      var records := RecordsByKey(response.value);
      CacheKeyedStore(dnsRecords, zoneName, Zone(dnsRecords[zoneName].info, Some(records)));
      dnsRecords := dnsRecords[zoneName := Zone(dnsRecords[zoneName].info, Some(records))];
      ok := true;
    }

    /** `get`: fetch one zone's records into the cache and return their view. */
    method Get(zoneName: string) returns (res: Result<map<string, RecordsView>, Error>, ghost issued: seq<Request>)
      requires Inv()
      modifies this, remote`log
      ensures Inv()
      ensures var p := FetchPlan(old(dnsRecords), old(remote.state), zoneName);
        && remote.log == old(remote.log) + issued
        && issued <= p.trace
        && (res.Ok? || res.error != RequestFailed ==>
              issued == p.trace && res == Wrapped(zoneName, p.outcome) && dnsRecords == p.cache)
        && (res == Err(RequestFailed) ==>
              || (old(dnsRecords) == map[] && issued == [ListZones] && dnsRecords == old(dnsRecords))
              || (issued == p.trace && dnsRecords == Booted(old(dnsRecords), old(remote.state))))
    {
      ghost var cache0, s0 := dnsRecords, remote.state;
      FetchSteps(cache0, s0, zoneName);
      var booted := Boot();
      issued := BootTrace(cache0);
      if !booted {
        res := Err(RequestFailed);
        return;
      }
      if zoneName !in dnsRecords {
        res := Err(ZoneNotFound);
        return;
      }
      ghost var zoneId := dnsRecords[zoneName].info.id;
      var fetched := FetchRecords(zoneName);
      issued := issued + [ListRecords(zoneId)];
      if !fetched {
        res := Err(RequestFailed);
        return;
      }
      var output := SimplifiedDnsRecords(zoneName);
      res := Ok(output);
    }

    /** The prelude of `merge` and `delete`: bootstrap the zones if the cache
        is empty, reject an unknown zone, fetch its records if never fetched. */
    method Prepare(zoneName: string) returns (res: Outcome<Error>, ghost issued: seq<Request>)
      requires Inv()
      modifies this, remote`log
      ensures Inv()
      ensures var p := Prelude(old(dnsRecords), old(remote.state), zoneName);
        && remote.log == old(remote.log) + issued
        && issued <= p.trace
        && (res.Pass? || res.error != RequestFailed ==>
              && issued == p.trace && dnsRecords == p.cache
              && (res.Pass? <==> p.outcome.Ok?)
              && (res.Fail? ==> res.error == p.outcome.error))
        && (res == Fail(RequestFailed) ==>
              || (old(dnsRecords) == map[] && issued == [ListZones] && dnsRecords == old(dnsRecords))
              || (issued == p.trace && dnsRecords == Booted(old(dnsRecords), old(remote.state))))
    {
      ghost var cache0, s0, log0 := dnsRecords, remote.state, remote.log;
      PreludeSteps(cache0, s0, zoneName);
      var booted := Boot();
      issued := BootTrace(cache0);
      if !booted {
        res := Fail(RequestFailed);
        return;
      }
      if zoneName !in dnsRecords {
        res := Fail(ZoneNotFound);
        return;
      }
      if dnsRecords[zoneName].dnsRecords.None? {
        assert Booted(dnsRecords, s0) == dnsRecords && BootTrace(dnsRecords) == [];
        var g, fetched := Get(zoneName);
        SeqAssoc(log0, issued, fetched);
        issued := issued + fetched;
        if g.Err? {
          res := Fail(g.error);
          return;
        }
      }
      res := Pass;
    }

    /** Sends the write an action stands for, if any. */
    method Submit(zoneId: string, action: Action) returns (ok: bool)
      modifies remote
      ensures remote.log == old(remote.log) + ActionRequests(zoneId, action)
      ensures ok ==> Perform(old(remote.state), zoneId, action) == Some(remote.state)
      ensures !ok ==> remote.state == old(remote.state)
    {
      match action
      case Create(body) => ok := remote.Send(CreateRecord(zoneId, body));
      case Replace(recordId, body) => ok := remote.Send(UpdateRecord(zoneId, recordId, body));
      case Remove(recordId) => ok := remote.Send(DeleteRecord(zoneId, recordId));
      case Skip => ok := true;
    }

    /** Sends the action's write, if any, then refreshes the zone's records:
        the tail `merge` and `delete` share. */
    method SubmitAndRefresh(zoneName: string, zoneId: string, action: Action, ghost trace: seq<Request>)
      returns (res: Result<map<string, RecordsView>, Error>, ghost issued: seq<Request>)
      requires Inv() && zoneName in dnsRecords
      modifies this, remote
      ensures Inv()
      ensures var p := Dispatch(trace, old(dnsRecords), old(remote.state), zoneName, zoneId, action);
        && remote.log == old(remote.log) + issued
        && trace + issued <= p.trace
        && (remote.state == old(remote.state) || remote.state == p.server)
        && (res.Ok? || res.error != RequestFailed ==>
              && trace + issued == p.trace && res == Wrapped(zoneName, p.outcome)
              && dnsRecords == p.cache && remote.state == p.server)
        && (res == Err(RequestFailed) ==>
              && dnsRecords == old(dnsRecords)
              && (|| (issued == ActionRequests(zoneId, action) && remote.state == old(remote.state))
                  || (trace + issued == p.trace && remote.state == p.server)))
    {
      ghost var cache0, s0 := dnsRecords, remote.state;
      var ok := Submit(zoneId, action);
      issued := ActionRequests(zoneId, action);
      if !ok {
        res := Err(RequestFailed);
        return;
      }
      DispatchPerformed(trace, cache0, s0, zoneName, zoneId, action, remote.state);
      ghost var refreshed;
      res, refreshed := Get(zoneName);
      issued := issued + refreshed;
      SeqAssoc(trace, ActionRequests(zoneId, action), refreshed);
    }

    /** `merge`: bring one record into line with the caller's version. The
        caller's dictionary gains the cached id when its key is cached; that
        changed record is returned as `sent`. */
    method Merge(zoneName: string, newRecord: Record)
      returns (res: Result<map<string, RecordsView>, Error>, sent: Record, ghost issued: seq<Request>)
      requires Inv()
      modifies this, remote
      ensures Inv()
      ensures var p := MergePlan(old(dnsRecords), old(remote.state), zoneName, newRecord);
        && remote.log == old(remote.log) + issued
        && issued <= p.trace
        && (remote.state == old(remote.state) || remote.state == p.server)
        && (res.Ok? || res.error != RequestFailed ==>
              && issued == p.trace && res == Wrapped(zoneName, p.outcome)
              && dnsRecords == p.cache && remote.state == p.server
              && sent == MergeSent(old(dnsRecords), old(remote.state), zoneName, newRecord))
      ensures res == Err(RequestFailed) ==>
        || dnsRecords == old(dnsRecords)
        || dnsRecords == Booted(old(dnsRecords), old(remote.state))
        || dnsRecords == Prelude(old(dnsRecords), old(remote.state), zoneName).cache
    {
      ghost var cache0, s0, log0 := dnsRecords, remote.state, remote.log;
      ghost var pre := Prelude(cache0, s0, zoneName);
      sent := newRecord;
      var prepared;
      prepared, issued := Prepare(zoneName);
      if prepared.Fail? {
        res := Err(prepared.error);
        MergeBeginsWithPrelude(cache0, s0, zoneName, newRecord);
        return;
      }
      assert dnsRecords == pre.cache && issued == pre.trace && remote.state == s0;
      var zoneId := dnsRecords[zoneName].info.id;
      var recordPass := CheckRecord(newRecord);
      if !recordPass {
        res := Err(InvalidRecord);
        return;
      }
      var oldRecords := SimplifiedDnsRecords(zoneName);
      var cachedView := oldRecords[zoneName].dnsRecords;
      var key := Key(newRecord.name.value, newRecord.rtype.value);
      var action;
      if key in cachedView {
        sent := newRecord.(id := cachedView[key].id);
        if sent != cachedView[key] {
          action := Replace(sent.id.value, sent);
        } else {
          action := Skip;
        }
      } else {
        action := Create(newRecord);
      }
      assert action == Merged(pre.cache[zoneName].dnsRecords.value, newRecord);
      assert sent == MergeSent(cache0, s0, zoneName, newRecord);
      assert MergePlan(cache0, s0, zoneName, newRecord) == Dispatch(pre.trace, pre.cache, s0, zoneName, zoneId, action);
      ghost var tail;
      res, tail := SubmitAndRefresh(zoneName, zoneId, action, issued);
      SeqAssoc(log0, issued, tail);
      issued := issued + tail;
    }

    /** `delete`: remove one record, addressed by its (name, type) when that
        is cached and by the id passed in otherwise; nothing is deleted when
        no truthy id results. */
    method Delete(zoneName: string, dnsRecordId: Option<string>, dnsRecordName: Option<string>,
                  dnsRecordType: Option<string>)
      returns (res: Result<map<string, RecordsView>, Error>, ghost issued: seq<Request>)
      requires Inv()
      modifies this, remote
      ensures Inv()
      ensures var p := DeletePlan(old(dnsRecords), old(remote.state), zoneName, dnsRecordId, dnsRecordName, dnsRecordType);
        && remote.log == old(remote.log) + issued
        && issued <= p.trace
        && (remote.state == old(remote.state) || remote.state == p.server)
        && (res.Ok? || res.error != RequestFailed ==>
              && issued == p.trace && res == Wrapped(zoneName, p.outcome)
              && dnsRecords == p.cache && remote.state == p.server)
      ensures res == Err(RequestFailed) ==>
        || dnsRecords == old(dnsRecords)
        || dnsRecords == Booted(old(dnsRecords), old(remote.state))
        || dnsRecords == Prelude(old(dnsRecords), old(remote.state), zoneName).cache
    {
      ghost var cache0, s0 := dnsRecords, remote.state;
      ghost var pre := Prelude(cache0, s0, zoneName);
      ghost var log0 := remote.log;
      var prepared;
      prepared, issued := Prepare(zoneName);
      if prepared.Fail? {
        res := Err(prepared.error);
        DeleteBeginsWithPrelude(cache0, s0, zoneName, dnsRecordId, dnsRecordName, dnsRecordType);
        return;
      }
      assert dnsRecords == pre.cache && issued == pre.trace && remote.state == s0;
      var records := dnsRecords[zoneName].dnsRecords.value;
      var recordId := ResolvedId(records, dnsRecordId, dnsRecordName, dnsRecordType);
      var action := if Truthy(recordId) then Remove(recordId.value) else Skip;
      var zoneId := dnsRecords[zoneName].info.id;
      DeletePlanDispatches(cache0, s0, zoneName, dnsRecordId, dnsRecordName, dnsRecordType, action);
      ghost var tail;
      res, tail := SubmitAndRefresh(zoneName, zoneId, action, issued);
      SeqAssoc(log0, issued, tail);
      issued := issued + tail;
    }
  }
}
