/** The provider's REST API as the client sees it: the requests it can send,
    an abstract server that answers them, and the log of every request sent.
    Any request may come back with a non-200 status; the server then changes
    nothing. */
module Remote {
  import opened Wrappers
  import opened DnsModel

  /** One HTTP request: the zone listing, a zone's record listing, and the
      create (POST), update (PUT) and delete (DELETE) of one record. */
  datatype Request =
    | ListZones
    | ListRecords(zoneId: string)
    | CreateRecord(zoneId: string, body: Record)
    | UpdateRecord(zoneId: string, recordId: string, body: Record)
    | DeleteRecord(zoneId: string, recordId: string)
  {
    predicate IsWrite() {
      CreateRecord? || UpdateRecord? || DeleteRecord?
    }
  }

  /** The writes among some requests, in order. */
  function Writes(qs: seq<Request>): (ws: seq<Request>)
    ensures |ws| <= |qs|
  {
    if qs == [] then []
    else (if qs[0].IsWrite() then [qs[0]] else []) + Writes(qs[1..])
  }

  lemma {:induction false} WritesAppend(a: seq<Request>, b: seq<Request>)
    ensures Writes(a + b) == Writes(a) + Writes(b)
  {
    if a == [] {
      assert a + b == b;
    } else {
      var head := if a[0].IsWrite() then [a[0]] else [];
      assert (a + b)[0] == a[0] && (a + b)[1..] == a[1..] + b;
      assert Writes(a + b) == head + Writes(a[1..] + b);
      WritesAppend(a[1..], b);
      assert head + (Writes(a[1..]) + Writes(b)) == (head + Writes(a[1..])) + Writes(b);
    }
  }

  /** What the server holds: its zone listing and, per zone id, its record listing. */
  datatype ServerState = ServerState(zones: seq<ZoneInfo>, listings: map<string, seq<RemoteRecord>>)

  /** The fields the server needs to store a record. */
  predicate Complete(body: Record) {
    body.rtype.Some? && body.name.Some? && body.content.Some? && body.ttl.Some?
  }

  /** The record the server stores for a body it accepts; proxied defaults to false. */
  function Materialize(body: Record, id: string): RemoteRecord
    requires Complete(body)
  {
    RemoteRecord(id, body.name.value, body.rtype.value, body.content.value, body.ttl.value,
                 body.proxied.GetOr(false), body.priority, map[])
  }

  function TotalIdLength(rs: seq<RemoteRecord>): nat {
    if rs == [] then 0 else |rs[0].id| + TotalIdLength(rs[1..])
  }

  lemma {:induction false} IdsWithinTotal(rs: seq<RemoteRecord>)
    ensures forall r :: r in rs ==> |r.id| <= TotalIdLength(rs)
  {
    if rs != [] {
      IdsWithinTotal(rs[1..]);
    }
  }

  /** An id the server assigns to a new record: unlike any id in the listing. */
  function FreshId(rs: seq<RemoteRecord>): (id: string)
    ensures forall r :: r in rs ==> r.id != id
  {
    IdsWithinTotal(rs);
    seq(TotalIdLength(rs) + 1, _ => 'r')
  }

  predicate HasId(rs: seq<RemoteRecord>, id: string) {
    exists r :: r in rs && r.id == id
  }

  /** The listing with every record of the given id overwritten. */
  function ReplaceId(rs: seq<RemoteRecord>, id: string, y: RemoteRecord): seq<RemoteRecord> {
    seq(|rs|, i requires 0 <= i < |rs| => if rs[i].id == id then y else rs[i])
  }

  /** The listing without the records of the given id. */
  function RemoveId(rs: seq<RemoteRecord>, id: string): (out: seq<RemoteRecord>)
    ensures forall r :: r in out <==> r in rs && r.id != id
  {
    if rs == [] then []
    else (if rs[0].id == id then [] else [rs[0]]) + RemoveId(rs[1..], id)
  }

  /** No two records of a listing share an id. */
  predicate UniqueIds(rs: seq<RemoteRecord>) {
    forall i, j :: 0 <= i < j < |rs| ==> rs[i].id != rs[j].id
  }

  /** Every listing of the server has unique ids. */
  predicate WellFormed(s: ServerState) {
    forall z :: z in s.listings ==> UniqueIds(s.listings[z])
  }

  /** The server's answer to a request: its new state, or None for a non-200
      status (an unknown zone or record id, or a body it cannot store). */
  function Apply(s: ServerState, q: Request): Option<ServerState> {
    match q
    case ListZones => Some(s)
    case ListRecords(z) => if z in s.listings then Some(s) else None
    case CreateRecord(z, body) =>
      if z in s.listings && Complete(body) then
        var rs := s.listings[z];
        Some(s.(listings := s.listings[z := rs + [Materialize(body, FreshId(rs))]]))
      else None
    case UpdateRecord(z, id, body) =>
      if z in s.listings && Complete(body) && HasId(s.listings[z], id) then
        Some(s.(listings := s.listings[z := ReplaceId(s.listings[z], id, Materialize(body, id))]))
      else None
    case DeleteRecord(z, id) =>
      if z in s.listings && HasId(s.listings[z], id) then
        Some(s.(listings := s.listings[z := RemoveId(s.listings[z], id)]))
      else None
  }

  /** The remote end of the bearer-authenticated HTTP connection. */
  class Server {
    var state: ServerState
    /** Every request sent, in order. */
    ghost var log: seq<Request>

    constructor (initial: ServerState)
      ensures state == initial && log == []
    {
      state := initial;
      log := [];
    }

    /** Sends a request; false stands for a non-200 status or a transport error. */
    method Send(q: Request) returns (ok: bool)
      modifies this
      ensures log == old(log) + [q]
      ensures ok ==> Apply(old(state), q) == Some(state)
      ensures !ok ==> state == old(state)
    {
      var delivered: bool :| true;
      log := log + [q];
      var next := Apply(state, q);
      if delivered && next.Some? {
        state := next.value;
        ok := true;
      } else {
        ok := false;
      }
    }

    /** GET of the zone listing. */
    method GetZones() returns (result: Option<seq<ZoneInfo>>)
      modifies this`log
      ensures log == old(log) + [ListZones]
      ensures result.Some? ==> result.value == state.zones
    {
      var delivered: bool :| true;
      log := log + [ListZones];
      result := if delivered then Some(state.zones) else None;
    }

    /** GET of a zone's record listing. */
    method GetRecords(zoneId: string) returns (result: Option<seq<RemoteRecord>>)
      modifies this`log
      ensures log == old(log) + [ListRecords(zoneId)]
      ensures result.Some? ==> zoneId in state.listings && result.value == state.listings[zoneId]
    {
      var delivered: bool :| true;
      log := log + [ListRecords(zoneId)];
      result := if delivered && zoneId in state.listings then Some(state.listings[zoneId]) else None;
    }
  }
}
