/** The values both client variants work on: record dictionaries as the caller
    writes them, records and zones as the provider's API lists them, the
    client's two-level cache, and the keyed maps the listing loops build. */
module DnsModel {
  import opened Wrappers

  /** The keys the model gives a field of their own. */
  const NamedKeys: set<string> := {"type", "name", "content", "ttl", "priority", "proxied", "id"}

  /** Any other key a record dictionary may carry. */
  type ExtraKey = k: string | k !in NamedKeys witness "comment"

  /** A record dictionary as a caller passes it: every key may be missing, and
      `extra` holds the names of the keys outside the named ones. */
  datatype Record = Record(
    rtype: Option<string>,
    name: Option<string>,
    content: Option<string>,
    ttl: Option<int>,
    priority: Option<int>,
    proxied: Option<bool>,
    id: Option<string>,
    extra: set<ExtraKey>)

  /** The key set of the dictionary a record stands for. */
  function KeySet(r: Record): set<string> {
    (if r.rtype.Some? then {"type"} else {})
    + (if r.name.Some? then {"name"} else {})
    + (if r.content.Some? then {"content"} else {})
    + (if r.ttl.Some? then {"ttl"} else {})
    + (if r.priority.Some? then {"priority"} else {})
    + (if r.proxied.Some? then {"proxied"} else {})
    + (if r.id.Some? then {"id"} else {})
    + r.extra
  }

  /** A record as the provider lists it: every field of the simplified view is
      present, priority only for some records, and `meta` holds the
      provider-internal fields (zone id, creation time, ...). */
  datatype RemoteRecord = RemoteRecord(
    id: string,
    name: string,
    rtype: string,
    content: string,
    ttl: int,
    proxied: bool,
    priority: Option<int>,
    meta: map<string, string>)

  /** The (name, type) pair the cache is keyed by. */
  datatype Key = Key(name: string, rtype: string)

  function KeyOf(r: RemoteRecord): Key {
    Key(r.name, r.rtype)
  }

  /** A zone as the provider lists it. */
  datatype ZoneInfo = ZoneInfo(id: string, name: string, status: string, meta: map<string, string>)

  function NameOf(z: ZoneInfo): string {
    z.name
  }

  /** A cached zone: its listing entry and, once fetched, its records keyed by (name, type). */
  datatype Zone = Zone(info: ZoneInfo, dnsRecords: Option<map<Key, RemoteRecord>>)

  /** The simplified view of a zone. */
  datatype ZoneSummary = ZoneSummary(id: string, name: string, status: string)

  /** A zone's summary: its id, name and status. */
  function Summarize(z: Zone): ZoneSummary {
    ZoneSummary(z.info.id, z.info.name, z.info.status)
  }

  /** The error outcomes of the client; in Python every one of them is the
      RuntimeError of a bare `raise`, told apart only by the message printed. */
  datatype Error =
    | ZoneNotFound
    | InvalidRecord
    | DuplicateRecord
    | RecordNotFound
    | RequestFailed

  /** The keys of a simplified record, apart from priority. */
  const SimplifiedKeys: set<string> := {"id", "name", "type", "content", "ttl", "proxied"}

  /** The simplified view of a listed record. */
  function Simplify(r: RemoteRecord): (s: Record)
    ensures KeySet(s) == SimplifiedKeys + (if r.priority.Some? then {"priority"} else {})
    ensures s.id == Some(r.id) && s.name == Some(r.name) && s.rtype == Some(r.rtype)
    ensures s.content == Some(r.content) && s.ttl == Some(r.ttl) && s.proxied == Some(r.proxied)
    ensures s.priority == r.priority
  {
    Record(Some(r.rtype), Some(r.name), Some(r.content), Some(r.ttl), r.priority,
           Some(r.proxied), Some(r.id), {})
  }

  /** The simplified view of a whole keyed record map. */
  function SimplifyAll(m: map<Key, RemoteRecord>): map<Key, Record> {
    map k | k in m :: Simplify(m[k])
  }

  /** Every entry of the simplified view has the simplified keys, priority
      only where listed, the listed record's id, and the name and type of the
      key it is stored under. */
  lemma SimplifyAllEntries(m: map<Key, RemoteRecord>)
    ensures SimplifyAll(m).Keys == m.Keys
    ensures forall k :: k in m ==>
      && KeySet(SimplifyAll(m)[k]) == SimplifiedKeys + (if m[k].priority.Some? then {"priority"} else {})
      && SimplifyAll(m)[k].id == Some(m[k].id)
      && (KeyOf(m[k]) == k ==> SimplifyAll(m)[k].name == Some(k.name) && SimplifyAll(m)[k].rtype == Some(k.rtype))
  {
  }

  /** The map that storing every element of xs under its key, in order, builds. */
  function IndexBy<K(==), V>(xs: seq<V>, key: V -> K): (m: map<K, V>)
    ensures m.Keys == set x | x in xs :: key(x)
    ensures forall k :: k in m ==> key(m[k]) == k && m[k] in xs
  {
    if xs == [] then map[]
    else
      var init := xs[..|xs| - 1];
      assert forall x :: x in init ==> x in xs;
      assert xs == init + [xs[|xs| - 1]];
      IndexBy(init, key)[key(xs[|xs| - 1]) := xs[|xs| - 1]]
  }

  /** Position i holds the last element of xs whose key is k. */
  ghost predicate LastWith<K, V>(xs: seq<V>, key: V -> K, k: K, i: int) {
    0 <= i < |xs| && key(xs[i]) == k && forall j :: i < j < |xs| ==> key(xs[j]) != k
  }

  /** The entry for a key is the last listed element with that key. */
  lemma {:induction false} IndexByLastWins<K, V>(xs: seq<V>, key: V -> K, k: K)
    requires k in IndexBy(xs, key)
    ensures exists i :: LastWith(xs, key, k, i) && IndexBy(xs, key)[k] == xs[i]
  {
    var n := |xs| - 1;
    var init := xs[..n];
    assert IndexBy(xs, key) == IndexBy(init, key)[key(xs[n]) := xs[n]];
    if key(xs[n]) == k {
      assert LastWith(xs, key, k, n);
    } else {
      IndexByLastWins(init, key, k);
      var i :| LastWith(init, key, k, i) && IndexBy(init, key)[k] == init[i];
      forall j | i < j < |xs|
        ensures key(xs[j]) != k
      {
        if j < n {
          assert key(init[j]) != k;
          assert xs[j] == init[j];
        } else {
          assert j == n;
        }
      }
      assert xs[i] == init[i];
      assert LastWith(xs, key, k, i);
    }
  }

  /** Conversely, the last element listed with a key is that key's entry. */
  lemma {:induction false} IndexByAt<K, V>(xs: seq<V>, key: V -> K, i: int)
    requires 0 <= i < |xs| && LastWith(xs, key, key(xs[i]), i)
    ensures key(xs[i]) in IndexBy(xs, key) && IndexBy(xs, key)[key(xs[i])] == xs[i]
  {
    var n := |xs| - 1;
    if i < n {
      var init := xs[..n];
      assert init[i] == xs[i];
      assert LastWith(init, key, key(init[i]), i);
      IndexByAt(init, key, i);
    }
  }

  /** Appending an element adds or overwrites its key. */
  lemma IndexByAppend<K, V>(xs: seq<V>, key: V -> K, x: V)
    ensures IndexBy(xs + [x], key) == IndexBy(xs, key)[key(x) := x]
  {
    assert (xs + [x])[..|xs|] == xs;
  }

  /** Overwriting the last element with some key by another with the same key
      overwrites that key's entry and nothing else. */
  lemma {:induction false} IndexByReplace<K, V>(xs: seq<V>, key: V -> K, p: int, y: V)
    requires 0 <= p < |xs| && LastWith(xs, key, key(y), p)
    ensures IndexBy(xs[p := y], key) == IndexBy(xs, key)[key(y) := y]
  {
    var n := |xs| - 1;
    var ys := xs[p := y];
    if p == n {
      assert ys[..n] == xs[..n];
    } else {
      assert ys[..n] == xs[..n][p := y];
      assert LastWith(xs[..n], key, key(y), p);
      IndexByReplace(xs[..n], key, p, y);
      assert key(xs[n]) != key(y);
    }
  }

  /** The cache `zones()` / `get_zones()` builds from a zone listing: keyed by
      zone name, a later zone overwriting an earlier one of the same name, no
      records attached yet. */
  function ZoneCache(zones: seq<ZoneInfo>): (c: map<string, Zone>)
    ensures c.Keys == set z | z in zones :: z.name
    ensures forall n :: n in c ==> c[n].info in zones && c[n].info.name == n && c[n].dnsRecords.None?
  {
    var m := IndexBy(zones, NameOf);
    map n | n in m :: Zone(m[n], None)
  }

  /** Appending a zone to the listing adds or overwrites its name. */
  lemma ZoneCacheAppend(zones: seq<ZoneInfo>, z: ZoneInfo)
    ensures ZoneCache(zones + [z]) == ZoneCache(zones)[z.name := Zone(z, None)]
  {
    IndexByAppend(zones, NameOf, z);
    var a, b := ZoneCache(zones + [z]), ZoneCache(zones)[z.name := Zone(z, None)];
    assert a.Keys == b.Keys;
    forall n | n in a ensures a[n] == b[n] { }
  }

  /** The zone listing loop: each listed zone is stored under its name, in listing order. */
  method ZonesByName(result: seq<ZoneInfo>) returns (zones: map<string, Zone>)
    ensures zones == ZoneCache(result)
  {
    zones := map[];
    for i := 0 to |result|
      invariant zones == ZoneCache(result[..i])
    {
      assert result[..i + 1] == result[..i] + [result[i]];
      ZoneCacheAppend(result[..i], result[i]);
      zones := zones[result[i].name := Zone(result[i], None)];
    }
    assert result[..|result|] == result;
  }

  /** The record listing loop: each listed record is stored under its (name, type), in listing order. */
  method RecordsByKey(result: seq<RemoteRecord>) returns (dnsRecords: map<Key, RemoteRecord>)
    ensures dnsRecords == IndexBy(result, KeyOf)
  {
    dnsRecords := map[];
    for i := 0 to |result|
      invariant dnsRecords == IndexBy(result[..i], KeyOf)
    {
      assert result[..i + 1] == result[..i] + [result[i]];
      IndexByAppend(result[..i], KeyOf, result[i]);
      dnsRecords := dnsRecords[KeyOf(result[i]) := result[i]];
    }
    assert result[..|result|] == result;
  }
}
