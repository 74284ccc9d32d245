# Cloudflare DNS record client, modelled in Dafny

The repository is a small Python client for the Cloudflare DNS API, in two
near-duplicate variants:

- `DNSRecords`, in `src/cloudflare_dns_api/cloudflare_api.py`, offers
  `zones`, `get`, `merge` and `delete`.
- `CloudflareDNS`, in `CloudflareDNS/cloudflare_dns.py`, offers `get_zones`,
  `get_records`, `insert_record`, `update_record` and `delete_record`.

Each variant has its own `check_record` validator. Each keeps a two-level
cache: zone name maps to the zone as listed, and once the zone's records are
fetched, `(name, type)` maps to the listed record. Each reconciles one desired
record against that cache: it creates (POST), updates (PUT), deletes (DELETE),
skips, or rejects. It then refreshes the zone's records and returns their
simplified view.

This project models that core:

- `wrappers.dfy`: `Option`, `Result` and `Outcome`.
- `dns_model.dfy`: the values.
  - A record dictionary as the caller writes it. Every key is optional, and keys outside the named ones are kept as a set of names.
  - A record and a zone as the provider lists them.
  - The cache.
  - The simplified views.
  - The two listing loops. In both, the last listed element of a key wins.
- `validation.dfy`: the shared validator as a predicate `Valid`. The loop `Audit` reports exactly the violations a record shows.
- `remote.dfy`: the HTTP transport as an abstract server.
  - The server has a zone listing and, per zone id, a record listing.
  - `Apply` gives the server's answer to each request.
  - The class `Server` appends every request to a ghost log. Any request may come back failed, without effect.
- `reconcile.dfy`: what both variants share.
  - The record fetch with its lazy zone bootstrap.
  - The create / update / skip decision against the cached records.
  - The dispatch of a decision followed by a refresh.
  - Each of these is a `Plan`: a function of the cache and server state before the call. It gives the requests sent, the outcome, the new cache and the new server state.
- `cloudflare_api.dfy` and `cloudflare_dns.dfy`: the two client classes.
  - Each method updates the cache field in place and sends its requests through the server object.
  - Each is proved against its plan:
    - The requests sent are a prefix of the plan's.
    - When the call succeeds, or fails for a reason other than a failed request, the whole new state and the result are the plan's.
  - Lemmas beside each plan state the dispatch rules: which writes are sent, if any, and when the call is rejected.
- `round_trips.dfy`: what the operations achieve on a server that stores what it is sent.
  - An inserted record reads back with the input's fields and a new id.
  - An updated record reads back with the input's fields and its old id.
  - A repeated update or merge writes nothing.
  - A deleted key is gone.

Two behaviours of the code worth knowing:

- Both validators reject an `id` key (`cloudflare_api.py:38`). So a record
  dictionary that `merge` or `update_record` has stamped with an id fails
  validation if it is submitted again (`Validation.IdOrExtraKeyInvalidates`).
- `insert_record` always fetches the zone's records before it checks for a
  duplicate (`cloudflare_dns.py:196`). `CloudflareDns.InsertDispatches` proves
  that no write follows that fetch for an invalid or duplicate record.

## Model

| member | source | states |
|---|---|---|
| Validation.Audit | src/cloudflare_dns_api/cloudflare_api.py:36-73 | the validator's checks in order; the violations reported are exactly those the record shows, and there are none exactly when the record is valid |
| Validation.AuditType | src/cloudflare_dns_api/cloudflare_api.py:42-57 | the type and priority checks report exactly the type and priority violations: invalid or missing type, and, for a listed MX/SRV/URI type only, missing or out-of-range priority |
| Validation.AuditFields | src/cloudflare_dns_api/cloudflare_api.py:59-73 | the name, content and ttl checks report exactly the missing name, missing content, missing ttl, and ttl that is neither 1 nor in [60, 86400] |
| Validation.ValidIffNoViolation | src/cloudflare_dns_api/cloudflare_api.py:36-75 | a record is valid if and only if it shows no violation of any kind |
| Validation.IdOrExtraKeyInvalidates | src/cloudflare_dns_api/cloudflare_api.py:37-40 | an `id` key, or any key outside the allowed six, makes a record invalid, and `id` is reported as an invalid key |
| CloudflareApi.CheckRecord | src/cloudflare_dns_api/cloudflare_api.py:13-75 | returns true if and only if the record is valid |
| CloudflareDns.CheckRecord | CloudflareDNS/cloudflare_dns.py:13-77 | returns normally if and only if the record is valid; otherwise fails with a non-empty list of exactly the violations the record shows |
| DnsModel.Simplify | src/cloudflare_dns_api/cloudflare_api.py:150-168 | a simplified record has exactly the keys id, name, type, content, ttl and proxied, plus priority if and only if the listed record has one, with the listed values |
| DnsModel.SimplifyAllEntries | src/cloudflare_dns_api/cloudflare_api.py:148-168 | the view has the record map's keys; every entry has exactly the keys id, name, type, content, ttl and proxied, plus priority exactly when the listed record has one, carries the listed record's id, and, when stored under its own (name, type), names that key |
| DnsModel.IndexBy | src/cloudflare_dns_api/cloudflare_api.py:190-192 | the map the keying loop builds: its keys are exactly the keys of the listed elements, and each entry is a listed element of that key |
| DnsModel.IndexByLastWins | src/cloudflare_dns_api/cloudflare_api.py:191-192 | each entry is the last listed element of its key |
| DnsModel.IndexByAt | src/cloudflare_dns_api/cloudflare_api.py:191-192 | conversely, the last listed element of a key is that key's entry |
| DnsModel.IndexByAppend | src/cloudflare_dns_api/cloudflare_api.py:191-192 | one more listed element adds or overwrites its own key and nothing else |
| DnsModel.ZoneCache | src/cloudflare_dns_api/cloudflare_api.py:174-177 | the cache `zones` builds is keyed by exactly the listed zone names, each zone under its own name, with no records fetched yet |
| DnsModel.ZoneCacheAppend | src/cloudflare_dns_api/cloudflare_api.py:175-176 | a later zone of the same name overwrites an earlier one |
| DnsModel.ZonesByName | src/cloudflare_dns_api/cloudflare_api.py:174-177 | the zone listing loop builds exactly `ZoneCache` of the listing |
| DnsModel.RecordsByKey | src/cloudflare_dns_api/cloudflare_api.py:190-192 | the record listing loop builds exactly the listing keyed by (name, type), the last listed record of a key winning |
| Remote.Server.Send | src/cloudflare_dns_api/cloudflare_api.py:99-133 | a write is logged; if it succeeds, the server's new state is the server's answer to it; if it fails, nothing changes |
| Remote.Server.GetZones | src/cloudflare_dns_api/cloudflare_api.py:87-97 | the zone listing request is logged and, if it succeeds, returns the server's zones |
| Remote.Server.GetRecords | src/cloudflare_dns_api/cloudflare_api.py:87-97 | the record listing request is logged and, if it succeeds, returns the server's listing of that zone id, which must exist |
| Reconcile.FetchPlan | src/cloudflare_dns_api/cloudflare_api.py:181-200 | the record fetch sends only reads and fails exactly for an unknown zone or a failed request; on success it stores a keyed record map for the zone and returns its simplified view; it keeps the cache keyed |
| Reconcile.FetchTouchesOnlyItsZone | src/cloudflare_dns_api/cloudflare_api.py:182-194 | the zones are listed first exactly when the cache is empty; a successful fetch replaces that zone's records by its listing keyed by (name, type) and leaves every other zone and the zone's own entry unchanged |
| Reconcile.FetchSteps | src/cloudflare_dns_api/cloudflare_api.py:182-194 | the fetch step by step: the bootstrap, then the zone lookup, then one listing request and the keyed store |
| Reconcile.Prepared | src/cloudflare_dns_api/cloudflare_api.py:207-208 | records already cached are reused with no request and success; records never fetched cost exactly one listing request for the zone's id, which succeeds exactly when the server lists that id, and then the zone's records become that listing keyed by (name, type) |
| Reconcile.ActionRequests | src/cloudflare_dns_api/cloudflare_api.py:223-237 | the requests a decision sends are all writes |
| Reconcile.Dispatch | src/cloudflare_dns_api/cloudflare_api.py:231-246 | sending a decision and refreshing writes exactly the decision's requests after the earlier ones; it fails only for a failed request; on success the server has performed the write and the returned view is the refreshed records |
| Reconcile.DispatchPerformed | src/cloudflare_dns_api/cloudflare_api.py:231-246 | a dispatch whose write the server performs is that write followed by a record fetch against the new server state |
| Reconcile.DispatchWrites | src/cloudflare_dns_api/cloudflare_api.py:231-246 | after read-only requests, a dispatch writes exactly the decision's requests |
| Reconcile.MergedDecides | src/cloudflare_dns_api/cloudflare_api.py:215-237 | for a valid record: create when its key is not cached; skip when, with the cached id copied on, it equals the cached simplified record (it agrees on content, ttl, priority and proxied); otherwise update by the cached id |
| Reconcile.MergedRequests | src/cloudflare_dns_api/cloudflare_api.py:215-237 | the decision for a valid record sends one POST, nothing, or one PUT to the cached id, as above |
| CloudflareApi.Prelude | src/cloudflare_dns_api/cloudflare_api.py:203-208 | the prelude of `merge` and `delete` sends only reads; it fails with zone-not-found exactly for a zone missing after the bootstrap, and otherwise only for a failed request; on success the zone's records are at hand |
| CloudflareApi.PreludeSteps | src/cloudflare_dns_api/cloudflare_api.py:203-208 | the prelude step by step: the bootstrap, the zone lookup, and a fetch only for records never fetched |
| CloudflareApi.MergeRejectsWithoutWrites | src/cloudflare_dns_api/cloudflare_api.py:203-244 | `merge` on an unknown zone fails with zone-not-found, and on an invalid record it fails; in both cases it sends no write and leaves the server unchanged |
| CloudflareApi.MergeDispatches | src/cloudflare_dns_api/cloudflare_api.py:215-237 | for a valid record, `merge` sends one POST of the record for an uncached key, no write when the stamped record equals the cached one, and otherwise one PUT to the cached id; the caller's record is stamped with the cached id exactly when its key is cached |
| CloudflareApi.DeleteRejectsUnknownZone | src/cloudflare_dns_api/cloudflare_api.py:276-278 | `delete` on an unknown zone fails with zone-not-found and sends no write |
| CloudflareApi.DeleteDispatches | src/cloudflare_dns_api/cloudflare_api.py:258-275 | when the (name, type) key is cached, `delete` sends one DELETE of the cached record's id if that id is non-empty, whatever id was passed in, and no write otherwise; when the key is not cached, or name or type is missing, it sends one DELETE of the passed id if that is a non-empty string, and no write otherwise; it then fails only for a failed request |
| CloudflareApi.DNSRecords.constructor | src/cloudflare_dns_api/cloudflare_api.py:79-85 | a new client starts with an empty cache |
| CloudflareApi.DNSRecords.SimplifiedZones | src/cloudflare_dns_api/cloudflare_api.py:135-144 | the summary has the cache's zone names as its keys and each zone's id, name and status |
| CloudflareApi.DNSRecords.SimplifiedDnsRecords | src/cloudflare_dns_api/cloudflare_api.py:146-170 | the loop builds the simplified view of the zone's cached records, wrapped under the zone's name |
| CloudflareApi.DNSRecords.Zones | src/cloudflare_dns_api/cloudflare_api.py:172-179 | one zone listing request; on success the whole cache is replaced by `ZoneCache` of the listing and its summary is returned; on failure the cache is unchanged |
| CloudflareApi.DNSRecords.Boot | src/cloudflare_dns_api/cloudflare_api.py:182-183 | the zones are listed exactly when the cache is empty |
| CloudflareApi.DNSRecords.FetchRecords | src/cloudflare_dns_api/cloudflare_api.py:186-194 | one listing request for the zone's id; on success only that zone's record map changes, to the keyed listing; on failure the cache is unchanged |
| CloudflareApi.DNSRecords.Get | src/cloudflare_dns_api/cloudflare_api.py:181-200 | `get` sends a prefix of the fetch plan's requests; unless a request fails, it sends all of them and ends with the plan's cache and wrapped view; if the zone listing of an empty cache fails, that one request was sent and the cache stays empty; if the record listing fails, all the plan's requests were sent and the cache holds the bootstrapped zones |
| CloudflareApi.DNSRecords.Prepare | src/cloudflare_dns_api/cloudflare_api.py:203-208 | the prelude as a method, proved against `Prelude` in the same way, with the same two cases after a failed request |
| CloudflareApi.DNSRecords.Submit | src/cloudflare_dns_api/cloudflare_api.py:223-237 | sends exactly the decision's requests; on success the server's new state is the decision performed |
| CloudflareApi.DNSRecords.SubmitAndRefresh | src/cloudflare_dns_api/cloudflare_api.py:231-246 | the write and the refresh, proved against `Dispatch`; after a failed request the cache is unchanged, and either the write failed, leaving the server as it was, or the refresh failed after all of the plan's requests, leaving the server in the plan's state |
| CloudflareApi.DNSRecords.Merge | src/cloudflare_dns_api/cloudflare_api.py:202-246 | `merge` sends a prefix of the plan's requests and changes the server at most to the plan's state; unless a request fails, its requests, result, cache, server state and the caller's stamped record are the plan's; after a failed request the cache is the one before the call, the one with the zones bootstrapped, or the one the prelude left |
| CloudflareApi.DNSRecords.Delete | src/cloudflare_dns_api/cloudflare_api.py:248-280 | `delete` sends a prefix of the plan's requests; unless a request fails, its requests, result, cache and server state are the plan's; after a failed request the cache is the one before the call, the one with the zones bootstrapped, or the one the prelude left |
| CloudflareDns.InsertDispatches | CloudflareDNS/cloudflare_dns.py:199-207 | after a fetch, `insert_record` writes nothing for an invalid record, fails with duplicate-record and writes nothing for a key already fetched, and otherwise sends exactly one POST of the record |
| CloudflareDns.UpdateDispatches | CloudflareDNS/cloudflare_dns.py:215-228 | after a fetch, `update_record` writes nothing for an invalid record; for a key not fetched it fails with record-not-found and writes nothing; for a key fetched, the outgoing record carries the fetched id, and when the record agrees with the fetched one it writes nothing and succeeds with the server unchanged, and otherwise it sends exactly one PUT to that id |
| CloudflareDns.UpdateFound | CloudflareDNS/cloudflare_dns.py:218-225 | the writes of `update_record` for a key fetched: none, or one PUT to the fetched id |
| CloudflareDns.DeleteRecordDispatches | CloudflareDNS/cloudflare_dns.py:235-243 | after a fetch, `delete_record` sends exactly one DELETE of the fetched id for a key present; for a key absent it writes nothing and succeeds |
| CloudflareDns.DeleteRecordFound | CloudflareDNS/cloudflare_dns.py:237-241 | for a key present: one DELETE of the fetched id |
| CloudflareDns.DeleteRecordAbsent | CloudflareDNS/cloudflare_dns.py:242-245 | for a key absent: no write, success, server unchanged |
| CloudflareDns.CloudflareDNS.constructor | CloudflareDNS/cloudflare_dns.py:81-86 | a new client starts with an empty cache |
| CloudflareDns.CloudflareDNS.SimplifiedZones | CloudflareDNS/cloudflare_dns.py:136-145 | the summary has the cache's zone names as its keys and each zone's id, name and status |
| CloudflareDns.CloudflareDNS.SimplifiedDnsRecords | CloudflareDNS/cloudflare_dns.py:147-161 | the loop builds the flat simplified view of the zone's cached records, priority copied only when present |
| CloudflareDns.CloudflareDNS.GetZones | CloudflareDNS/cloudflare_dns.py:163-171 | one zone listing request; on success the whole cache is replaced by `ZoneCache` of the listing; on failure it is unchanged |
| CloudflareDns.CloudflareDNS.Boot | CloudflareDNS/cloudflare_dns.py:174-175 | the zones are listed exactly when the cache is empty |
| CloudflareDns.CloudflareDNS.FetchRecords | CloudflareDNS/cloudflare_dns.py:178-188 | one listing request for the zone's id; on success only that zone's record map changes, to the keyed listing; on failure the cache is unchanged |
| CloudflareDns.CloudflareDNS.GetRecords | CloudflareDNS/cloudflare_dns.py:173-193 | `get_records` sends a prefix of the fetch plan's requests; unless a request fails, it sends all of them and ends with the plan's cache and view; if the zone listing of an empty cache fails, that one request was sent and the cache stays empty; if the record listing fails, all the plan's requests were sent and the cache holds the bootstrapped zones |
| CloudflareDns.CloudflareDNS.Submit | CloudflareDNS/cloudflare_dns.py:203-204 | sends exactly the decision's requests; on success the server's new state is the decision performed |
| CloudflareDns.CloudflareDNS.SubmitAndRefresh | CloudflareDNS/cloudflare_dns.py:204-209 | the write and the refresh, proved against `Dispatch`; after a failed request the cache is unchanged, and either the write failed, leaving the server as it was, or the refresh failed after all of the plan's requests, leaving the server in the plan's state |
| CloudflareDns.CloudflareDNS.InsertRecord | CloudflareDNS/cloudflare_dns.py:195-209 | `insert_record` sends a prefix of the plan's requests; unless a request fails, its requests, result, cache and server state are the plan's; after a failed request the cache is the one before the call, the one with the zones bootstrapped, or the one the fetch left |
| CloudflareDns.CloudflareDNS.UpdateRecord | CloudflareDNS/cloudflare_dns.py:211-230 | `update_record` in the same way against its plan, together with the caller's stamped record; after a failed request the cache is the one before the call, the one with the zones bootstrapped, or the one the fetch left |
| CloudflareDns.CloudflareDNS.DeleteRecord | CloudflareDNS/cloudflare_dns.py:232-245 | `delete_record` in the same way against its plan; after a failed request the cache is the one before the call, the one with the zones bootstrapped, or the one the fetch left |
| RoundTrips.ValidHasNoIdNorExtra | src/cloudflare_dns_api/cloudflare_api.py:37-40 | a valid record carries neither an id nor a key outside the named ones |
| RoundTrips.StoredReadsBack | tests/test_cloudflare_api.py:34-37 | what the server stores for a valid record with `proxied` set reads back as that record plus the stored id |
| RoundTrips.RefetchIsStable | CloudflareDNS/cloudflare_dns.py:173-193 | fetching again from the same server sends one listing request and changes neither the cache nor the view |
| RoundTrips.DispatchOk | CloudflareDNS/cloudflare_dns.py:204-209 | a dispatch that ends well has had its write performed, and its view and cache hold what the server then lists |
| RoundTrips.InsertRoundTrip | tests/test_cloudflare_api.py:24-37 | a successful `insert_record` of a valid record with `proxied` set returns a view whose entry for the key is the input plus an id |
| RoundTrips.UpdateRoundTrip | tests/test_cloudflare_api.py:40-53 | a successful `update_record` of a valid record with `proxied` set returns a view whose entry for the key is the input plus an id, and that id is the one fetched before the update |
| RoundTrips.UpdateIsIdempotent | CloudflareDNS/cloudflare_dns.py:218-225 | after one successful `update_record`, a second call with the record as first given (without the stamped id) writes nothing and returns the same view, cache and server state; a second call with the stamped dictionary itself fails validation instead (`Validation.IdOrExtraKeyInvalidates`) |
| RoundTrips.MergeIsIdempotent | src/cloudflare_dns_api/cloudflare_api.py:215-246 | after one successful `merge` from a cache in step with the server, a second merge of the record as first given (without the stamped id) writes nothing and returns the same view, cache and server state; a second call with the stamped dictionary itself fails validation instead (`Validation.IdOrExtraKeyInvalidates`) |
| RoundTrips.MergedLands | src/cloudflare_dns_api/cloudflare_api.py:215-237 | once the server performs the merge decision, the key lists a record agreeing with the input field by field, under the id it had if it was listed before |
| RoundTrips.SecondDecisionSkips | src/cloudflare_dns_api/cloudflare_api.py:219-233 | a second decision against a listing that already agrees with the record is to skip |
| RoundTrips.DeleteLands | CloudflareDNS/cloudflare_dns.py:237-243 | once the server performs the deletion decided for a key, with one record per key, the key is no longer listed |
| RoundTrips.DeleteRemovesKey | tests/test_cloudflare_api.py:66-70 | a successful `delete_record` returns a view without the key |
| RoundTrips.PreludeInStep | src/cloudflare_dns_api/cloudflare_api.py:203-208 | the prelude on a cache in step with the server holds exactly what the server lists for the zone |

## Left out

- HTTP, JSON and headers are left out: `requests`, `json.dumps`, the bearer and Content-Type headers, `BASE_URL` and URL concatenation. `Remote.Server` stands in for them. It logs each request by kind and target, and a request either succeeds or fails.
- A non-200 status and a transport exception are one failure. Python tells them apart only by the printed message or the exception type.
- `print` output is not modelled. Every bare `raise` is modelled as an `Error` value named after the message printed before it.
- The provider's server behaviour is abstract: `Remote.Apply`.
  - A created record gets an id unlike every id in the listing (`Remote.FreshId`).
  - `proxied` defaults to false when absent.
  - A created record is appended to the zone's listing.
  - The round-trip lemmas therefore assume `proxied` is set. Where they need it, they also assume unique ids, or one record per key.
- The validator's key loop walks a set of key names, not the dictionary's insertion order. So the order of repeated "Invalid record key." reports is not modelled, only which problems are reported.
- A record's field values are typed (`ttl` and `priority` as integers, the rest as strings or a boolean). A value of another Python type, and the TypeError it could raise in a comparison, is not modelled.
- Keys outside the named ones are kept by name only, since their values matter to nothing that the client does.
- Aliasing is not modelled. In Python the cache holds the listed dictionaries themselves. The model copies records by value, and returns the caller's dictionary stamped with an id as the out-parameter `sent`.
- `src/cloudflare_dns_api/DNSRecords.py` is not part of this model. It is an earlier draft of the same fetch-and-key logic, with an empty update stub.
- CloudflareApi.DNSRecords.Merge: after a failed request, the contract gives a prefix of the plan's requests, a server either unchanged or in the plan's state, and one of three caches, without saying which request failed. It also does not constrain `sent` then, although Python has already stamped the caller's dictionary before the PUT is sent.
- CloudflareApi.DNSRecords.Delete: the same weaker contract as `Merge` after a failed request.
- CloudflareDns.CloudflareDNS.InsertRecord: the same weaker contract as `Merge` after a failed request.
- CloudflareDns.CloudflareDNS.UpdateRecord: the same weaker contract as `Merge` after a failed request, `sent` included.
- CloudflareDns.CloudflareDNS.DeleteRecord: the same weaker contract as `Merge` after a failed request.
- RoundTrips.DeleteRemovesKey: proved only for a server that lists at most one record per (name, type), as is `RoundTrips.DeleteLands`. The record fetch keys the listing by (name, type), so when a zone lists several records of one key, only the last one listed is cached (`CloudflareDNS/cloudflare_dns.py:185-186`). `delete_record` deletes only that one by its id (`CloudflareDNS/cloudflare_dns.py:237-241`), so the other records of the key are still listed afterwards, and the refreshed view still holds the key.
- RoundTrips.MergeIsIdempotent: proved only from a cache in step with the server. `merge` reuses cached records without refetching, so from a stale cache the first call may decide against old data.
