# OVHcloud DNS provider and source-name filtering, modelled in Dafny

This project models three pieces of the external DNS management controller.

- **The OVHcloud access layer** (`access.go`). These are per-record REST calls against `/domain/zone`:
  - list the zones and fetch each zone's metadata;
  - list a zone's record ids under a sub-domain/type filter, then fetch each record;
  - find the record with a given target;
  - create a record, update its TTL, delete it;
  - refresh the zone.

  The remote side is a value, `Access.Backend`. It holds the zone names and metadata, the record ids in creation order, the records by id, and the set of calls that fail. The client object `Access.Client` keeps that backend and an event log. Every remote request enters the log as three events: a rate-limiter token, a metric increment, then the request.
- **The OVHcloud handler** (`handler.go`):
  - the zone directory: every zone with the names its NS records forward;
  - the zone state: the A, CNAME and TXT record sets of a zone, grouped by owner name and type;
  - the change executor: one rate-limiter token and one access call per record value, then one zone refresh if records were dispatched and none failed, then the zone-cache hook.
- **The source-name filtering** of the DNS source reconciler (`dnsinfo.go`):
  - the excluded-domain test with its `*.` wildcard;
  - the merge of injected annotations into an object's own;
  - the completion of what a source reports: excluded names removed, TTL and check interval taken from annotations.

Every loop of the source is a Dafny method. Each one is proved equal to a specification function of its inputs and its starting state. The properties are lemmas about those functions.

Files: `wrappers.dfy` (Option, Result), `text.dfy` (the Go `strings`/`strconv`/`StringSet` helpers used), `dns.dfy` (the `dns` package pieces the provider calls), `access.dfy`, `handler.dfy`, `dnsinfo.dfy`.

## Model

| member | source | states |
|---|---|---|
| Access.Client.Request | pkg/controller/provider/ovhcloud/access.go:39-41 | one remote call: the reply and store change the backend gives, and the log grows by a token, the call's metric, then the call |
| Access.Client.GetZones | pkg/controller/provider/ovhcloud/access.go:37-57 | the zone listing equals `GetZonesSpec` of the starting backend (result and logged calls); the store is unchanged |
| Access.GetZonesCost | pkg/controller/provider/ovhcloud/access.go:37-57 | the listing succeeds iff the name list and every zone's metadata can be fetched; then it returns each zone's metadata in listing order, using 1 + (number of zones) calls and tokens, all GETs |
| Access.GetZonesFailFast | pkg/controller/provider/ovhcloud/access.go:41-43 | on failure: either the name listing failed after one call, or the first unfetchable zone k is reported and nothing after it is requested (k + 2 calls) |
| Access.FetchZonesOk | pkg/controller/provider/ovhcloud/access.go:46-54 | the per-zone loop succeeds iff every zone is fetchable, and then makes exactly one GET per zone, in order |
| Access.FetchZonesStopsAt | pkg/controller/provider/ovhcloud/access.go:50-52 | the loop stops at the first unfetchable zone with that zone's error, after k + 1 calls |
| Access.FetchZonesErr | pkg/controller/provider/ovhcloud/access.go:46-54 | a failed loop names its first unfetchable zone, and every zone before it was fetched |
| Access.FetchZonesReads | pkg/controller/provider/ovhcloud/access.go:46-54 | the zone loop only reads |
| Access.FirstUnfetchable | pkg/controller/provider/ovhcloud/access.go:46-54 | the index of the first zone whose GET fails: every zone before it is fetchable |
| Access.Client.GetRecordSets | pkg/controller/provider/ovhcloud/access.go:152-180 | the record listing equals `GetRecordSetsSpec` of the starting backend (result and logged calls); the store is unchanged |
| Access.Client.FetchBodies | pkg/controller/provider/ovhcloud/access.go:167-177 | the per-id loop equals `FetchRecords` of the starting backend |
| Access.GetRecordSetsCost | pkg/controller/provider/ovhcloud/access.go:152-180 | the listing succeeds iff the id query and each listed id's GET succeed; then it returns the matching records in store order, with 1 + (number listed) calls and tokens |
| Access.GetRecordSetsFailFast | pkg/controller/provider/ovhcloud/access.go:163-175 | on failure: either the id query failed after one call, or the first unreadable record k is reported after k + 2 calls |
| Access.GetRecordSetsReads | pkg/controller/provider/ovhcloud/access.go:152-180 | the listing starts with the id query and only reads |
| Access.FetchRecordsOk | pkg/controller/provider/ovhcloud/access.go:168-177 | the per-id loop succeeds iff every id is readable, then one GET per id in order, returning the stored records |
| Access.FetchRecordsStopsAt | pkg/controller/provider/ovhcloud/access.go:173-175 | the loop stops at the first unreadable id with that id's error, after k + 1 calls |
| Access.FetchRecordsErr | pkg/controller/provider/ovhcloud/access.go:168-177 | a failed loop names its first unreadable id, and every id before it was read |
| Access.FetchRecordsReads | pkg/controller/provider/ovhcloud/access.go:168-177 | the record loop only reads |
| Access.FirstUnreadable | pkg/controller/provider/ovhcloud/access.go:168-177 | the index of the first id whose GET fails: every id before it is readable |
| Access.FetchRecordsStep | pkg/controller/provider/ovhcloud/access.go:168-177 | one loop step: a read record extends the result and the calls, and a failed read ends the loop with its error |
| Access.Listed | pkg/controller/provider/ovhcloud/access.go:155-159 | the listed ids are exactly the stored ids whose record matches zone, sub-domain and type (an empty filter matches all) |
| Access.ListedAppend | pkg/controller/provider/ovhcloud/access.go:155-159 | helper: a new record joins the end of the listing exactly when it matches the filter |
| Access.Client.GetRecordSet | pkg/controller/provider/ovhcloud/access.go:80-93 | the lookup equals `GetRecordSetSpec` of the starting backend; the store is unchanged |
| Access.FindByTarget | pkg/controller/provider/ovhcloud/access.go:86-92 | none found iff no record has the target; otherwise the first record with that target |
| Access.GetRecordSetFinds | pkg/controller/provider/ovhcloud/access.go:80-93 | no record found iff the listing succeeded and no listed record has the target; a found record is the first listed one with it; only the listing's reads are made |
| Access.FoundIsStored | pkg/controller/provider/ovhcloud/access.go:80-93 | a found record is stored under its own id in the zone and matches the query and the target |
| Access.Client.CreateRecordSet | pkg/controller/provider/ovhcloud/access.go:59-78 | the create equals `CreateSpec` of the starting backend: error, new store and logged call |
| Access.CreateAdds | pkg/controller/provider/ovhcloud/access.go:59-78 | one POST carrying type, sub-domain, target and TTL. If it succeeds, the record is stored under the next free id and appended to the id order. If it fails, the store is unchanged |
| Access.CreateThenFound | pkg/controller/provider/ovhcloud/access.go:59-93 | after a successful create, looking the record up by sub-domain, type and target finds it |
| Access.Client.UpdateRecordSet | pkg/controller/provider/ovhcloud/access.go:95-126 | the update equals `UpdateSpec` of the starting backend: error, new store and logged calls |
| Access.UpdateWrites | pkg/controller/provider/ovhcloud/access.go:95-126 | no record: RecordNotFound with no write. A failed lookup is passed on. Otherwise the lookup is followed by exactly one PUT, whose body carries the TTL only |
| Access.UpdateChangesTtlOnly | pkg/controller/provider/ovhcloud/access.go:110-125 | a successful PUT changes only the found record's TTL (a zero TTL is an omitted field); a failed one leaves the store alone |
| Access.Client.DeleteRecordSet | pkg/controller/provider/ovhcloud/access.go:128-150 | the delete equals `DeleteSpec` of the starting backend: error, new store and logged calls |
| Access.DeleteWrites | pkg/controller/provider/ovhcloud/access.go:128-150 | no record: success with no write. A failed lookup is passed on. Otherwise the lookup is followed by exactly one DELETE of the found id |
| Access.ApexDeleteHitsOtherName | pkg/controller/provider/ovhcloud/access.go:128-159 | with A records `www → 1.2.3.4` (id 1) and apex `"" → 1.2.3.4` (id 2), deleting the apex record's value succeeds but removes the `www` record and keeps the apex one, because an empty sub-domain filter lists every name |
| Access.DeleteRemoves | pkg/controller/provider/ovhcloud/access.go:134-149 | a successful DELETE removes exactly the found record and its id; a failed one leaves the store alone |
| Access.Client.RefreshZone | pkg/controller/provider/ovhcloud/access.go:183-195 | the refresh is one POST; its error and log are those of `RefreshSpec` |
| Access.Client.Read | pkg/controller/provider/ovhcloud/access.go:161-165 | a GET changes nothing and logs token, metric and call |
| Access.Client.TakeToken | pkg/controller/provider/ovhcloud/handler.go:259 | the caller's own rate-limiter token: one Accept event, nothing else |
| Access.Client.ReportToCache | pkg/controller/provider/ovhcloud/handler.go:231 | the zone-cache hook is logged with the executor's error and the requests |
| Access.ReadOnlyWrites | pkg/controller/provider/ovhcloud/access.go:152-180 | a read-only call sequence contains no writes |
| Access.GateAll | pkg/controller/provider/ovhcloud/access.go:161-163 | every call of a sequence is logged in order as its token, its metric, then the request: events 3i to 3i + 2 are call i's |
| Access.GateAllGated | pkg/controller/provider/ovhcloud/access.go:39-41 | in a gated log every request comes right after its token and its metric |
| Access.GateAllCalls | pkg/controller/provider/ovhcloud/access.go:161-163 | a gated call sequence logs exactly those requests, with one token each |
| Dns.NormalizeIgnoresTrailingDot | pkg/controller/provider/ovhcloud/handler.go:206-208 | a CNAME target reads the same with or without its trailing dot |
| Dns.RelativeOfOwner | pkg/controller/provider/ovhcloud/handler.go:250-251 | relativising an owner name gives its sub-domain back |
| Dns.OwnerOfRelative | pkg/controller/provider/ovhcloud/handler.go:250-251 | every name in the zone is the owner of its relative name |
| Dns.AddRecordSetFromProvider | pkg/controller/provider/ovhcloud/handler.go:211 | the set is stored under the normalised name, replacing the same type there; every other entry is unchanged |
| Ovhcloud.Handler.GetZones | pkg/controller/provider/ovhcloud/handler.go:156-190 | the zone directory equals `HostedZonesSpec` of the starting backend (result and logged calls); the store is unchanged |
| Ovhcloud.Handler.HostedZoneOf | pkg/controller/provider/ovhcloud/handler.go:164-184 | one zone's NS lookup: a failure becomes ZoneRecordsFailed, a success the hosted zone with its forwarded names |
| Ovhcloud.HostedZonesShape | pkg/controller/provider/ovhcloud/handler.go:156-190 | the directory succeeds iff the zone listing and every NS lookup succeed. Then it holds one hosted zone per zone, in order. Each has provider type, id, key, the normalised domain, not private, and the forwarded names of its NS records |
| Ovhcloud.ZonesWithNsShape | pkg/controller/provider/ovhcloud/handler.go:163-187 | the per-zone loop succeeds iff every NS lookup succeeds, and then yields one hosted zone per zone in order |
| Ovhcloud.ZonesWithNsOk | pkg/controller/provider/ovhcloud/handler.go:163-169 | the per-zone loop succeeds iff the NS lookup of every zone succeeds |
| Ovhcloud.ZonesWithNsValues | pkg/controller/provider/ovhcloud/handler.go:163-187 | a successful per-zone loop yields exactly one hosted zone per zone, the i-th built from zone i and its NS records |
| Ovhcloud.ZonesWithNsStep | pkg/controller/provider/ovhcloud/handler.go:165-168 | one loop step: a failed NS lookup ends the directory with ZoneRecordsFailed, a success appends the hosted zone |
| Ovhcloud.ForwardedOf | pkg/controller/provider/ovhcloud/handler.go:170-175 | the NS-record loop computes `Forwarded` of the records' owner names |
| Ovhcloud.ForwardedMembers | pkg/controller/provider/ovhcloud/handler.go:170-175 | a name is forwarded iff it is the normalised owner of an NS record whose owner is not the zone itself |
| Ovhcloud.ForwardedSound | pkg/controller/provider/ovhcloud/handler.go:170-175 | each forwarded name comes from a non-apex NS owner |
| Ovhcloud.ForwardedComplete | pkg/controller/provider/ovhcloud/handler.go:170-175 | every non-apex NS owner is forwarded |
| Ovhcloud.ForwardedAppend | pkg/controller/provider/ovhcloud/handler.go:170-175 | the forwarded list of two runs of records is their lists concatenated, in order |
| Ovhcloud.ApexNotForwarded | pkg/controller/provider/ovhcloud/handler.go:171-173 | corrected: the forwarded names are exactly the normalised `sub.zone` of NS records with a non-empty sub-domain |
| Ovhcloud.ApexForwardedAsWritten | pkg/controller/provider/ovhcloud/handler.go:171-173 | as written: an apex NS record is forwarded as ".zone", while the corrected owner name forwards nothing |
| Ovhcloud.OwnersApex | pkg/controller/provider/ovhcloud/handler.go:171-172 | corrected: an owner name equals its zone exactly when the sub-domain is empty, and relative to the zone it gives the sub-domain back |
| Ovhcloud.WrittenOwnersNeverZone | pkg/controller/provider/ovhcloud/handler.go:171-172 | as written: an owner name never equals its zone, and below the apex it is the corrected owner name |
| Ovhcloud.ForwardedOffApex | pkg/controller/provider/ovhcloud/handler.go:170-175 | for NS records with non-empty sub-domains, the forwarded names as written and as corrected are the same list |
| Ovhcloud.Handler.GetZoneState | pkg/controller/provider/ovhcloud/handler.go:197-222 | one token, then the zone state equals `ZoneStateSpec` of the starting backend; the store is unchanged |
| Ovhcloud.ZoneStateShape | pkg/controller/provider/ovhcloud/handler.go:197-222 | the state fails iff reading the records fails. It holds only A, CNAME and TXT sets. Every value in a set is the stored form (CNAME normalised) of the value of a record with that normalised owner name and type. Every A, CNAME or TXT record's owner and type has a set. When no two owner names normalise alike, each such record's stored value is in its set |
| Ovhcloud.StateOfRecords | pkg/controller/provider/ovhcloud/handler.go:200-212 | for any list of records: supported types only, each set the conversion of a grouped set with its key, only values of records with that key, and a set for every supported record |
| Ovhcloud.StateSetsFrom | pkg/controller/provider/ovhcloud/handler.go:200-212 | every set of the zone state has a supported type and is the conversion of a grouped set whose normalised name and type are its key |
| Ovhcloud.StateValuesFrom | pkg/controller/provider/ovhcloud/handler.go:200-217 | every value in the zone state is the stored form of the value of a record with that normalised owner name and type |
| Ovhcloud.StateSetPerRecord | pkg/controller/provider/ovhcloud/handler.go:200-217 | every supported record has a set under its normalised owner name and type |
| Ovhcloud.StateHoldsRecords | pkg/controller/provider/ovhcloud/handler.go:200-212 | when no two owner names normalise alike, every supported record's stored value is in the set of its normalised owner name and type |
| Ovhcloud.CollectAt | pkg/controller/provider/ovhcloud/handler.go:201-212 | a supported source set that no later set shares a normalised name and type with is exactly what the state holds under that key |
| Ovhcloud.GroupShape | pkg/controller/provider/ovhcloud/handler.go:217 | the grouped sets have distinct owner name and type pairs, none is empty, and every value in a set is the value of a record with that owner name and type |
| Ovhcloud.AddToGroupShape | pkg/controller/provider/ovhcloud/handler.go:217 | adding a record keeps the keys distinct and every value traced to a record |
| Ovhcloud.Slot | pkg/controller/provider/ovhcloud/handler.go:217 | the first set with a given owner name and type, or none: no set before it has that key |
| Ovhcloud.CollectOf | pkg/controller/provider/ovhcloud/handler.go:200-212 | the record-set loop builds `Collect` of the grouped sets |
| Ovhcloud.CollectSound | pkg/controller/provider/ovhcloud/handler.go:201-212 | every collected set has a supported type and is the conversion of a source set with that name and type |
| Ovhcloud.CollectComplete | pkg/controller/provider/ovhcloud/handler.go:201-212 | every source set of a supported type is collected under its normalised name |
| Ovhcloud.ProviderValuesOf | pkg/controller/provider/ovhcloud/handler.go:204-210 | the value loop computes `ProviderValues` |
| Ovhcloud.ProviderValues | pkg/controller/provider/ovhcloud/handler.go:204-210 | one value per record, in order; CNAME targets normalised, others unchanged |
| Ovhcloud.AddToGroup | pkg/controller/provider/ovhcloud/handler.go:217 | adding a record appends its value to the first set with its owner name and type, or opens a new set with that value at the end; nothing else changes |
| Ovhcloud.AddToGroupKeeps | pkg/controller/provider/ovhcloud/handler.go:217 | a record already covered stays covered |
| Ovhcloud.GroupCovers | pkg/controller/provider/ovhcloud/handler.go:217 | every record is in a set with its owner name and type |
| Ovhcloud.Handler.DispatchRecord | pkg/controller/provider/ovhcloud/handler.go:258-273 | one record: the executor's token, then the access call for the request's action; an error is wrapped per action |
| Ovhcloud.Handler.DispatchRecords | pkg/controller/provider/ovhcloud/handler.go:257-274 | the record loop equals `RecordsOutcome`: records in order, stopping at the first error |
| Ovhcloud.Handler.Execute | pkg/controller/provider/ovhcloud/handler.go:242-284 | the executor equals `ExecuteOutcome` of the starting backend; in dry-run mode it returns no error and changes and logs nothing |
| Ovhcloud.Handler.ExecuteRequests | pkg/controller/provider/ovhcloud/handler.go:229-233 | the executor, then the cache hook, which receives the executor's own error and the requests |
| Ovhcloud.RecordsStep | pkg/controller/provider/ovhcloud/handler.go:257-274 | one record step of the continuation: an error ends the loop, success continues with the new store |
| Ovhcloud.RequestsStep | pkg/controller/provider/ovhcloud/handler.go:249-275 | one request step: an empty set is skipped, a failed one ends the batch, a successful one continues |
| Ovhcloud.AnyRecordsStep | pkg/controller/provider/ovhcloud/handler.go:258 | the `updated` flag after i + 1 requests is the flag before, or the request having records |
| Ovhcloud.UpdateNoRefresh | pkg/controller/provider/ovhcloud/access.go:95-126 | an update makes no refresh and at most one write |
| Ovhcloud.DeleteNoRefresh | pkg/controller/provider/ovhcloud/access.go:128-150 | a delete makes no refresh and at most one write |
| Ovhcloud.EffectWrites | pkg/controller/provider/ovhcloud/handler.go:260-273 | one record's action: no refresh, at most one write, and for a create exactly its POST |
| Ovhcloud.DispatchLog | pkg/controller/provider/ovhcloud/handler.go:258-273 | one record's log holds the action's calls, one token more than calls, every request gated, no cache hook |
| Ovhcloud.DispatchLogTail | pkg/controller/provider/ovhcloud/handler.go:259 | a token followed by gated calls logs those calls, with one token more than calls |
| Ovhcloud.RecordsLog | pkg/controller/provider/ovhcloud/handler.go:257-274 | a request's records: no refresh, at most one write per record, gated. On success, one executor token per record. A create writes exactly one POST per record, in order |
| Ovhcloud.RequestsLog | pkg/controller/provider/ovhcloud/handler.go:249-275 | a batch: no refresh, at most one write per record, gated. On success, one executor token per record. A batch of creates POSTs once per record, in request then record order |
| Ovhcloud.ExecuteLog | pkg/controller/provider/ovhcloud/handler.go:277-282 | exactly one refresh, after all writes, when records were dispatched and nothing failed; otherwise the execution is the batch itself; the token count includes the refresh token |
| Ovhcloud.NoRecordsNoCalls | pkg/controller/provider/ovhcloud/handler.go:252-254 | a batch without records makes no call, no log entry and no change, and no refresh |
| DnsInfo.Exclude | pkg/dns/source/dnsinfo.go:29-45 | the scan returns true exactly when the name is excluded: listed, or matched by a `*.` entry on what follows its first dot |
| DnsInfo.WildcardOneLabel | pkg/dns/source/dnsinfo.go:33-43 | `*.d` matches exactly the names that are one dot-free label, a dot, then d |
| DnsInfo.WildcardNotItself | pkg/dns/source/dnsinfo.go:33-43 | `*.d` does not match d itself |
| DnsInfo.WildcardNotDeeper | pkg/dns/source/dnsinfo.go:33-43 | `*.d` does not match names two or more labels below d |
| DnsInfo.NoDotOnlyExact | pkg/dns/source/dnsinfo.go:36-37 | a name without a dot is excluded only by an exact entry |
| DnsInfo.MergeAddons | pkg/dns/source/dnsinfo.go:105-118 | the addon loop: every addon but the DNS one overwrites its key, other keys are kept, and the names gathered are the union of the object's and the injected ones |
| DnsInfo.OverwriteFacts | pkg/dns/source/dnsinfo.go:108-118 | after the addons of any list of keys are applied, a key is present iff it was an annotation or a listed non-DNS addon, and its value is the addon's when it is one, else the annotation's |
| DnsInfo.EnrichAnnotations | pkg/dns/source/dnsinfo.go:99-126 | no addons: unchanged. Otherwise other keys are overwritten by addons and nothing else changes. Splitting the resulting DNS annotation gives the union of the names. The DNS annotation is untouched when that union is empty |
| DnsInfo.InjectedClean | pkg/dns/source/dnsinfo.go:105-110 | every gathered name is non-empty and has no comma and no surrounding space |
| DnsInfo.RemoveExcluded | pkg/dns/source/dnsinfo.go:59-65 | the in-place removal leaves exactly the reported names that are not excluded |
| DnsInfo.Completed | pkg/dns/source/dnsinfo.go:72-95 | a set field is kept. An empty annotation leaves the field unset. Otherwise an error occurs iff the annotation does not parse as a 64-bit integer. A stored value is the parsed one, never zero, and a parsed zero leaves the field unset |
| DnsInfo.CompletedDecimal | pkg/dns/source/dnsinfo.go:72-95 | an unset field completed from any signed decimal ("+5", "007" included) takes its value if non-zero and within 64 bits, stays unset for zero, and fails out of range |
| DnsInfo.CompletedFormatted | pkg/dns/source/dnsinfo.go:72-83 | an unset field takes back any non-zero 64-bit value written in its annotation, and zero leaves it unset |
| DnsInfo.CompleteFields | pkg/dns/source/dnsinfo.go:72-95 | TTL first, then the interval, as `Completed` says. A TTL error returns at once and leaves the interval alone. The names are untouched |
| DnsInfo.GetDNSInfo | pkg/dns/source/dnsinfo.go:47-97 | not responsible: nothing is returned or changed. Otherwise the recorded annotated names are the union of the object's and the injected ones, a reported info keeps only its non-excluded names, a source error is passed on, and otherwise TTL and interval are completed from the enriched annotations as `Completed` says |
| Text.SplitJoin | pkg/dns/source/dnsinfo.go:121 | splitting what was joined gives the parts back when no part holds the separator |
| Text.JoinSplit | pkg/dns/source/dnsinfo.go:56 | joining what was split gives the string back |
| Text.SplitNamesClean | pkg/dns/source/dnsinfo.go:56 | the split names are trimmed, non-empty and comma-free |
| Text.SplitNamesJoin | pkg/dns/source/dnsinfo.go:121 | joining clean names with commas and splitting again gives the same names |
| Text.JoinedNames | pkg/dns/source/dnsinfo.go:120-122 | a set of clean names joined in any order splits back to the set |
| Text.AsArray | pkg/dns/source/dnsinfo.go:121 | every element of the set exactly once |
| Text.ParseFormatInt | pkg/dns/source/dnsinfo.go:75 | parsing the decimal form of any 64-bit integer gives the integer back |
| Text.ParseInt | pkg/dns/source/dnsinfo.go:75 | a parsed value is in the 64-bit range and the text starts with a sign or a digit |
| Text.ParseIntDecimal | pkg/dns/source/dnsinfo.go:75 | an optional sign then one or more digits parses to its signed value when that fits in 64 bits, and fails otherwise |
| Text.ParseIntOnlyDecimal | pkg/dns/source/dnsinfo.go:75 | only such signed decimals parse, and a parsed text is worth its signed value |
| Text.IndexOf | pkg/dns/source/dnsinfo.go:36 | the position of the first occurrence, and none iff the character does not occur |
| Text.IndexOfJoined | pkg/dns/source/dnsinfo.go:36 | in `a + c + b` with no c in a, the first c is at position of the length of a |

Proof helpers, with no source lines of their own: `Access.GatedAppend`, `Access.GateAllAppend`, `Access.HttpCallsAppend`, `Access.TokensAppend` and `Access.WritesAppend` (token, request and write extraction over concatenated logs, used by `GateAllCalls`, the `Access.Client` methods, `RecordsLog`, `RequestsLog` and `ExecuteLog`); `Access.ThenStep` and `Access.ThenDone` (the accumulator of the fetch loops, used by `Access.Client.GetZones`, `Access.Client.FetchBodies`, `Ovhcloud.Handler.GetZones` and `ZonesWithNsStep`); `Ovhcloud.AfterAfter` and `Ovhcloud.AfterNothing` (prefixing logs to outcomes, used by `RecordsStep`, `RequestsStep`, `DispatchRecords` and `Execute`); `Ovhcloud.RequestsAppend` (running a batch split in two is running the halves in turn); `Access.ApplyValid` (every backend answer keeps the modelled store consistent: listed ids are the stored ids, and ids are fresh; used by `Access.Client.Request` and `CreateThenFound`).

## Left out

- Handler construction, credentials, endpoints and the `ovh.Client` transport: JSON encoding, URL escaping and the error text of HTTP failures are not modelled. A remote call is one `Access.Call`, answered by the `Backend` value.
- Rate limiting is modelled as Accept events in the log, not as blocking. The metrics sink is modelled as Metric events.
- Logging (`logger.Infof`) is not modelled.
- The generic zone cache (`h.cache`, `Release`, `ReportZoneStateConflict`) is not modelled. `ExecuteRequests` logs what it passes to `ApplyRequests`.
- `dns.MapToProvider` and `dns.AlignHostname` are modelled as the relative name in the zone's domain (`Dns.RelativeName`). The `dns` package is not part of this model.
- `h.client.ForEachRecordSet` is not part of this model. It is modelled as `getRecordSets(zone, "", "")` followed by grouping by owner name and type, in first-occurrence order, with the TTL of the first record.
- The source's `GetDNSInfo`, the class filter `IsResponsibleFor` and the injections `GetInfoFor` are callers' code. Their results are inputs of `DnsInfo.GetDNSInfo`.
- The annotation key strings (`DNS_ANNOTATION`, `TTL_ANNOTATION`, `PERIOD_ANNOTATION`) are defined outside the modelled files. The model only needs them to be distinct.
- Nil and empty name sets are not told apart: removing names from an empty set changes nothing either way.
- Ovhcloud.Handler.GetZones: the forwarded names follow the corrected owner name (Findings), not `fmt.Sprintf("%s.%s", ...)` of handler.go:171. An apex NS record is therefore not forwarded, where the code as written forwards ".zone". `Ovhcloud.ForwardedOffApex` shows the two agree on every zone without apex NS records.
- Ovhcloud.ForwardedOf: the NS-record loop uses the corrected owner name for the same reason; on an apex NS record it returns nothing where the source appends ".zone".
- Ovhcloud.Handler.HostedZoneOf, Ovhcloud.ZonesWithNsShape, Ovhcloud.ZonesWithNsValues, Ovhcloud.ZonesWithNsStep: the hosted zone they state is `Hosted`, whose forwarded names follow the corrected owner name (Findings). They omit the ".zone" entry that handler.go:171 adds for an apex NS record.
- Ovhcloud.HostedZonesShape: the forwarded names it states are those of the corrected owner name, so they omit the ".zone" entry the source adds for an apex NS record.
- Ovhcloud.ZoneStateShape: that every record's value is in its set is stated only when no two owner names normalise to the same name (an escaped `\052` label and a literal `*` do). Otherwise the later set replaces the earlier one under the shared name, as `AddRecordSetFromProvider` does, and that earlier set's values are lost.
- DnsInfo.EnrichAnnotations: an object without annotations has a nil Go map, and the first addon written into it (dnsinfo.go:114 or 121) panics. The model treats missing annotations as an empty map and returns the merged map; the panic is not modelled.
- Ovhcloud.Handler.Execute:
  - The code stops at the first failing record and returns its error. The model does the same rather than a best-effort run over all records.
  - The bare `return` on an empty record set does not compile as written. The model skips that request. Aborting the batch there would leave the refresh undone for earlier writes.
  - The action is taken from the change request, since the per-record `r.Action` is not a field of a record value.
- Access.Client.UpdateRecordSet and Access.Client.DeleteRecordSet: the callers pass no value to `getRecordSet`. The model passes the record's value, so the lookup matches sub-domain, type and target.
- Access.Client.UpdateRecordSet and Access.Client.DeleteRecordSet: an empty sub-domain (a record at the zone apex) is sent as the listing filter, which matches every sub-domain, so the lookup can pick a record of another name with the same type and target (`Access.ApexDeleteHitsOtherName`). The model keeps this behaviour of the code; a lookup restricted to the exact sub-domain is not modelled.
- Access.Client.GetZones: the metric zone of the zone listing is undeclared in the source. It is modelled as "".
- Text.IsSpace: only the ASCII white space plus U+0085 and U+00A0 are trimmed by `strings.TrimSpace` here, not the other Unicode spaces.
- DnsInfo.GetDNSInfo: a parse error keeps only the annotation text, not the `strconv` message.

## Findings

| source | as written | input that shows it | evidently intended | confidence | as-written member | corrected member |
|---|---|---|---|---|---|---|
| pkg/controller/provider/ovhcloud/handler.go:171-173 | the owner name of an NS record is built as `sub + "." + zone` even when the sub-domain is empty, so an apex NS record becomes ".zone", which is never equal to the zone name | zone `example.com`, NS record with sub-domain "" in zone `example.com`: forwarded = [".example.com"] | apex NS records describe the zone itself and are not forwarded; the owner name at the apex is the zone name | not executed | Ovhcloud.ApexForwardedAsWritten | Ovhcloud.ApexNotForwarded |
