/**
 * The OVHcloud access layer (pkg/controller/provider/ovhcloud/access.go): per-record REST
 * primitives over the zone-record API. The remote side is a `Backend` value (zone names, zone
 * metadata, the record ids in creation order, the records by id, and the set of calls that
 * fail); the client object records, in its `log`, every rate-limiter token, metric increment
 * and HTTP request in the order they happen.
 */
module Access {
  import opened Wrappers
  import opened Dns

  /** `recordInfo`, the wire form of one record; zero values stand for omitted JSON fields. */
  datatype RecordInfo = RecordInfo(
    fieldType: string, id: int, subDomain: string, target: string, ttl: int, zone: string)

  /** `zoneInfo`, the metadata of one zone. */
  datatype ZoneInfo = ZoneInfo(
    dnssecSupported: bool, hasDnsAnycast: bool, lastUpdate: string, name: string,
    nameServers: seq<string>)

  /** The `provider.M_*` request classes the metrics are counted under. */
  datatype MetricKind = ListZones | ListRecords | CreateRecords | UpdateRecords | DeleteRecords

  /** One HTTP request against /domain/zone. */
  datatype Call =
    | GetZoneNames                                                  // GET /domain/zone
    | GetZone(name: string)                                         // GET /domain/zone/{zone}
    | GetRecordIds(zone: string, subDomain: string, fieldType: string) // GET .../record?...
    | GetRecord(zone: string, id: int)                              // GET .../record/{id}
    | PostRecord(zone: string, body: RecordInfo)                    // POST .../record
    | PutRecord(zone: string, id: int, body: RecordInfo)            // PUT .../record/{id}
    | DeleteRecord(zone: string, id: int)                           // DELETE .../record/{id}
    | PostRefresh(zone: string)                                     // POST .../refresh
  {
    /** The metric class each request is counted under. */
    function Kind(): MetricKind {
      match this
      case GetZoneNames => ListZones
      case GetZone(_) => ListZones
      case GetRecordIds(_, _, _) => ListRecords
      case GetRecord(_, _) => ListRecords
      case PostRecord(_, _) => CreateRecords
      case PutRecord(_, _, _) => UpdateRecords
      case DeleteRecord(_, _) => DeleteRecords
      case PostRefresh(_) => UpdateRecords
    }

    /** The zone the metric is counted for; the zone listing has none. */
    function MetricZone(): string {
      match this
      case GetZoneNames => ""
      case GetZone(_) => ""
      case GetRecordIds(z, _, _) => z
      case GetRecord(z, _) => z
      case PostRecord(z, _) => z
      case PutRecord(z, _, _) => z
      case DeleteRecord(z, _) => z
      case PostRefresh(z) => z
    }

    /** The requests that change records. */
    predicate IsWrite() {
      PostRecord? || PutRecord? || DeleteRecord?
    }

    /** The GET requests. */
    predicate IsRead() {
      GetZoneNames? || GetZone? || GetRecordIds? || GetRecord?
    }
  }

  /** The errors of the access layer and the provider's wrappings of them. */
  datatype Error =
    | ApiError(call: Call)                                   // "Error calling <method> <endpoint>"
    | RecordNotFound(zone: string, subDomain: string, fieldType: string)
    | ListingZonesFailed(cause: Error)
    | ZoneRecordsFailed(zone: string, cause: Error)
    | ZoneStateFailed(zone: string, cause: Error)
    | CreateFailed(zone: string, cause: Error)
    | UpdateFailed(zone: string, cause: Error)
    | DeleteFailed(zone: string, cause: Error)
    | RefreshFailed(zone: string, cause: Error)

  /** Everything the provider does outside itself, in order. */
  datatype Event =
    | Accept                                  // rateLimiter.Accept()
    | Metric(zone: string, kind: MetricKind)  // metrics.AddZoneRequests(zone, kind, 1)
    | Http(call: Call)                        // the request itself
    | CacheApply(err: Option<Error>, zone: string, reqs: seq<ChangeRequest>) // cache.ApplyRequests

  /** What one remote call adds to the log: a token, a metric increment, then the request. */
  function Gate(c: Call): seq<Event> {
    [Accept, Metric(c.MetricZone(), c.Kind()), Http(c)]
  }

  /** Every call gated, in order: the events of call i are events 3i to 3i + 2. */
  function GateAll(cs: seq<Call>): (ev: seq<Event>)
    ensures |ev| == 3 * |cs|
    ensures forall i :: 0 <= i < |cs| ==> ev[3 * i..3 * i + 3] == Gate(cs[i])
  {
    if cs == [] then []
    else
      var rest := GateAll(cs[1..]);
      var ev := Gate(cs[0]) + rest;
      assert ev[0..3] == Gate(cs[0]);
      assert forall i :: 1 <= i < |cs| ==> ev[3 * i..3 * i + 3] == rest[3 * (i - 1)..3 * (i - 1) + 3];
      ev
  }

  /** Concatenation regrouped, so that logs extended in steps can be compared. */
  lemma Regroup<T>(a: seq<T>, b: seq<T>, c: seq<T>)
    ensures a + b + c == a + (b + c)
  {
  }

  lemma {:induction false} GateAllAppend(a: seq<Call>, b: seq<Call>)
    ensures GateAll(a + b) == GateAll(a) + GateAll(b)
  {
    if a == [] {
      assert a + b == b;
    } else {
      assert (a + b)[1..] == a[1..] + b;
      GateAllAppend(a[1..], b);
    }
  }

  lemma GateAllOne(c: Call)
    ensures GateAll([c]) == Gate(c)
  {
    assert [c][1..] == [];
  }

  /** Every request in the log is immediately preceded by its token and its metric increment. */
  ghost predicate Gated(ev: seq<Event>) {
    forall j :: 0 <= j < |ev| && ev[j].Http? ==>
      j >= 2 && ev[j - 2] == Accept && ev[j - 1] == Metric(ev[j].call.MetricZone(), ev[j].call.Kind())
  }

  lemma GatedAppend(a: seq<Event>, b: seq<Event>)
    requires Gated(a) && Gated(b)
    ensures Gated(a + b)
  {
    forall j | 0 <= j < |a + b| && (a + b)[j].Http?
      ensures j >= 2 && (a + b)[j - 2] == Accept
      ensures (a + b)[j - 1] == Metric((a + b)[j].call.MetricZone(), (a + b)[j].call.Kind())
    {
      if j >= |a| {
        assert (a + b)[j] == b[j - |a|];
      }
    }
  }

  lemma {:induction false} GateAllGated(cs: seq<Call>)
    ensures Gated(GateAll(cs))
  {
    if cs != [] {
      GateAllGated(cs[1..]);
      GatedAppend(Gate(cs[0]), GateAll(cs[1..]));
    }
  }

  /** The requests of a log, in order. */
  function HttpCalls(ev: seq<Event>): seq<Call> {
    if ev == [] then [] else (if ev[0].Http? then [ev[0].call] else []) + HttpCalls(ev[1..])
  }

  lemma {:induction false} HttpCallsAppend(a: seq<Event>, b: seq<Event>)
    ensures HttpCalls(a + b) == HttpCalls(a) + HttpCalls(b)
  {
    if a == [] {
      assert a + b == b;
    } else {
      var h := if a[0].Http? then [a[0].call] else [];
      assert (a + b)[0] == a[0] && (a + b)[1..] == a[1..] + b;
      assert HttpCalls(a + b) == h + HttpCalls(a[1..] + b);
      HttpCallsAppend(a[1..], b);
      assert h + (HttpCalls(a[1..]) + HttpCalls(b)) == (h + HttpCalls(a[1..])) + HttpCalls(b);
    }
  }

  /** The rate-limiter tokens of a log. */
  function Tokens(ev: seq<Event>): nat {
    if ev == [] then 0 else (if ev[0] == Accept then 1 else 0) + Tokens(ev[1..])
  }

  lemma {:induction false} TokensAppend(a: seq<Event>, b: seq<Event>)
    ensures Tokens(a + b) == Tokens(a) + Tokens(b)
  {
    if a == [] {
      assert a + b == b;
    } else {
      assert (a + b)[1..] == a[1..] + b;
      TokensAppend(a[1..], b);
    }
  }

  /** A gated log gives back exactly its calls, and takes exactly one token per call. */
  lemma {:induction false} GateAllCalls(cs: seq<Call>)
    ensures HttpCalls(GateAll(cs)) == cs
    ensures Tokens(GateAll(cs)) == |cs|
  {
    if cs != [] {
      var g := Gate(cs[0]);
      assert g[1..] == [g[1], g[2]] && g[1..][1..] == [g[2]] && g[1..][1..][1..] == [];
      assert HttpCalls([g[2]]) == [cs[0]];
      assert HttpCalls(g) == [cs[0]];
      assert Tokens([g[2]]) == 0;
      assert Tokens(g) == 1;
      GateAllCalls(cs[1..]);
      HttpCallsAppend(g, GateAll(cs[1..]));
      TokensAppend(g, GateAll(cs[1..]));
      assert cs == [cs[0]] + cs[1..];
    }
  }

  /** The writes among a sequence of requests, in order. */
  function Writes(cs: seq<Call>): seq<Call> {
    if cs == [] then [] else (if cs[0].IsWrite() then [cs[0]] else []) + Writes(cs[1..])
  }

  lemma {:induction false} WritesAppend(a: seq<Call>, b: seq<Call>)
    ensures Writes(a + b) == Writes(a) + Writes(b)
  {
    if a == [] {
      assert a + b == b;
    } else {
      assert (a + b)[1..] == a[1..] + b;
      WritesAppend(a[1..], b);
    }
  }

  /** The remote zone store. */
  datatype Backend = Backend(
    zoneNames: seq<string>,
    zoneInfos: map<string, ZoneInfo>,
    ids: seq<int>,
    records: map<int, RecordInfo>,
    nextId: int,
    failing: set<Call>)
  {
    /** Listed ids are exactly the stored ones, each record knows its id, and new ids are fresh. */
    ghost predicate Valid() {
      (forall id :: id in records <==> id in ids) &&
      (forall id :: id in records ==> records[id].id == id && id < nextId)
    }
  }

  /** The record-listing filter: the zone, and sub-domain and type unless given as "". */
  predicate Matches(r: RecordInfo, zone: string, subDomain: string, fieldType: string) {
    r.zone == zone
    && (subDomain == "" || r.subDomain == subDomain)
    && (fieldType == "" || r.fieldType == fieldType)
  }

  /** The ids the record listing returns, in store order. */
  function Listed(ids: seq<int>, records: map<int, RecordInfo>, zone: string, subDomain: string,
                  fieldType: string): (r: seq<int>)
    ensures forall x :: x in r <==> x in ids && x in records && Matches(records[x], zone, subDomain, fieldType)
    ensures forall i :: 0 <= i < |r| ==> r[i] in records && Matches(records[r[i]], zone, subDomain, fieldType)
  {
    if ids == [] then []
    else
      (if ids[0] in records && Matches(records[ids[0]], zone, subDomain, fieldType) then [ids[0]] else [])
      + Listed(ids[1..], records, zone, subDomain, fieldType)
  }

  function Without(s: seq<int>, x: int): (r: seq<int>)
    ensures forall y :: y in r <==> y in s && y != x
  {
    if s == [] then [] else (if s[0] == x then [] else [s[0]]) + Without(s[1..], x)
  }

  /** What the remote API answers. */
  datatype Reply = Failed | Names(names: seq<string>) | Zone(info: ZoneInfo) | Ids(ids: seq<int>)
                 | Record(record: RecordInfo) | Done

  /** The record `id` exists and belongs to `zone`. */
  predicate Owns(b: Backend, zone: string, id: int) {
    id in b.records && b.records[id].zone == zone
  }

  /** The record a POST creates: the body under the next free id, in the zone of the path. */
  function Created(b: Backend, zone: string, body: RecordInfo): RecordInfo {
    body.(id := b.nextId, zone := zone)
  }

  /** A PUT changes the fields its JSON body carries; empty fields are omitted from the body. */
  function Overlay(r: RecordInfo, body: RecordInfo): RecordInfo {
    r.(fieldType := if body.fieldType != "" then body.fieldType else r.fieldType,
       subDomain := if body.subDomain != "" then body.subDomain else r.subDomain,
       target := if body.target != "" then body.target else r.target,
       ttl := if body.ttl != 0 then body.ttl else r.ttl)
  }

  function Respond(b: Backend, c: Call): Reply {
    if c in b.failing then Failed
    else match c
      case GetZoneNames => Names(b.zoneNames)
      case GetZone(n) => if n in b.zoneInfos then Zone(b.zoneInfos[n]) else Failed
      case GetRecordIds(z, s, f) => Ids(Listed(b.ids, b.records, z, s, f))
      case GetRecord(z, id) => if Owns(b, z, id) then Record(b.records[id]) else Failed
      case PostRecord(z, body) => Record(Created(b, z, body))
      case PutRecord(z, id, _) => if Owns(b, z, id) then Done else Failed
      case DeleteRecord(z, id) => if Owns(b, z, id) then Done else Failed
      case PostRefresh(_) => Done
  }

  /** The store after a call; a failed call and every read leave it alone. */
  function Apply(b: Backend, c: Call): Backend {
    if Respond(b, c).Failed? then b
    else match c
      case PostRecord(z, body) =>
        b.(ids := b.ids + [b.nextId], records := b.records[b.nextId := Created(b, z, body)],
           nextId := b.nextId + 1)
      case PutRecord(_, id, body) =>
        if id in b.records then b.(records := b.records[id := Overlay(b.records[id], body)]) else b
      case DeleteRecord(_, id) => b.(ids := Without(b.ids, id), records := b.records - {id})
      case _ => b
  }

  lemma ApplyValid(b: Backend, c: Call)
    requires b.Valid()
    ensures Apply(b, c).Valid()
    ensures !c.IsWrite() ==> Apply(b, c) == b
  {
  }

  /** The outcome of a read that returns a list: the result and the requests it made. */
  datatype Fetched<T> = Fetched(result: Result<seq<T>, Error>, calls: seq<Call>)

  function Glue<T>(acc: seq<T>, r: Result<seq<T>, Error>): Result<seq<T>, Error> {
    if r.Ok? then Ok(acc + r.value) else r
  }

  lemma GlueNil<T>(r: Result<seq<T>, Error>)
    ensures Glue([], r) == r
  {
    if r.Ok? {
      assert [] + r.value == r.value;
    }
  }

  /** A fetch that already made `calls` and collected `acc`, continued by `rest`. */
  function Then<T>(acc: seq<T>, calls: seq<Call>, rest: Fetched<T>): Fetched<T> {
    Fetched(Glue(acc, rest.result), calls + rest.calls)
  }

  lemma ThenStep<T>(acc: seq<T>, calls: seq<Call>, x: T, cs: seq<Call>, rest: Fetched<T>)
    ensures Then(acc, calls, Fetched(Glue([x], rest.result), cs + rest.calls))
         == Then(acc + [x], calls + cs, rest)
  {
    assert calls + (cs + rest.calls) == calls + cs + rest.calls;
    if rest.result.Ok? {
      assert acc + ([x] + rest.result.value) == acc + [x] + rest.result.value;
    }
  }

  lemma ThenDone<T>(acc: seq<T>, calls: seq<Call>)
    ensures Then(acc, calls, Fetched(Ok([]), [])) == Fetched(Ok(acc), calls)
  {
    assert acc + [] == acc && calls + [] == calls;
  }

  /** One GET /domain/zone/{zone} per name, stopping at the first failure. */
  function FetchZones(b: Backend, names: seq<string>): Fetched<ZoneInfo> {
    if names == [] then Fetched(Ok([]), [])
    else
      var c := GetZone(names[0]);
      match Respond(b, c)
      case Zone(z) =>
        var rest := FetchZones(b, names[1..]);
        Fetched(Glue([z], rest.result), [c] + rest.calls)
      case _ => Fetched(Err(ApiError(c)), [c])
  }

  /** `getZones`: the zone listing, then each zone's metadata. */
  function GetZonesSpec(b: Backend): Fetched<ZoneInfo> {
    match Respond(b, GetZoneNames)
    case Names(ns) =>
      var f := FetchZones(b, ns);
      Fetched(f.result, [GetZoneNames] + f.calls)
    case _ => Fetched(Err(ApiError(GetZoneNames)), [GetZoneNames])
  }

  /** One GET .../record/{id} per id, stopping at the first failure. */
  function FetchRecords(b: Backend, zone: string, ids: seq<int>): Fetched<RecordInfo> {
    if ids == [] then Fetched(Ok([]), [])
    else
      var c := GetRecord(zone, ids[0]);
      match Respond(b, c)
      case Record(r) =>
        var rest := FetchRecords(b, zone, ids[1..]);
        Fetched(Glue([r], rest.result), [c] + rest.calls)
      case _ => Fetched(Err(ApiError(c)), [c])
  }

  lemma FetchRecordsStep(b: Backend, zone: string, ids: seq<int>, i: nat, records: seq<RecordInfo>,
                         calls: seq<Call>)
    requires i < |ids|
    requires FetchRecords(b, zone, ids) == Then(records, calls, FetchRecords(b, zone, ids[i..]))
    ensures var c := GetRecord(zone, ids[i]);
      match Respond(b, c)
      case Record(r) =>
        FetchRecords(b, zone, ids) == Then(records + [r], calls + [c], FetchRecords(b, zone, ids[i + 1..]))
      case _ => FetchRecords(b, zone, ids) == Fetched(Err(ApiError(c)), calls + [c])
  {
    assert ids[i..][1..] == ids[i + 1..];
    var c := GetRecord(zone, ids[i]);
    match Respond(b, c)
    case Record(r) => ThenStep(records, calls, r, [c], FetchRecords(b, zone, ids[i + 1..]));
    case _ =>
  }

  /** `getRecordSets`: the id listing, then each record's body. */
  function GetRecordSetsSpec(b: Backend, zone: string, subDomain: string, fieldType: string)
    : Fetched<RecordInfo>
  {
    var c := GetRecordIds(zone, subDomain, fieldType);
    match Respond(b, c)
    case Ids(ids) =>
      var f := FetchRecords(b, zone, ids);
      Fetched(f.result, [c] + f.calls)
    case _ => Fetched(Err(ApiError(c)), [c])
  }

  /** The first record whose target is `value`. */
  function FindByTarget(rs: seq<RecordInfo>, value: string): (o: Option<RecordInfo>)
    ensures o.None? <==> forall i :: 0 <= i < |rs| ==> rs[i].target != value
    ensures o.Some? ==> exists i :: 0 <= i < |rs| && rs[i] == o.value && rs[i].target == value
                                    && forall j :: 0 <= j < i ==> rs[j].target != value
  {
    if rs == [] then None
    else if rs[0].target == value then Some(rs[0])
    else
      var o := FindByTarget(rs[1..], value);
      assert o.Some? ==> exists i :: 0 < i < |rs| && rs[i] == o.value && rs[i].target == value
                                    && forall j :: 0 <= j < i ==> rs[j].target != value by {
        if o.Some? {
          var i :| 0 <= i < |rs[1..]| && rs[1..][i] == o.value && rs[1..][i].target == value
                   && forall j :: 0 <= j < i ==> rs[1..][j].target != value;
          assert rs[i + 1] == o.value;
          assert forall j :: 0 < j < i + 1 ==> rs[j] == rs[1..][j - 1];
        }
      }
      o
  }

  /** The outcome of a single-record lookup. */
  datatype Found = Found(result: Result<Option<RecordInfo>, Error>, calls: seq<Call>)

  /** `getRecordSet`: the listed record of that sub-domain and type whose target is `value`. */
  function GetRecordSetSpec(b: Backend, zone: string, subDomain: string, value: string,
                            fieldType: string): Found
  {
    var f := GetRecordSetsSpec(b, zone, subDomain, fieldType);
    Found(if f.result.Ok? then Ok(FindByTarget(f.result.value, value)) else Err(f.result.error),
          f.calls)
  }

  /** The outcome of a write: the error, the requests made, and the new store. */
  datatype Effect = Effect(err: Option<Error>, calls: seq<Call>, backend: Backend)

  function Send(b: Backend, c: Call): Effect {
    Effect(if Respond(b, c).Failed? then Some(ApiError(c)) else None, [c], Apply(b, c))
  }

  /** The POST body of `createRecordSet`. */
  function CreateBody(name: string, value: string, fieldType: string, ttl: int): RecordInfo {
    RecordInfo(fieldType, 0, name, value, ttl, "")
  }

  /** The PUT body of `updateRecordSet`: the TTL and nothing else. */
  function TtlBody(ttl: int): RecordInfo {
    RecordInfo("", 0, "", "", ttl, "")
  }

  function CreateSpec(b: Backend, zone: string, name: string, value: string, fieldType: string,
                      ttl: int): Effect
  {
    Send(b, PostRecord(zone, CreateBody(name, value, fieldType, ttl)))
  }

  function UpdateSpec(b: Backend, zone: string, subDomain: string, value: string,
                      fieldType: string, ttl: int): Effect
  {
    var f := GetRecordSetSpec(b, zone, subDomain, value, fieldType);
    match f.result
    case Err(e) => Effect(Some(e), f.calls, b)
    case Ok(None) => Effect(Some(RecordNotFound(zone, subDomain, fieldType)), f.calls, b)
    case Ok(Some(rec)) =>
      var s := Send(b, PutRecord(zone, rec.id, TtlBody(ttl)));
      Effect(s.err, f.calls + s.calls, s.backend)
  }

  function DeleteSpec(b: Backend, zone: string, subDomain: string, value: string,
                      fieldType: string): Effect
  {
    var f := GetRecordSetSpec(b, zone, subDomain, value, fieldType);
    match f.result
    case Err(e) => Effect(Some(e), f.calls, b)
    case Ok(None) => Effect(None, f.calls, b)
    case Ok(Some(rec)) =>
      var s := Send(b, DeleteRecord(zone, rec.id));
      Effect(s.err, f.calls + s.calls, s.backend)
  }

  function RefreshSpec(b: Backend, zone: string): Effect {
    Send(b, PostRefresh(zone))
  }

  /** GET /domain/zone/{name} succeeds. */
  predicate Fetchable(b: Backend, name: string) {
    GetZone(name) !in b.failing && name in b.zoneInfos
  }

  /** GET .../record/{id} succeeds. */
  predicate Readable(b: Backend, zone: string, id: int) {
    GetRecord(zone, id) !in b.failing && Owns(b, zone, id)
  }

  /** Every request of the sequence is a GET. */
  predicate ReadOnly(cs: seq<Call>) {
    forall i :: 0 <= i < |cs| ==> cs[i].IsRead()
  }

  lemma {:induction false} ReadOnlyWrites(cs: seq<Call>)
    requires ReadOnly(cs)
    ensures Writes(cs) == []
  {
    if cs != [] {
      ReadOnlyWrites(cs[1..]);
    }
  }

  /**
   * The metadata fetch succeeds exactly when every zone is fetchable; then it makes one GET per
   * name and returns the metadata in name order. Otherwise it stops at the first zone that
   * fails, after the GETs up to and including that one.
   */
  lemma {:induction false} FetchZonesOk(b: Backend, names: seq<string>)
    ensures var f := FetchZones(b, names);
      f.result.Ok? <==> forall i :: 0 <= i < |names| ==> Fetchable(b, names[i])
    ensures var f := FetchZones(b, names);
      f.result.Ok? ==> (
        |f.calls| == |names| && |f.result.value| == |names|
        && forall i :: 0 <= i < |names| ==>
             f.calls[i] == GetZone(names[i]) && f.result.value[i] == b.zoneInfos[names[i]])
  {
    if names != [] {
      FetchZonesOk(b, names[1..]);
      assert forall i :: 1 <= i < |names| ==> names[1..][i - 1] == names[i];
    }
  }

  /** The position of the first zone whose metadata cannot be fetched, |names| if none. */
  function FirstUnfetchable(b: Backend, names: seq<string>): (k: nat)
    ensures k <= |names| && (k < |names| ==> !Fetchable(b, names[k]))
    ensures forall i :: 0 <= i < k ==> Fetchable(b, names[i])
  {
    if names == [] || !Fetchable(b, names[0]) then 0
    else
      var k := FirstUnfetchable(b, names[1..]);
      assert forall i :: 1 <= i < k + 1 ==> names[i] == names[1..][i - 1];
      k + 1
  }

  /** The metadata fetch stops at the first zone that fails, after the GETs up to that one. */
  lemma {:induction false} FetchZonesStopsAt(b: Backend, names: seq<string>, k: nat)
    requires k < |names| && !Fetchable(b, names[k])
    requires forall i :: 0 <= i < k ==> Fetchable(b, names[i])
    ensures var f := FetchZones(b, names);
      f.result == Err(ApiError(GetZone(names[k]))) && |f.calls| == k + 1
      && forall i :: 0 <= i <= k ==> f.calls[i] == GetZone(names[i])
  {
    if k > 0 {
      assert forall i :: 0 <= i < k - 1 ==> names[1..][i] == names[i + 1];
      FetchZonesStopsAt(b, names[1..], k - 1);
      var rest := FetchZones(b, names[1..]);
      assert FetchZones(b, names).calls == [GetZone(names[0])] + rest.calls;
      assert forall i :: 1 <= i <= k ==> names[i] == names[1..][i - 1];
    }
  }

  /** A failed metadata fetch stops at the first zone that fails, after the GETs up to it. */
  lemma FetchZonesErr(b: Backend, names: seq<string>)
    ensures var f := FetchZones(b, names);
      f.result.Err? ==> exists k :: (
        0 <= k < |names| && !Fetchable(b, names[k])
        && (forall i :: 0 <= i < k ==> Fetchable(b, names[i]))
        && f.result.error == ApiError(GetZone(names[k])) && |f.calls| == k + 1
        && forall i :: 0 <= i <= k ==> f.calls[i] == GetZone(names[i]))
  {
    var k := FirstUnfetchable(b, names);
    if k < |names| {
      FetchZonesStopsAt(b, names, k);
    } else {
      FetchZonesOk(b, names);
    }
  }

  /**
   * The body fetch succeeds exactly when every id is readable; then it makes one GET per id and
   * returns the stored bodies in id order.
   */
  lemma {:induction false} FetchRecordsOk(b: Backend, zone: string, ids: seq<int>)
    ensures var f := FetchRecords(b, zone, ids);
      f.result.Ok? <==> forall i :: 0 <= i < |ids| ==> Readable(b, zone, ids[i])
    ensures var f := FetchRecords(b, zone, ids);
      f.result.Ok? ==> (
        |f.calls| == |ids| && |f.result.value| == |ids|
        && forall i :: 0 <= i < |ids| ==>
             f.calls[i] == GetRecord(zone, ids[i]) && f.result.value[i] == b.records[ids[i]])
  {
    if ids != [] {
      FetchRecordsOk(b, zone, ids[1..]);
      assert forall i :: 1 <= i < |ids| ==> ids[1..][i - 1] == ids[i];
    }
  }

  lemma {:induction false} FetchZonesReads(b: Backend, names: seq<string>)
    ensures ReadOnly(FetchZones(b, names).calls)
  {
    if names != [] {
      FetchZonesReads(b, names[1..]);
    }
  }

  /** The position of the first id whose body cannot be fetched, |ids| if none. */
  function FirstUnreadable(b: Backend, zone: string, ids: seq<int>): (k: nat)
    ensures k <= |ids| && (k < |ids| ==> !Readable(b, zone, ids[k]))
    ensures forall i :: 0 <= i < k ==> Readable(b, zone, ids[i])
  {
    if ids == [] || !Readable(b, zone, ids[0]) then 0
    else
      var k := FirstUnreadable(b, zone, ids[1..]);
      assert forall i :: 1 <= i < k + 1 ==> ids[i] == ids[1..][i - 1];
      k + 1
  }

  /** The body fetch stops at the first id that fails, after the GETs up to that one. */
  lemma {:induction false} FetchRecordsStopsAt(b: Backend, zone: string, ids: seq<int>, k: nat)
    requires k < |ids| && !Readable(b, zone, ids[k])
    requires forall i :: 0 <= i < k ==> Readable(b, zone, ids[i])
    ensures var f := FetchRecords(b, zone, ids);
      f.result == Err(ApiError(GetRecord(zone, ids[k]))) && |f.calls| == k + 1
      && forall i :: 0 <= i <= k ==> f.calls[i] == GetRecord(zone, ids[i])
  {
    if k > 0 {
      assert forall i :: 0 <= i < k - 1 ==> ids[1..][i] == ids[i + 1];
      FetchRecordsStopsAt(b, zone, ids[1..], k - 1);
      var rest := FetchRecords(b, zone, ids[1..]);
      assert FetchRecords(b, zone, ids).calls == [GetRecord(zone, ids[0])] + rest.calls;
      assert forall i :: 1 <= i <= k ==> ids[i] == ids[1..][i - 1];
    }
  }

  /**
   * A failed body fetch stops at the first id that fails, after the GETs up to and including
   * that one.
   */
  lemma FetchRecordsErr(b: Backend, zone: string, ids: seq<int>)
    ensures var f := FetchRecords(b, zone, ids);
      f.result.Err? ==> exists k :: (
        0 <= k < |ids| && !Readable(b, zone, ids[k])
        && (forall i :: 0 <= i < k ==> Readable(b, zone, ids[i]))
        && f.result.error == ApiError(GetRecord(zone, ids[k])) && |f.calls| == k + 1
        && forall i :: 0 <= i <= k ==> f.calls[i] == GetRecord(zone, ids[i]))
  {
    var k := FirstUnreadable(b, zone, ids);
    if k < |ids| {
      FetchRecordsStopsAt(b, zone, ids, k);
    } else {
      FetchRecordsOk(b, zone, ids);
    }
  }

  lemma {:induction false} FetchRecordsReads(b: Backend, zone: string, ids: seq<int>)
    ensures ReadOnly(FetchRecords(b, zone, ids).calls)
  {
    if ids != [] {
      FetchRecordsReads(b, zone, ids[1..]);
    }
  }

  /**
   * `getZones` returns one metadata value per listed zone name, in listing order, after exactly
   * 1 + N requests and tokens; it fails exactly when the listing or some zone's GET fails, and
   * then returns no zones.
   */
  lemma GetZonesCost(b: Backend)
    ensures var f := GetZonesSpec(b);
      f.result.Ok? <==> GetZoneNames !in b.failing
                        && forall i :: 0 <= i < |b.zoneNames| ==> Fetchable(b, b.zoneNames[i])
    ensures var f := GetZonesSpec(b);
      f.result.Ok? ==> (
        |f.result.value| == |b.zoneNames|
        && (forall i :: 0 <= i < |b.zoneNames| ==> f.result.value[i] == b.zoneInfos[b.zoneNames[i]])
        && |f.calls| == 1 + |b.zoneNames| && Tokens(GateAll(f.calls)) == 1 + |b.zoneNames|)
    ensures var f := GetZonesSpec(b);
      f.calls[0] == GetZoneNames && ReadOnly(f.calls)
  {
    var f := GetZonesSpec(b);
    GateAllCalls(f.calls);
    if GetZoneNames !in b.failing {
      FetchZonesOk(b, b.zoneNames);
      FetchZonesReads(b, b.zoneNames);
    }
  }

  /**
   * A failed `getZones` made either only the listing, which failed, or the listing and the
   * metadata GETs up to and including the first zone that failed.
   */
  lemma GetZonesFailFast(b: Backend)
    ensures var f := GetZonesSpec(b);
      f.result.Err? ==> (
        (GetZoneNames in b.failing && f.calls == [GetZoneNames])
        || exists k :: 0 <= k < |b.zoneNames| && !Fetchable(b, b.zoneNames[k])
             && (forall i :: 0 <= i < k ==> Fetchable(b, b.zoneNames[i]))
             && f.result.error == ApiError(GetZone(b.zoneNames[k])) && |f.calls| == k + 2)
  {
    if GetZoneNames !in b.failing {
      var fz := FetchZones(b, b.zoneNames);
      assert GetZonesSpec(b).calls == [GetZoneNames] + fz.calls;
      FetchZonesErr(b, b.zoneNames);
    }
  }

  /**
   * `getRecordSets` on N listed ids: it succeeds exactly when the listing and every body GET
   * succeed, and then makes exactly 1 + N requests and tokens and returns the N bodies in id
   * order.
   */
  lemma GetRecordSetsCost(b: Backend, zone: string, subDomain: string, fieldType: string)
    ensures var L := Listed(b.ids, b.records, zone, subDomain, fieldType);
      var f := GetRecordSetsSpec(b, zone, subDomain, fieldType);
      f.result.Ok? <==> GetRecordIds(zone, subDomain, fieldType) !in b.failing
                        && forall i :: 0 <= i < |L| ==> GetRecord(zone, L[i]) !in b.failing
    ensures var L := Listed(b.ids, b.records, zone, subDomain, fieldType);
      var f := GetRecordSetsSpec(b, zone, subDomain, fieldType);
      f.result.Ok? ==> (
        |f.calls| == 1 + |L| && Tokens(GateAll(f.calls)) == 1 + |L| && |f.result.value| == |L|
        && forall i :: 0 <= i < |L| ==>
             f.calls[i + 1] == GetRecord(zone, L[i]) && f.result.value[i] == b.records[L[i]])
  {
    var L := Listed(b.ids, b.records, zone, subDomain, fieldType);
    var f := GetRecordSetsSpec(b, zone, subDomain, fieldType);
    GateAllCalls(f.calls);
    if GetRecordIds(zone, subDomain, fieldType) !in b.failing {
      var fr := FetchRecords(b, zone, L);
      assert f == Fetched(fr.result, [GetRecordIds(zone, subDomain, fieldType)] + fr.calls);
      FetchRecordsOk(b, zone, L);
      assert forall i :: 0 <= i < |L| ==> Owns(b, zone, L[i]);
      assert L == Listed(b.ids, b.records, zone, subDomain, fieldType);
    }
  }

  /**
   * A failed `getRecordSets` stops at the first request that fails: the listing alone, or the
   * listing and the body GETs up to and including the one that failed. It only ever reads.
   */
  lemma GetRecordSetsFailFast(b: Backend, zone: string, subDomain: string, fieldType: string)
    ensures var L := Listed(b.ids, b.records, zone, subDomain, fieldType);
      var f := GetRecordSetsSpec(b, zone, subDomain, fieldType);
      f.result.Err? ==> (
        (GetRecordIds(zone, subDomain, fieldType) in b.failing
         && f.calls == [GetRecordIds(zone, subDomain, fieldType)])
        || exists k :: 0 <= k < |L| && GetRecord(zone, L[k]) in b.failing
             && (forall i :: 0 <= i < k ==> GetRecord(zone, L[i]) !in b.failing)
             && f.result.error == ApiError(GetRecord(zone, L[k])) && |f.calls| == k + 2)
  {
    var L := Listed(b.ids, b.records, zone, subDomain, fieldType);
    var f := GetRecordSetsSpec(b, zone, subDomain, fieldType);
    if GetRecordIds(zone, subDomain, fieldType) !in b.failing {
      var fr := FetchRecords(b, zone, L);
      assert f == Fetched(fr.result, [GetRecordIds(zone, subDomain, fieldType)] + fr.calls);
      var k := FirstUnreadable(b, zone, L);
      if k == |L| {
        FetchRecordsOk(b, zone, L);
      } else {
        FetchRecordsStopsAt(b, zone, L, k);
        assert L[k] in L;
        assert GetRecord(zone, L[k]) in b.failing;
        assert forall i :: 0 <= i < k ==> GetRecord(zone, L[i]) !in b.failing;
        assert f.result.error == ApiError(GetRecord(zone, L[k])) && |f.calls| == k + 2;
        assert L == Listed(b.ids, b.records, zone, subDomain, fieldType);
      }
    }
  }

  /** `getRecordSets` only reads, and starts with the id listing. */
  lemma GetRecordSetsReads(b: Backend, zone: string, subDomain: string, fieldType: string)
    ensures var f := GetRecordSetsSpec(b, zone, subDomain, fieldType);
      f.calls[0] == GetRecordIds(zone, subDomain, fieldType) && ReadOnly(f.calls)
  {
    var L := Listed(b.ids, b.records, zone, subDomain, fieldType);
    var f := GetRecordSetsSpec(b, zone, subDomain, fieldType);
    if GetRecordIds(zone, subDomain, fieldType) !in b.failing {
      var fr := FetchRecords(b, zone, L);
      assert f.calls == [GetRecordIds(zone, subDomain, fieldType)] + fr.calls;
      FetchRecordsReads(b, zone, L);
      assert forall i :: 1 <= i < |f.calls| ==> f.calls[i] == fr.calls[i - 1];
    }
  }

  /**
   * `getRecordSet` returns the first listed record of that sub-domain and type whose target is
   * `value`, and nothing when no listed record has that target; it makes only the listing's
   * requests.
   */
  lemma GetRecordSetFinds(b: Backend, zone: string, subDomain: string, value: string,
                          fieldType: string)
    ensures var L := Listed(b.ids, b.records, zone, subDomain, fieldType);
      var f := GetRecordSetSpec(b, zone, subDomain, value, fieldType);
      f.result == Ok(None) <==> GetRecordSetsSpec(b, zone, subDomain, fieldType).result.Ok?
                                 && forall i :: 0 <= i < |L| ==> b.records[L[i]].target != value
    ensures var L := Listed(b.ids, b.records, zone, subDomain, fieldType);
      var f := GetRecordSetSpec(b, zone, subDomain, value, fieldType);
      f.result.Ok? && f.result.value.Some? ==>
        exists i :: 0 <= i < |L| && f.result.value.value == b.records[L[i]]
          && b.records[L[i]].target == value
          && forall j :: 0 <= j < i ==> b.records[L[j]].target != value
    ensures var f := GetRecordSetSpec(b, zone, subDomain, value, fieldType);
      f.calls == GetRecordSetsSpec(b, zone, subDomain, fieldType).calls && ReadOnly(f.calls)
  {
    GetRecordSetsCost(b, zone, subDomain, fieldType);
    GetRecordSetsReads(b, zone, subDomain, fieldType);
  }

  /** In a valid store a record found by the lookup is stored under its own id in that zone. */
  lemma FoundIsStored(b: Backend, zone: string, subDomain: string, value: string,
                      fieldType: string)
    requires b.Valid()
    ensures var f := GetRecordSetSpec(b, zone, subDomain, value, fieldType);
      f.result.Ok? && f.result.value.Some? ==>
        var r := f.result.value.value;
        r.target == value && Owns(b, zone, r.id) && b.records[r.id] == r
        && Matches(r, zone, subDomain, fieldType)
  {
    var f := GetRecordSetSpec(b, zone, subDomain, value, fieldType);
    if f.result.Ok? && f.result.value.Some? {
      var L := Listed(b.ids, b.records, zone, subDomain, fieldType);
      GetRecordSetFinds(b, zone, subDomain, value, fieldType);
      var i :| 0 <= i < |L| && f.result.value.value == b.records[L[i]];
      assert L[i] in b.records && Matches(b.records[L[i]], zone, subDomain, fieldType);
      assert b.records[L[i]].id == L[i];
    }
  }

  /**
   * `deleteRecordSet`: with no matching record it succeeds without writing; with one it writes
   * exactly one DELETE on that record's id, after the lookup. A failed lookup writes nothing.
   */
  lemma DeleteWrites(b: Backend, zone: string, subDomain: string, value: string, fieldType: string)
    ensures var f := GetRecordSetSpec(b, zone, subDomain, value, fieldType);
      var e := DeleteSpec(b, zone, subDomain, value, fieldType);
      (f.result == Ok(None) ==> e.err.None? && e.backend == b && Writes(e.calls) == [])
      && (f.result.Err? ==> e.err == Some(f.result.error) && e.backend == b && Writes(e.calls) == [])
      && (f.result.Ok? && f.result.value.Some? ==>
            e.calls == f.calls + [DeleteRecord(zone, f.result.value.value.id)]
            && Writes(e.calls) == [DeleteRecord(zone, f.result.value.value.id)])
  {
    var f := GetRecordSetSpec(b, zone, subDomain, value, fieldType);
    GetRecordSetFinds(b, zone, subDomain, value, fieldType);
    ReadOnlyWrites(f.calls);
    if f.result.Ok? && f.result.value.Some? {
      var c := DeleteRecord(zone, f.result.value.value.id);
      WritesAppend(f.calls, [c]);
      assert Writes([c]) == [c];
    }
  }

  /** A DELETE that goes through removes exactly the record found, and nothing else. */
  lemma DeleteRemoves(b: Backend, zone: string, subDomain: string, value: string, fieldType: string)
    requires b.Valid()
    ensures var f := GetRecordSetSpec(b, zone, subDomain, value, fieldType);
      var e := DeleteSpec(b, zone, subDomain, value, fieldType);
      f.result.Ok? && f.result.value.Some? ==>
        var id := f.result.value.value.id;
        (DeleteRecord(zone, id) !in b.failing ==>
          e.err.None? && e.backend.records == b.records - {id} && id !in e.backend.ids
          && forall x :: x in e.backend.ids <==> x in b.ids && x != id)
        && (DeleteRecord(zone, id) in b.failing ==>
              e.err == Some(ApiError(DeleteRecord(zone, id))) && e.backend == b)
  {
    var f := GetRecordSetSpec(b, zone, subDomain, value, fieldType);
    if f.result.Ok? && f.result.value.Some? {
      FoundIsStored(b, zone, subDomain, value, fieldType);
      var c := DeleteRecord(zone, f.result.value.value.id);
      var snd := Send(b, c);
      assert DeleteSpec(b, zone, subDomain, value, fieldType)
          == Effect(snd.err, f.calls + snd.calls, snd.backend);
      if c !in b.failing {
        assert Respond(b, c) == Done;
        assert snd.backend == b.(ids := Without(b.ids, c.id), records := b.records - {c.id});
      }
    }
  }

  /** A zone `z` with an A record `www -> 1.2.3.4` (id 1) and an apex A record of the same target (id 2). */
  function ApexExample(): Backend {
    Backend([], map[], [1, 2], map[1 := RecordInfo("A", 1, "www", "1.2.3.4", 300, "z"),
                                   2 := RecordInfo("A", 2, "", "1.2.3.4", 300, "z")], 3, {})
  }

  lemma ApexExampleListed()
    ensures Listed(ApexExample().ids, ApexExample().records, "z", "", "A") == [1, 2]
  {
    var b := ApexExample();
    assert [1, 2][1..] == [2] && [2][1..] == [];
    assert Listed([2], b.records, "z", "", "A") == [2];
  }

  lemma ApexExampleFetched()
    ensures FetchRecords(ApexExample(), "z", [1, 2]).result
         == Ok([ApexExample().records[1], ApexExample().records[2]])
  {
    var b := ApexExample();
    var www, apex := b.records[1], b.records[2];
    assert [1, 2][1..] == [2] && [2][1..] == [];
    assert Respond(b, GetRecord("z", 2)) == Record(apex);
    assert FetchRecords(b, "z", []).result == Ok([]);
    assert [apex] + [] == [apex];
    assert FetchRecords(b, "z", [2]).result == Ok([apex]);
    assert Respond(b, GetRecord("z", 1)) == Record(www);
    assert [www] + [apex] == [www, apex];
  }

  /**
   * The listing filter treats an empty sub-domain as "any", so a delete aimed at the apex
   * record can find, and remove, a record of another name with the same type and target: in
   * `ApexExample` the `www` record (id 1) goes and the apex record (id 2) stays.
   */
  lemma ApexDeleteHitsOtherName()
    ensures var e := DeleteSpec(ApexExample(), "z", "", "1.2.3.4", "A");
      e.err.None? && e.backend.ids == [2]
      && e.backend.records == map[2 := RecordInfo("A", 2, "", "1.2.3.4", 300, "z")]
  {
    var b := ApexExample();
    ApexExampleListed();
    ApexExampleFetched();
    assert GetRecordSetsSpec(b, "z", "", "A").result == Ok([b.records[1], b.records[2]]);
    assert GetRecordSetSpec(b, "z", "", "1.2.3.4", "A").result == Ok(Some(b.records[1]));
    assert Without(b.ids, 1) == [2];
    assert b.records - {1} == map[2 := b.records[2]];
  }

  /**
   * `updateRecordSet`: with no matching record it fails with "could not find record" and writes
   * nothing; with one it writes exactly one PUT on that record's id, after the lookup.
   */
  lemma UpdateWrites(b: Backend, zone: string, subDomain: string, value: string, fieldType: string,
                     ttl: int)
    ensures var f := GetRecordSetSpec(b, zone, subDomain, value, fieldType);
      var e := UpdateSpec(b, zone, subDomain, value, fieldType, ttl);
      (f.result == Ok(None) ==> e.err == Some(RecordNotFound(zone, subDomain, fieldType))
                                && e.backend == b && Writes(e.calls) == [])
      && (f.result.Err? ==> e.err == Some(f.result.error) && e.backend == b && Writes(e.calls) == [])
      && (f.result.Ok? && f.result.value.Some? ==>
            e.calls == f.calls + [PutRecord(zone, f.result.value.value.id, TtlBody(ttl))]
            && Writes(e.calls) == [PutRecord(zone, f.result.value.value.id, TtlBody(ttl))])
  {
    var f := GetRecordSetSpec(b, zone, subDomain, value, fieldType);
    GetRecordSetFinds(b, zone, subDomain, value, fieldType);
    ReadOnlyWrites(f.calls);
    if f.result.Ok? && f.result.value.Some? {
      var c := PutRecord(zone, f.result.value.value.id, TtlBody(ttl));
      WritesAppend(f.calls, [c]);
      assert Writes([c]) == [c];
    }
  }

  /**
   * The PUT carries only the TTL: a PUT that goes through changes the TTL of the record found
   * (a TTL of 0 is omitted from the body and changes nothing) and no other field or record.
   */
  lemma UpdateChangesTtlOnly(b: Backend, zone: string, subDomain: string, value: string,
                             fieldType: string, ttl: int)
    requires b.Valid()
    ensures var f := GetRecordSetSpec(b, zone, subDomain, value, fieldType);
      var e := UpdateSpec(b, zone, subDomain, value, fieldType, ttl);
      f.result.Ok? && f.result.value.Some? ==>
        var r := f.result.value.value;
        (PutRecord(zone, r.id, TtlBody(ttl)) !in b.failing ==>
          e.err.None? && e.backend.ids == b.ids
          && e.backend.records == b.records[r.id := r.(ttl := if ttl != 0 then ttl else r.ttl)])
        && (PutRecord(zone, r.id, TtlBody(ttl)) in b.failing ==>
              e.err == Some(ApiError(PutRecord(zone, r.id, TtlBody(ttl)))) && e.backend == b)
  {
    var f := GetRecordSetSpec(b, zone, subDomain, value, fieldType);
    if f.result.Ok? && f.result.value.Some? {
      FoundIsStored(b, zone, subDomain, value, fieldType);
      var r := f.result.value.value;
      var c := PutRecord(zone, r.id, TtlBody(ttl));
      var snd := Send(b, c);
      assert UpdateSpec(b, zone, subDomain, value, fieldType, ttl)
          == Effect(snd.err, f.calls + snd.calls, snd.backend);
      if c !in b.failing {
        assert Respond(b, c) == Done;
        assert Overlay(b.records[r.id], TtlBody(ttl)) == r.(ttl := if ttl != 0 then ttl else r.ttl);
        assert snd.backend == b.(records := b.records[r.id := Overlay(b.records[r.id], TtlBody(ttl))]);
      }
    }
  }

  /** The listing after a record is added under a fresh id: the old listing, then the new id if it matches. */
  lemma {:induction false} ListedAppend(ids: seq<int>, records: map<int, RecordInfo>, k: int,
                                        v: RecordInfo, zone: string, subDomain: string,
                                        fieldType: string)
    requires k !in ids
    ensures Listed(ids + [k], records[k := v], zone, subDomain, fieldType)
         == Listed(ids, records, zone, subDomain, fieldType)
            + (if Matches(v, zone, subDomain, fieldType) then [k] else [])
  {
    if ids == [] {
      assert [k][1..] == [];
    } else {
      var x := ids[0];
      assert (ids + [k])[0] == x && x != k;
      assert (x in records[k := v]) == (x in records);
      if x in records {
        assert records[k := v][x] == records[x];
      }
      assert (ids + [k])[1..] == ids[1..] + [k];
      ListedAppend(ids[1..], records, k, v, zone, subDomain, fieldType);
    }
  }

  /**
   * `createRecordSet` makes one POST whose body carries the arguments; when it goes through, the
   * store gains exactly one record (those fields, the zone of the path, a fresh id), listed last.
   */
  lemma CreateAdds(b: Backend, zone: string, name: string, value: string, fieldType: string,
                   ttl: int)
    requires b.Valid()
    ensures var e := CreateSpec(b, zone, name, value, fieldType, ttl);
      e.calls == [PostRecord(zone, RecordInfo(fieldType, 0, name, value, ttl, ""))]
      && Writes(e.calls) == e.calls
    ensures var e := CreateSpec(b, zone, name, value, fieldType, ttl);
      var c := PostRecord(zone, CreateBody(name, value, fieldType, ttl));
      (c !in b.failing ==>
        e.err.None? && b.nextId !in b.records
        && e.backend.ids == b.ids + [b.nextId]
        && e.backend.records == b.records[b.nextId := RecordInfo(fieldType, b.nextId, name, value, ttl, zone)])
      && (c in b.failing ==> e.err == Some(ApiError(c)) && e.backend == b)
  {
    var e := CreateSpec(b, zone, name, value, fieldType, ttl);
    assert Writes(e.calls) == e.calls by {
      assert e.calls[1..] == [];
    }
  }

  /**
   * A record created through `createRecordSet` is then found by `getRecordSet` with the same
   * sub-domain, type and value (the lookup returns the first listed record with that target).
   */
  lemma CreateThenFound(b: Backend, zone: string, name: string, value: string, fieldType: string,
                        ttl: int)
    requires b.Valid() && b.failing == {}
    ensures var after := CreateSpec(b, zone, name, value, fieldType, ttl).backend;
      var f := GetRecordSetSpec(after, zone, name, value, fieldType);
      f.result.Ok? && f.result.value.Some? && f.result.value.value.target == value
      && Matches(f.result.value.value, zone, name, fieldType)
  {
    var after := CreateSpec(b, zone, name, value, fieldType, ttl).backend;
    var v := RecordInfo(fieldType, b.nextId, name, value, ttl, zone);
    CreateAdds(b, zone, name, value, fieldType, ttl);
    ListedAppend(b.ids, b.records, b.nextId, v, zone, name, fieldType);
    var L := Listed(after.ids, after.records, zone, name, fieldType);
    assert L[|L| - 1] == b.nextId;
    ApplyValid(b, PostRecord(zone, CreateBody(name, value, fieldType, ttl)));
    GetRecordSetFinds(after, zone, name, value, fieldType);
    GetRecordSetsCost(after, zone, name, fieldType);
    FoundIsStored(after, zone, name, value, fieldType);
  }

  /** The `access` object: the REST client, the metrics sink and the rate limiter. */
  class Client {
    var backend: Backend
    var log: seq<Event>

    ghost predicate Valid()
      reads this
    {
      backend.Valid()
    }

    constructor (b: Backend)
      requires b.Valid()
      ensures Valid() && backend == b && log == []
    {
      backend := b;
      log := [];
    }

    /** One remote call: `rateLimiter.Accept()`, the metric increment, then the request. */
    method Request(c: Call) returns (reply: Reply)
      requires Valid()
      modifies this
      ensures Valid()
      ensures reply == Respond(old(backend), c) && backend == Apply(old(backend), c)
      ensures log == old(log) + Gate(c)
    {
      log := log + [Accept];
      log := log + [Metric(c.MetricZone(), c.Kind())];
      log := log + [Http(c)];
      reply := Respond(backend, c);
      ApplyValid(backend, c);
      backend := Apply(backend, c);
    }

    /** A remote call that only reads. */
    method Read(c: Call) returns (reply: Reply)
      requires Valid() && !c.IsWrite()
      modifies this
      ensures Valid() && backend == old(backend)
      ensures reply == Respond(backend, c) && log == old(log) + GateAll([c])
    {
      reply := Request(c);
      GateAllOne(c);
    }

    /** A `rateLimiter.Accept()` the provider takes on its own, outside this layer. */
    method TakeToken()
      requires Valid()
      modifies this
      ensures Valid() && backend == old(backend) && log == old(log) + [Accept]
    {
      log := log + [Accept];
    }

    /** The zone cache's `ApplyRequests(err, zone, reqs)` hook. */
    method ReportToCache(err: Option<Error>, zone: string, reqs: seq<ChangeRequest>)
      requires Valid()
      modifies this
      ensures Valid() && backend == old(backend)
      ensures log == old(log) + [CacheApply(err, zone, reqs)]
    {
      log := log + [CacheApply(err, zone, reqs)];
    }

    /** `getZones`. */
    method GetZones() returns (r: Result<seq<ZoneInfo>, Error>)
      requires Valid()
      modifies this
      ensures Valid() && backend == old(backend)
      ensures r == GetZonesSpec(old(backend)).result
      ensures log == old(log) + GateAll(GetZonesSpec(old(backend)).calls)
    {
      ghost var b := backend;
      var reply := Read(GetZoneNames);
      if !reply.Names? {
        return Err(ApiError(GetZoneNames));
      }
      var names := reply.names;
      ghost var calls: seq<Call> := [];
      var zones: seq<ZoneInfo> := [];
      var i := 0;
      assert names[i..] == names;
      GlueNil(FetchZones(b, names).result);
      while i < |names|
        invariant 0 <= i <= |names|
        invariant Valid() && backend == b
        invariant log == old(log) + GateAll([GetZoneNames] + calls)
        invariant FetchZones(b, names) == Then(zones, calls, FetchZones(b, names[i..]))
      {
        var c := GetZone(names[i]);
        assert names[i..][1..] == names[i + 1..];
        var rep := Read(c);
        GateAllAppend([GetZoneNames] + calls, [c]);
        Regroup([GetZoneNames], calls, [c]);
        Regroup(old(log), GateAll([GetZoneNames] + calls), GateAll([c]));
        if !rep.Zone? {
          assert FetchZones(b, names[i..]) == Fetched(Err(ApiError(c)), [c]);
          return Err(ApiError(c));
        }
        ThenStep(zones, calls, rep.info, [c], FetchZones(b, names[i + 1..]));
        zones := zones + [rep.info];
        calls := calls + [c];
        i := i + 1;
      }
      assert names[i..] == [];
      ThenDone(zones, calls);
      return Ok(zones);
    }

    /** `getRecordSets`. */
    method GetRecordSets(zone: string, subDomain: string, fieldType: string)
      returns (r: Result<seq<RecordInfo>, Error>)
      requires Valid()
      modifies this
      ensures Valid() && backend == old(backend)
      ensures r == GetRecordSetsSpec(old(backend), zone, subDomain, fieldType).result
      ensures log == old(log) + GateAll(GetRecordSetsSpec(old(backend), zone, subDomain, fieldType).calls)
    {
      var list := GetRecordIds(zone, subDomain, fieldType);
      var reply := Read(list);
      if !reply.Ids? {
        return Err(ApiError(list));
      }
      r := FetchBodies(zone, reply.ids);
      GateAllAppend([list], FetchRecords(backend, zone, reply.ids).calls);
      Regroup(old(log), GateAll([list]), GateAll(FetchRecords(backend, zone, reply.ids).calls));
    }

    /** The loop of `getRecordSets`: one GET per listed id, stopping at the first failure. */
    method FetchBodies(zone: string, ids: seq<int>) returns (r: Result<seq<RecordInfo>, Error>)
      requires Valid()
      modifies this
      ensures Valid() && backend == old(backend)
      ensures r == FetchRecords(old(backend), zone, ids).result
      ensures log == old(log) + GateAll(FetchRecords(old(backend), zone, ids).calls)
    {
      ghost var b := backend;
      ghost var calls: seq<Call> := [];
      var records: seq<RecordInfo> := [];
      var i := 0;
      assert ids[i..] == ids;
      GlueNil(FetchRecords(b, zone, ids).result);
      while i < |ids|
        invariant 0 <= i <= |ids|
        invariant Valid() && backend == b
        invariant log == old(log) + GateAll(calls)
        invariant FetchRecords(b, zone, ids) == Then(records, calls, FetchRecords(b, zone, ids[i..]))
      {
        var c := GetRecord(zone, ids[i]);
        var rep := Read(c);
        GateAllAppend(calls, [c]);
        Regroup(old(log), GateAll(calls), GateAll([c]));
        FetchRecordsStep(b, zone, ids, i, records, calls);
        if !rep.Record? {
          return Err(ApiError(c));
        }
        records := records + [rep.record];
        calls := calls + [c];
        i := i + 1;
      }
      assert ids[i..] == [];
      ThenDone(records, calls);
      return Ok(records);
    }

    /** `getRecordSet`: a linear search of the listing by target. */
    method GetRecordSet(zone: string, subDomain: string, value: string, fieldType: string)
      returns (r: Result<Option<RecordInfo>, Error>)
      requires Valid()
      modifies this
      ensures Valid() && backend == old(backend)
      ensures r == GetRecordSetSpec(old(backend), zone, subDomain, value, fieldType).result
      ensures log == old(log) + GateAll(GetRecordSetSpec(old(backend), zone, subDomain, value, fieldType).calls)
    {
      var listed := GetRecordSets(zone, subDomain, fieldType);
      if listed.Err? {
        return Err(listed.error);
      }
      var records := listed.value;
      var i := 0;
      while i < |records|
        invariant 0 <= i <= |records|
        invariant forall j :: 0 <= j < i ==> records[j].target != value
      {
        if records[i].target == value {
          return Ok(Some(records[i]));
        }
        i := i + 1;
      }
      return Ok(None);
    }

    /** `createRecordSet`: one POST. */
    method CreateRecordSet(zone: string, name: string, value: string, fieldType: string, ttl: int)
      returns (err: Option<Error>)
      requires Valid()
      modifies this
      ensures Valid()
      ensures var e := CreateSpec(old(backend), zone, name, value, fieldType, ttl);
        err == e.err && backend == e.backend && log == old(log) + GateAll(e.calls)
    {
      var c := PostRecord(zone, CreateBody(name, value, fieldType, ttl));
      var reply := Request(c);
      GateAllOne(c);
      if reply.Failed? {
        return Some(ApiError(c));
      }
      return None;
    }

    /** `updateRecordSet`: the lookup, then one TTL-only PUT on the record found. */
    method UpdateRecordSet(zone: string, subDomain: string, value: string, fieldType: string,
                           ttl: int)
      returns (err: Option<Error>)
      requires Valid()
      modifies this
      ensures Valid()
      ensures var e := UpdateSpec(old(backend), zone, subDomain, value, fieldType, ttl);
        err == e.err && backend == e.backend && log == old(log) + GateAll(e.calls)
    {
      ghost var log0 := log;
      var found := GetRecordSet(zone, subDomain, value, fieldType);
      if found.Err? {
        return Some(found.error);
      }
      if found.value.None? {
        return Some(RecordNotFound(zone, subDomain, fieldType));
      }
      ghost var lookupCalls := GetRecordSetSpec(old(backend), zone, subDomain, value, fieldType).calls;
      var c := PutRecord(zone, found.value.value.id, TtlBody(ttl));
      var reply := Request(c);
      GateAllOne(c);
      GateAllAppend(lookupCalls, [c]);
      Regroup(old(log), GateAll(lookupCalls), GateAll([c]));
      if reply.Failed? {
        return Some(ApiError(c));
      }
      return None;
    }

    /** `deleteRecordSet`: the lookup, then one DELETE if a record was found. */
    method DeleteRecordSet(zone: string, subDomain: string, value: string, fieldType: string)
      returns (err: Option<Error>)
      requires Valid()
      modifies this
      ensures Valid()
      ensures var e := DeleteSpec(old(backend), zone, subDomain, value, fieldType);
        err == e.err && backend == e.backend && log == old(log) + GateAll(e.calls)
    {
      var found := GetRecordSet(zone, subDomain, value, fieldType);
      if found.Err? {
        return Some(found.error);
      }
      if found.value.None? {
        return None;
      }
      ghost var lookupCalls := GetRecordSetSpec(old(backend), zone, subDomain, value, fieldType).calls;
      var c := DeleteRecord(zone, found.value.value.id);
      var reply := Request(c);
      GateAllOne(c);
      GateAllAppend(lookupCalls, [c]);
      Regroup(old(log), GateAll(lookupCalls), GateAll([c]));
      if reply.Failed? {
        return Some(ApiError(c));
      }
      return None;
    }

    /** `refreshZone`: one POST .../refresh. */
    method RefreshZone(zone: string) returns (err: Option<Error>)
      requires Valid()
      modifies this
      ensures Valid()
      ensures var e := RefreshSpec(old(backend), zone);
        err == e.err && backend == e.backend && log == old(log) + GateAll(e.calls)
    {
      var c := PostRefresh(zone);
      var reply := Request(c);
      GateAllOne(c);
      if reply.Failed? {
        return Some(ApiError(c));
      }
      return None;
    }
  }
}
