/**
 * The OVHcloud DNS handler (pkg/controller/provider/ovhcloud/handler.go): the zone directory
 * (hosted zones with their forwarded names), the zone state (the A, CNAME and TXT record sets
 * of a zone), and the change executor (one remote write per record, then one zone refresh).
 */
module Ovhcloud {
  import opened Wrappers
  import opened Dns
  import opened Access

  /** `provider.DNSHostedZone`, in the argument order of `provider.NewDNSHostedZone`. */
  datatype HostedZone = HostedZone(
    providerType: string, id: string, domain: string, key: string, forwarded: seq<string>,
    isPrivate: bool)

  // ---------------------------------------------------------------------------------------
  // Zone directory
  // ---------------------------------------------------------------------------------------

  /** The owner names of a zone's records, as the corrected listing computes them. */
  function Owners(records: seq<RecordInfo>): (owners: seq<string>)
    ensures |owners| == |records|
  {
    seq(|records|, i requires 0 <= i < |records| => OwnerName(records[i].subDomain, records[i].zone))
  }

  /**
   * The owner name as the listing writes it, `fmt.Sprintf("%s.%s", subDomain, zone)`: a dot
   * between the two parts even when the sub-domain is empty.
   */
  function WrittenOwnerName(subDomain: string, zone: string): (name: string)
    ensures |name| == |subDomain| + 1 + |zone|
  {
    subDomain + "." + zone
  }

  function WrittenOwners(records: seq<RecordInfo>): (owners: seq<string>)
    ensures |owners| == |records|
  {
    seq(|records|, i requires 0 <= i < |records| => WrittenOwnerName(records[i].subDomain, records[i].zone))
  }

  /**
   * A corrected owner name is its zone exactly at the apex, and relative to the zone it gives
   * the record's sub-domain back.
   */
  lemma OwnersApex(records: seq<RecordInfo>)
    ensures forall i :: 0 <= i < |records| ==>
              (Owners(records)[i] == records[i].zone <==> records[i].subDomain == "")
              && RelativeName(Owners(records)[i], records[i].zone) == records[i].subDomain
  {
    forall i | 0 <= i < |records|
      ensures (Owners(records)[i] == records[i].zone <==> records[i].subDomain == "")
      ensures RelativeName(Owners(records)[i], records[i].zone) == records[i].subDomain
    {
      RelativeOfOwner(records[i].subDomain, records[i].zone);
      if records[i].subDomain != "" {
        assert |Owners(records)[i]| > |records[i].zone|;
      }
    }
  }

  /**
   * An owner name as written never equals its zone, not even at the apex, and below the apex
   * it is the corrected owner name.
   */
  lemma WrittenOwnersNeverZone(records: seq<RecordInfo>)
    ensures forall i :: 0 <= i < |records| ==>
              WrittenOwners(records)[i] != records[i].zone
              && (records[i].subDomain != "" ==> WrittenOwners(records)[i] == Owners(records)[i])
  {
    forall i | 0 <= i < |records|
      ensures WrittenOwners(records)[i] != records[i].zone
    {
      assert |WrittenOwners(records)[i]| > |records[i].zone|;
    }
  }

  /** The forwarded names of a zone: its NS owners other than the zone name, normalised, in order. */
  function Forwarded(zoneName: string, owners: seq<string>): seq<string> {
    if owners == [] then []
    else
      var last := owners[|owners| - 1];
      Forwarded(zoneName, owners[..|owners| - 1])
      + (if last != zoneName then [NormalizeHostname(last)] else [])
  }

  /** The forwarded list of two runs of NS records is the two lists one after the other. */
  lemma {:induction false} ForwardedAppend(zoneName: string, a: seq<string>, b: seq<string>)
    ensures Forwarded(zoneName, a + b) == Forwarded(zoneName, a) + Forwarded(zoneName, b)
    decreases |b|
  {
    if b == [] {
      assert a + b == a;
    } else {
      var ab := a + b;
      var init := b[..|b| - 1];
      var last := b[|b| - 1];
      var tail := if last != zoneName then [NormalizeHostname(last)] else [];
      assert ab[..|ab| - 1] == a + init && ab[|ab| - 1] == last;
      assert Forwarded(zoneName, ab) == Forwarded(zoneName, a + init) + tail;
      assert Forwarded(zoneName, b) == Forwarded(zoneName, init) + tail;
      ForwardedAppend(zoneName, a, init);
      assert Forwarded(zoneName, a) + Forwarded(zoneName, init) + tail
          == Forwarded(zoneName, a) + (Forwarded(zoneName, init) + tail);
    }
  }

  /** Every forwarded name comes from an owner other than the zone. */
  lemma {:induction false} ForwardedSound(zoneName: string, owners: seq<string>, x: string)
    requires x in Forwarded(zoneName, owners)
    ensures exists i :: 0 <= i < |owners| && owners[i] != zoneName && x == NormalizeHostname(owners[i])
  {
    var init := owners[..|owners| - 1];
    var last := owners[|owners| - 1];
    var tail := if last != zoneName then [NormalizeHostname(last)] else [];
    assert Forwarded(zoneName, owners) == Forwarded(zoneName, init) + tail;
    if x in Forwarded(zoneName, init) {
      ForwardedSound(zoneName, init, x);
      var i :| 0 <= i < |init| && init[i] != zoneName && x == NormalizeHostname(init[i]);
      assert owners[i] == init[i];
    } else {
      assert x in tail;
      assert owners[|owners| - 1] != zoneName && x == NormalizeHostname(owners[|owners| - 1]);
    }
  }

  /** Every owner other than the zone is forwarded, normalised. */
  lemma {:induction false} ForwardedComplete(zoneName: string, owners: seq<string>, i: nat)
    requires i < |owners| && owners[i] != zoneName
    ensures NormalizeHostname(owners[i]) in Forwarded(zoneName, owners)
  {
    var init := owners[..|owners| - 1];
    var last := owners[|owners| - 1];
    var tail := if last != zoneName then [NormalizeHostname(last)] else [];
    assert Forwarded(zoneName, owners) == Forwarded(zoneName, init) + tail;
    if i < |init| {
      assert init[i] == owners[i];
      ForwardedComplete(zoneName, init, i);
    } else {
      assert tail == [NormalizeHostname(owners[i])];
    }
  }

  /** A name is forwarded exactly when it is the normalised form of an owner other than the zone. */
  lemma ForwardedMembers(zoneName: string, owners: seq<string>)
    ensures forall x :: x in Forwarded(zoneName, owners) <==>
              exists i :: 0 <= i < |owners| && owners[i] != zoneName && x == NormalizeHostname(owners[i])
  {
    forall x | x in Forwarded(zoneName, owners)
      ensures exists i :: 0 <= i < |owners| && owners[i] != zoneName && x == NormalizeHostname(owners[i])
    {
      ForwardedSound(zoneName, owners, x);
    }
    forall i | 0 <= i < |owners| && owners[i] != zoneName
      ensures NormalizeHostname(owners[i]) in Forwarded(zoneName, owners)
    {
      ForwardedComplete(zoneName, owners, i);
    }
  }

  /** With the corrected owner names, NS records at the apex never make a forwarded name. */
  lemma ApexNotForwarded(zoneName: string, records: seq<RecordInfo>)
    requires forall i :: 0 <= i < |records| ==> records[i].zone == zoneName
    ensures forall x :: x in Forwarded(zoneName, Owners(records)) <==>
              exists i :: 0 <= i < |records| && records[i].subDomain != ""
                          && x == NormalizeHostname(records[i].subDomain + "." + zoneName)
  {
    ForwardedMembers(zoneName, Owners(records));
    forall i | 0 <= i < |records| && records[i].subDomain != ""
      ensures Owners(records)[i] != zoneName
    {
      assert |Owners(records)[i]| > |zoneName|;
    }
  }

  /**
   * As written, the listing names an apex NS record ".zone", which differs from the zone name,
   * so every zone lists its own apex as a forwarded name.
   */
  lemma ApexForwardedAsWritten(zoneName: string, r: RecordInfo)
    requires r.subDomain == "" && r.zone == zoneName
    ensures Forwarded(zoneName, WrittenOwners([r])) == [NormalizeHostname("." + zoneName)]
    ensures Forwarded(zoneName, Owners([r])) == []
  {
    assert WrittenOwnerName("", zoneName) == "." + zoneName;
    assert WrittenOwners([r]) == ["." + zoneName];
    assert |"." + zoneName| != |zoneName|;
    assert Owners([r]) == [zoneName];
  }

  /** Without apex NS records, the forwarded names as written and as corrected are the same. */
  lemma ForwardedOffApex(zoneName: string, records: seq<RecordInfo>)
    requires forall i :: 0 <= i < |records| ==> records[i].subDomain != ""
    ensures Forwarded(zoneName, WrittenOwners(records)) == Forwarded(zoneName, Owners(records))
  {
    WrittenOwnersNeverZone(records);
    assert WrittenOwners(records) == Owners(records);
  }

  /** One hosted zone, as `getZones` builds it from the zone's metadata and NS records. */
  function Hosted(providerType: string, z: ZoneInfo, ns: seq<RecordInfo>): HostedZone {
    HostedZone(providerType, z.name, NormalizeHostname(z.name), z.name,
               Forwarded(z.name, Owners(ns)), false)
  }

  /** The NS lookup of every zone, in order, stopping at the first failure. */
  function ZonesWithNs(providerType: string, b: Backend, zones: seq<ZoneInfo>): Fetched<HostedZone> {
    if zones == [] then Fetched(Ok([]), [])
    else
      var f := GetRecordSetsSpec(b, zones[0].name, "", RS_NS);
      match f.result
      case Err(e) => Fetched(Err(ZoneRecordsFailed(zones[0].name, e)), f.calls)
      case Ok(ns) =>
        var rest := ZonesWithNs(providerType, b, zones[1..]);
        Fetched(Glue([Hosted(providerType, zones[0], ns)], rest.result), f.calls + rest.calls)
  }

  /** `getZones`: the access layer's zones, then each zone's NS records. */
  function HostedZonesSpec(providerType: string, b: Backend): Fetched<HostedZone> {
    var zs := Access.GetZonesSpec(b);
    match zs.result
    case Err(e) => Fetched(Err(ListingZonesFailed(e)), zs.calls)
    case Ok(zones) =>
      var h := ZonesWithNs(providerType, b, zones);
      Fetched(h.result, zs.calls + h.calls)
  }

  lemma ZonesWithNsStep(providerType: string, b: Backend, zones: seq<ZoneInfo>, i: nat,
                        hosted: seq<HostedZone>, calls: seq<Call>)
    requires i < |zones|
    requires ZonesWithNs(providerType, b, zones)
          == Then(hosted, calls, ZonesWithNs(providerType, b, zones[i..]))
    ensures var f := GetRecordSetsSpec(b, zones[i].name, "", RS_NS);
      f.result.Err? ==>
        ZonesWithNs(providerType, b, zones)
          == Fetched(Err(ZoneRecordsFailed(zones[i].name, f.result.error)), calls + f.calls)
    ensures var f := GetRecordSetsSpec(b, zones[i].name, "", RS_NS);
      f.result.Ok? ==>
        ZonesWithNs(providerType, b, zones)
          == Then(hosted + [Hosted(providerType, zones[i], f.result.value)], calls + f.calls,
                  ZonesWithNs(providerType, b, zones[i + 1..]))
  {
    assert zones[i..][1..] == zones[i + 1..];
    var f := GetRecordSetsSpec(b, zones[i].name, "", RS_NS);
    match f.result
    case Err(e) =>
    case Ok(ns) =>
      ThenStep(hosted, calls, Hosted(providerType, zones[i], ns), f.calls,
               ZonesWithNs(providerType, b, zones[i + 1..]));
  }

  /** The NS stage succeeds exactly when every zone's NS lookup succeeds. */
  lemma {:induction false} ZonesWithNsOk(providerType: string, b: Backend, zones: seq<ZoneInfo>)
    ensures ZonesWithNs(providerType, b, zones).result.Ok? <==>
              forall i :: 0 <= i < |zones| ==> GetRecordSetsSpec(b, zones[i].name, "", RS_NS).result.Ok?
  {
    if zones != [] {
      ZonesWithNsOk(providerType, b, zones[1..]);
      assert forall i :: 1 <= i < |zones| ==> zones[1..][i - 1] == zones[i];
    }
  }

  /** A successful NS stage yields one hosted zone per zone, in order. */
  lemma {:induction false} ZonesWithNsValues(providerType: string, b: Backend, zones: seq<ZoneInfo>)
    ensures var h := ZonesWithNs(providerType, b, zones);
      h.result.Ok? ==> (
        |h.result.value| == |zones|
        && forall i :: 0 <= i < |zones| ==>
             var ns := GetRecordSetsSpec(b, zones[i].name, "", RS_NS).result;
             ns.Ok? && h.result.value[i] == Hosted(providerType, zones[i], ns.value))
  {
    if zones != [] {
      ZonesWithNsValues(providerType, b, zones[1..]);
      assert forall i :: 1 <= i < |zones| ==> zones[1..][i - 1] == zones[i];
    }
  }

  /**
   * The NS stage succeeds exactly when every zone's NS lookup succeeds, and then yields one
   * hosted zone per zone, in order, built from that zone's NS records.
   */
  lemma ZonesWithNsShape(providerType: string, b: Backend, zones: seq<ZoneInfo>)
    ensures var h := ZonesWithNs(providerType, b, zones);
      h.result.Ok? <==> forall i :: 0 <= i < |zones| ==>
                          GetRecordSetsSpec(b, zones[i].name, "", RS_NS).result.Ok?
    ensures var h := ZonesWithNs(providerType, b, zones);
      h.result.Ok? ==> (
        |h.result.value| == |zones|
        && forall i :: 0 <= i < |zones| ==>
             h.result.value[i]
               == Hosted(providerType, zones[i], GetRecordSetsSpec(b, zones[i].name, "", RS_NS).result.value))
  {
    ZonesWithNsOk(providerType, b, zones);
    ZonesWithNsValues(providerType, b, zones);
  }

  /**
   * `getZones` yields one hosted zone per zone of the account, in listing order: its id and key
   * are the zone name, its domain the normalised zone name, it is never private, and its
   * forwarded names are those of its NS records. It fails, returning no zones, exactly when
   * the zone listing fails or any zone's NS lookup fails.
   */
  lemma HostedZonesShape(providerType: string, b: Backend)
    ensures var zs := Access.GetZonesSpec(b); var h := HostedZonesSpec(providerType, b);
      h.result.Ok? <==> zs.result.Ok? && forall i :: 0 <= i < |zs.result.value| ==>
                          GetRecordSetsSpec(b, zs.result.value[i].name, "", RS_NS).result.Ok?
    ensures var h := HostedZonesSpec(providerType, b);
      h.result.Ok? ==> (
        |h.result.value| == |b.zoneNames|
        && forall i :: 0 <= i < |b.zoneNames| ==>
             b.zoneNames[i] in b.zoneInfos &&
             var z := b.zoneInfos[b.zoneNames[i]];
             var hz := h.result.value[i];
             var ns := GetRecordSetsSpec(b, z.name, "", RS_NS).result;
             hz.providerType == providerType && hz.id == z.name && hz.key == z.name
             && hz.domain == NormalizeHostname(z.name) && !hz.isPrivate
             && ns.Ok? && hz.forwarded == Forwarded(z.name, Owners(ns.value)))
  {
    GetZonesCost(b);
    var zs := Access.GetZonesSpec(b);
    if zs.result.Ok? {
      ZonesWithNsShape(providerType, b, zs.result.value);
    }
  }

  /** The forwarded names of one zone's NS records, accumulated record by record. */
  method ForwardedOf(zoneName: string, records: seq<RecordInfo>) returns (forwarded: seq<string>)
    ensures forwarded == Forwarded(zoneName, Owners(records))
  {
    forwarded := [];
    var i := 0;
    while i < |records|
      invariant 0 <= i <= |records|
      invariant forwarded == Forwarded(zoneName, Owners(records)[..i])
    {
      var r := records[i];
      var name := OwnerName(r.subDomain, r.zone);
      assert Owners(records)[..i + 1][..i] == Owners(records)[..i];
      if name != zoneName {
        forwarded := forwarded + [NormalizeHostname(name)];
      }
      i := i + 1;
    }
    assert Owners(records)[..i] == Owners(records);
  }

  // ---------------------------------------------------------------------------------------
  // Zone state
  // ---------------------------------------------------------------------------------------

  /** A record set as the zone's record-set iterator hands it over: owner, type, TTL, values. */
  datatype ProviderSet = ProviderSet(name: string, rtype: string, ttl: int, records: seq<string>)

  /** The set of the record's owner name and type holds the record's value. */
  predicate Covers(sets: seq<ProviderSet>, r: RecordInfo) {
    exists j :: 0 <= j < |sets| && sets[j].name == OwnerName(r.subDomain, r.zone)
                && sets[j].rtype == r.fieldType && r.target in sets[j].records
  }

  /** The position of the first set with this owner name and type, or the length when there is none. */
  function Slot(sets: seq<ProviderSet>, name: string, rtype: string): (j: nat)
    ensures j <= |sets|
    ensures j < |sets| ==> sets[j].name == name && sets[j].rtype == rtype
    ensures forall i :: 0 <= i < j ==> sets[i].name != name || sets[i].rtype != rtype
  {
    if sets == [] then 0
    else if sets[0].name == name && sets[0].rtype == rtype then 0
    else
      var j := Slot(sets[1..], name, rtype);
      assert forall i :: 1 <= i < 1 + j ==> sets[i] == sets[1..][i - 1];
      1 + j
  }

  /**
   * Adds one record to the set of its owner name and type, or opens a new set for it after the
   * others; the sets already there keep their place, key and values.
   */
  function AddToGroup(sets: seq<ProviderSet>, r: RecordInfo): (g: seq<ProviderSet>)
    ensures |sets| <= |g|
    ensures forall j :: 0 <= j < |sets| ==>
              g[j].name == sets[j].name && g[j].rtype == sets[j].rtype
              && forall v :: v in sets[j].records ==> v in g[j].records
    ensures Covers(g, r)
  {
    var name := OwnerName(r.subDomain, r.zone);
    if sets == [] then
      var g := [ProviderSet(name, r.fieldType, r.ttl, [r.target])];
      assert r.target in g[0].records;
      g
    else if sets[0].name == name && sets[0].rtype == r.fieldType then
      var g := [sets[0].(records := sets[0].records + [r.target])] + sets[1..];
      assert r.target in g[0].records;
      assert forall j :: 1 <= j < |sets| ==> g[j] == sets[j];
      g
    else
      var rest := AddToGroup(sets[1..], r);
      var g := [sets[0]] + rest;
      assert forall j :: 1 <= j < |g| ==> g[j] == rest[j - 1];
      assert forall j :: 1 <= j < |sets| ==> sets[j] == sets[1..][j - 1];
      assert Covers(g, r) by {
        var j :| 0 <= j < |rest| && rest[j].name == name && rest[j].rtype == r.fieldType
                 && r.target in rest[j].records;
        assert g[j + 1] == rest[j];
      }
      g
  }

  /**
   * Exactly what adding a record does: its value is appended to the first set with its owner
   * name and type, or a new set holding only that value is opened at the end; nothing else
   * changes.
   */
  lemma {:induction false} AddToGroupExact(sets: seq<ProviderSet>, r: RecordInfo)
    ensures var name := OwnerName(r.subDomain, r.zone); var j := Slot(sets, name, r.fieldType);
      AddToGroup(sets, r)
        == if j < |sets| then sets[j := sets[j].(records := sets[j].records + [r.target])]
           else sets + [ProviderSet(name, r.fieldType, r.ttl, [r.target])]
  {
    var name := OwnerName(r.subDomain, r.zone);
    var single := ProviderSet(name, r.fieldType, r.ttl, [r.target]);
    if sets == [] {
      assert AddToGroup(sets, r) == [single] == sets + [single];
    } else if sets[0].name == name && sets[0].rtype == r.fieldType {
      assert Slot(sets, name, r.fieldType) == 0;
      var s0 := sets[0].(records := sets[0].records + [r.target]);
      assert AddToGroup(sets, r) == [s0] + sets[1..];
      assert [s0] + sets[1..] == sets[0 := s0];
    } else {
      var tail := sets[1..];
      assert sets == [sets[0]] + tail;
      var rest := AddToGroup(tail, r);
      assert AddToGroup(sets, r) == [sets[0]] + rest;
      AddToGroupExact(tail, r);
      var j := Slot(tail, name, r.fieldType);
      assert Slot(sets, name, r.fieldType) == 1 + j;
      if j < |tail| {
        var sj := tail[j].(records := tail[j].records + [r.target]);
        assert rest == tail[j := sj];
        ConsUpdate(sets[0], tail, j, sj);
      } else {
        assert rest == tail + [single];
        ConsAppend(sets[0], tail, single);
      }
    }
  }

  lemma ConsUpdate<T>(x: T, t: seq<T>, j: nat, v: T)
    requires j < |t|
    ensures [x] + t[j := v] == ([x] + t)[1 + j := v]
  {
  }

  lemma ConsAppend<T>(x: T, t: seq<T>, v: T)
    ensures [x] + (t + [v]) == ([x] + t) + [v]
  {
  }

  lemma AddToGroupKeeps(sets: seq<ProviderSet>, r: RecordInfo, x: RecordInfo)
    requires Covers(sets, x)
    ensures Covers(AddToGroup(sets, r), x)
  {
    var j :| 0 <= j < |sets| && sets[j].name == OwnerName(x.subDomain, x.zone)
             && sets[j].rtype == x.fieldType && x.target in sets[j].records;
    var g := AddToGroup(sets, r);
    assert g[j].name == sets[j].name && g[j].rtype == sets[j].rtype && x.target in g[j].records;
  }

  /** No two sets share an owner name and type. */
  predicate Distinct(sets: seq<ProviderSet>) {
    forall i, j :: 0 <= i < j < |sets| ==> sets[i].name != sets[j].name || sets[i].rtype != sets[j].rtype
  }

  /** Some record has this owner name, type and value. */
  predicate Source(records: seq<RecordInfo>, name: string, rtype: string, v: string) {
    exists k :: 0 <= k < |records| && OwnerName(records[k].subDomain, records[k].zone) == name
                && records[k].fieldType == rtype && records[k].target == v
  }

  /** Every set holds at least one value, and each of its values is a record's of its owner name and type. */
  predicate Sourced(sets: seq<ProviderSet>, records: seq<RecordInfo>) {
    forall j :: 0 <= j < |sets| ==>
      |sets[j].records| > 0 && forall v :: v in sets[j].records ==> Source(records, sets[j].name, sets[j].rtype, v)
  }

  /** Adding a record keeps the keys distinct and every value traced to a record. */
  lemma AddToGroupShape(sets: seq<ProviderSet>, r: RecordInfo, records: seq<RecordInfo>)
    requires Distinct(sets) && Sourced(sets, records)
    requires Source(records, OwnerName(r.subDomain, r.zone), r.fieldType, r.target)
    ensures Distinct(AddToGroup(sets, r)) && Sourced(AddToGroup(sets, r), records)
  {
    var name := OwnerName(r.subDomain, r.zone);
    var j := Slot(sets, name, r.fieldType);
    var g := AddToGroup(sets, r);
    AddToGroupExact(sets, r);
    if j < |sets| {
      forall v | v in g[j].records
        ensures Source(records, g[j].name, g[j].rtype, v)
      {
        if v !in sets[j].records {
          assert v == r.target;
        }
      }
    } else {
      assert forall i :: 0 <= i < |sets| ==> g[i] == sets[i];
    }
  }

  /**
   * The record sets of a zone's records: grouped by owner name and type in order of first
   * appearance, each with the TTL of its first record.
   */
  function Group(records: seq<RecordInfo>): seq<ProviderSet>
  {
    if records == [] then []
    else AddToGroup(Group(records[..|records| - 1]), records[|records| - 1])
  }

  /** Every record's value is in the set of its owner name and type. */
  lemma {:induction false} GroupCovers(records: seq<RecordInfo>)
    ensures forall k :: 0 <= k < |records| ==> Covers(Group(records), records[k])
  {
    if records != [] {
      var init := records[..|records| - 1];
      var last := records[|records| - 1];
      GroupCovers(init);
      forall k | 0 <= k < |records|
        ensures Covers(Group(records), records[k])
      {
        if k < |init| {
          assert records[k] == init[k];
          AddToGroupKeeps(Group(init), last, init[k]);
        }
      }
    }
  }

  /** The sets of a zone have distinct keys, and every value in them is a record's of that key. */
  lemma {:induction false} GroupShape(records: seq<RecordInfo>)
    ensures Distinct(Group(records)) && Sourced(Group(records), records)
  {
    if records != [] {
      var init := records[..|records| - 1];
      var last := records[|records| - 1];
      GroupShape(init);
      var g := Group(init);
      forall j, v | 0 <= j < |g| && v in g[j].records
        ensures Source(records, g[j].name, g[j].rtype, v)
      {
        var k :| 0 <= k < |init| && OwnerName(init[k].subDomain, init[k].zone) == g[j].name
                 && init[k].fieldType == g[j].rtype && init[k].target == v;
        assert records[k] == init[k];
      }
      assert Source(records, OwnerName(last.subDomain, last.zone), last.fieldType, last.target) by {
        assert records[|records| - 1] == last;
      }
      AddToGroupShape(g, last, records);
    }
  }

  /** The values `getZoneState` stores: CNAME targets normalised, the others verbatim. */
  function ProviderValue(rtype: string, v: string): string {
    if rtype == RS_CNAME then NormalizeHostname(v) else v
  }

  function ProviderValues(rtype: string, values: seq<string>): (r: seq<string>)
    ensures |r| == |values|
    ensures forall i :: 0 <= i < |values| ==> r[i] == ProviderValue(rtype, values[i])
  {
    if values == [] then []
    else
      var v := values[|values| - 1];
      ProviderValues(rtype, values[..|values| - 1])
      + [if rtype == RS_CNAME then NormalizeHostname(v) else v]
  }

  function ToRecordSet(s: ProviderSet): RecordSet {
    RecordSet(s.rtype, s.ttl, ProviderValues(s.rtype, s.records))
  }

  /** The zone state built from the record sets, skipping every type other than A, CNAME, TXT. */
  function Collect(sets: seq<ProviderSet>): DnsSets {
    if sets == [] then map[]
    else
      var s := sets[|sets| - 1];
      var prev := Collect(sets[..|sets| - 1]);
      if Supported(s.rtype) then AddRecordSetFromProvider(prev, s.name, ToRecordSet(s)) else prev
  }

  /**
   * Every set in the zone state has type A, CNAME or TXT and is the converted form of a source
   * set with that normalised name and type: same TTL, the values normalised for CNAME only.
   */
  lemma {:induction false} CollectSound(sets: seq<ProviderSet>, n: string, t: string)
    requires HasSet(Collect(sets), n, t)
    ensures Supported(t)
    ensures exists i :: 0 <= i < |sets| && NormalizeHostname(sets[i].name) == n
                        && sets[i].rtype == t && Collect(sets)[n][t] == ToRecordSet(sets[i])
  {
    assert sets != [];
    var init := sets[..|sets| - 1];
    var s := sets[|sets| - 1];
    if Supported(s.rtype) && n == NormalizeHostname(s.name) && t == s.rtype {
      assert Collect(sets)[n][t] == ToRecordSet(sets[|sets| - 1]);
    } else {
      assert HasSet(Collect(init), n, t) && Collect(sets)[n][t] == Collect(init)[n][t];
      CollectSound(init, n, t);
      var i :| 0 <= i < |init| && NormalizeHostname(init[i].name) == n
               && init[i].rtype == t && Collect(init)[n][t] == ToRecordSet(init[i]);
      assert sets[i] == init[i];
    }
  }

  /** Every A, CNAME or TXT source set has a set of its type under its normalised name. */
  lemma {:induction false} CollectComplete(sets: seq<ProviderSet>, i: nat)
    requires i < |sets| && Supported(sets[i].rtype)
    ensures HasSet(Collect(sets), NormalizeHostname(sets[i].name), sets[i].rtype)
  {
    var init := sets[..|sets| - 1];
    if i < |init| {
      assert init[i] == sets[i];
      CollectComplete(init, i);
    }
  }

  /**
   * A supported source set that no later set shares a normalised name and type with is what the
   * zone state holds under that name and type.
   */
  lemma {:induction false} CollectAt(sets: seq<ProviderSet>, i: nat)
    requires i < |sets| && Supported(sets[i].rtype)
    requires forall j :: i < j < |sets| ==>
               NormalizeHostname(sets[j].name) != NormalizeHostname(sets[i].name) || sets[j].rtype != sets[i].rtype
    ensures HasSet(Collect(sets), NormalizeHostname(sets[i].name), sets[i].rtype)
    ensures Collect(sets)[NormalizeHostname(sets[i].name)][sets[i].rtype] == ToRecordSet(sets[i])
  {
    var init := sets[..|sets| - 1];
    if i < |init| {
      assert init[i] == sets[i];
      assert forall j :: i < j < |init| ==> init[j] == sets[j];
      CollectAt(init, i);
    }
  }

  /** The outcome of reading a zone's state: the state, and the requests made. */
  datatype ZoneState = ZoneState(result: Result<DnsSets, Error>, calls: seq<Call>)

  /** `getZoneState`: every record of the zone, grouped into sets and filtered. */
  function ZoneStateSpec(b: Backend, zone: HostedZone): ZoneState {
    var f := GetRecordSetsSpec(b, zone.id, "", "");
    match f.result
    case Err(e) => ZoneState(Err(ZoneStateFailed(zone.id, e)), f.calls)
    case Ok(records) => ZoneState(Ok(Collect(Group(records))), f.calls)
  }

  /** Records whose owner names differ keep them different once normalised. */
  predicate NormalizesApart(records: seq<RecordInfo>) {
    forall a, b :: 0 <= a < |records| && 0 <= b < |records|
      && NormalizeHostname(OwnerName(records[a].subDomain, records[a].zone))
         == NormalizeHostname(OwnerName(records[b].subDomain, records[b].zone))
      ==> OwnerName(records[a].subDomain, records[a].zone) == OwnerName(records[b].subDomain, records[b].zone)
  }

  /** The state holds sets of type A, CNAME and TXT only. */
  ghost predicate SupportedOnly(c: DnsSets) {
    forall n, t :: HasSet(c, n, t) ==> Supported(t)
  }

  /** Every value the state holds is the stored form of a record's value with that normalised owner and type. */
  ghost predicate ValuesFromRecords(c: DnsSets, records: seq<RecordInfo>) {
    forall n, t, v :: HasSet(c, n, t) && v in c[n][t].records ==>
      exists k :: 0 <= k < |records|
                  && NormalizeHostname(OwnerName(records[k].subDomain, records[k].zone)) == n
                  && records[k].fieldType == t && v == ProviderValue(t, records[k].target)
  }

  /** Every supported record has a set under its normalised owner name and type. */
  ghost predicate SetPerRecord(c: DnsSets, records: seq<RecordInfo>) {
    forall k :: 0 <= k < |records| && Supported(records[k].fieldType) ==>
      HasSet(c, NormalizeHostname(OwnerName(records[k].subDomain, records[k].zone)), records[k].fieldType)
  }

  /** Every supported record's stored value is in the set under its normalised owner name and type. */
  ghost predicate HoldsRecordValues(c: DnsSets, records: seq<RecordInfo>) {
    forall k :: 0 <= k < |records| && Supported(records[k].fieldType) ==>
      var n := NormalizeHostname(OwnerName(records[k].subDomain, records[k].zone));
      HasSet(c, n, records[k].fieldType)
      && ProviderValue(records[k].fieldType, records[k].target) in c[n][records[k].fieldType].records
  }

  /**
   * The zone state holds only A, CNAME and TXT sets, one for every owner name and type of those
   * types in the zone, and every value it holds is the stored form of the value of a record
   * with that normalised owner name and type. When no two owner names normalise alike, every
   * such record's value is in its set. It fails exactly when reading the zone's records fails.
   */
  lemma ZoneStateShape(b: Backend, zone: HostedZone)
    ensures var z := ZoneStateSpec(b, zone); var f := GetRecordSetsSpec(b, zone.id, "", "");
      z.result.Ok? <==> f.result.Ok?
    ensures var z := ZoneStateSpec(b, zone); var f := GetRecordSetsSpec(b, zone.id, "", "");
      z.result.Ok? ==>
        SupportedOnly(z.result.value) && ValuesFromRecords(z.result.value, f.result.value)
        && SetPerRecord(z.result.value, f.result.value)
        && (NormalizesApart(f.result.value) ==> HoldsRecordValues(z.result.value, f.result.value))
  {
    var f := GetRecordSetsSpec(b, zone.id, "", "");
    if f.result.Ok? {
      var records := f.result.value;
      assert ZoneStateSpec(b, zone).result == Ok(Collect(Group(records)));
      StateOfRecords(records);
      if NormalizesApart(records) {
        StateHoldsRecords(records);
      }
    }
  }

  /** Every set of the zone state is the stored form of a group with its key, of a supported type. */
  lemma StateSetsFrom(records: seq<RecordInfo>)
    ensures forall n, t :: HasSet(Collect(Group(records)), n, t) ==>
              Supported(t)
              && exists s :: s in Group(records) && NormalizeHostname(s.name) == n && s.rtype == t
                             && Collect(Group(records))[n][t] == ToRecordSet(s)
  {
    var g := Group(records);
    var c := Collect(g);
    forall n, t | HasSet(c, n, t)
      ensures Supported(t)
      ensures exists s :: s in g && NormalizeHostname(s.name) == n && s.rtype == t && c[n][t] == ToRecordSet(s)
    {
      CollectSound(g, n, t);
      var i :| 0 <= i < |g| && NormalizeHostname(g[i].name) == n && g[i].rtype == t && c[n][t] == ToRecordSet(g[i]);
      assert g[i] in g;
    }
  }

  /** Every value of the zone state is the stored form of a record with that key. */
  lemma StateValuesFrom(records: seq<RecordInfo>)
    ensures ValuesFromRecords(Collect(Group(records)), records)
  {
    var g := Group(records);
    var c := Collect(g);
    GroupShape(records);
    forall n, t, v | HasSet(c, n, t) && v in c[n][t].records
      ensures exists k :: 0 <= k < |records|
                          && NormalizeHostname(OwnerName(records[k].subDomain, records[k].zone)) == n
                          && records[k].fieldType == t && v == ProviderValue(t, records[k].target)
    {
      CollectSound(g, n, t);
      var i :| 0 <= i < |g| && NormalizeHostname(g[i].name) == n && g[i].rtype == t && c[n][t] == ToRecordSet(g[i]);
      var m :| 0 <= m < |g[i].records| && ProviderValues(t, g[i].records)[m] == v;
      assert g[i].records[m] in g[i].records;
      assert Source(records, g[i].name, t, g[i].records[m]);
    }
  }

  /** The zone state has a set for every supported record's normalised owner name and type. */
  lemma StateSetPerRecord(records: seq<RecordInfo>)
    ensures SetPerRecord(Collect(Group(records)), records)
  {
    var g := Group(records);
    var c := Collect(g);
    GroupCovers(records);
    forall k | 0 <= k < |records| && Supported(records[k].fieldType)
      ensures HasSet(c, NormalizeHostname(OwnerName(records[k].subDomain, records[k].zone)), records[k].fieldType)
    {
      assert Covers(g, records[k]);
      var j :| 0 <= j < |g| && g[j].name == OwnerName(records[k].subDomain, records[k].zone)
               && g[j].rtype == records[k].fieldType && records[k].target in g[j].records;
      CollectComplete(g, j);
    }
  }

  /**
   * The zone state as a function of the zone's records: supported types only, a set for every
   * supported record's owner name and type, and only values of records with that key.
   */
  lemma StateOfRecords(records: seq<RecordInfo>)
    ensures forall n, t :: HasSet(Collect(Group(records)), n, t) ==>
              Supported(t)
              && exists s :: s in Group(records) && NormalizeHostname(s.name) == n && s.rtype == t
                             && Collect(Group(records))[n][t] == ToRecordSet(s)
    ensures SupportedOnly(Collect(Group(records)))
    ensures ValuesFromRecords(Collect(Group(records)), records)
    ensures SetPerRecord(Collect(Group(records)), records)
  {
    StateSetsFrom(records);
    StateValuesFrom(records);
    StateSetPerRecord(records);
  }

  /** When no two owner names normalise alike, every supported record's value is in its set. */
  lemma StateHoldsRecords(records: seq<RecordInfo>)
    requires NormalizesApart(records)
    ensures HoldsRecordValues(Collect(Group(records)), records)
  {
    var g := Group(records);
    GroupShape(records);
    GroupCovers(records);
    forall k | 0 <= k < |records| && Supported(records[k].fieldType)
      ensures var n := NormalizeHostname(OwnerName(records[k].subDomain, records[k].zone));
              HasSet(Collect(g), n, records[k].fieldType)
              && ProviderValue(records[k].fieldType, records[k].target) in Collect(g)[n][records[k].fieldType].records
    {
      var r := records[k];
      assert Covers(g, r);
      var j :| 0 <= j < |g| && g[j].name == OwnerName(r.subDomain, r.zone)
               && g[j].rtype == r.fieldType && r.target in g[j].records;
      SetAlone(records, g, k, j);
      CollectAt(g, j);
      var m :| 0 <= m < |g[j].records| && g[j].records[m] == r.target;
      assert ToRecordSet(g[j]).records[m] == ProviderValue(r.fieldType, r.target);
    }
  }

  /** With names that normalise apart, no later set shares the normalised key of a record's set. */
  lemma SetAlone(records: seq<RecordInfo>, g: seq<ProviderSet>, k: nat, j: nat)
    requires NormalizesApart(records) && Distinct(g) && Sourced(g, records)
    requires k < |records| && j < |g|
    requires g[j].name == OwnerName(records[k].subDomain, records[k].zone) && g[j].rtype == records[k].fieldType
    ensures forall i :: j < i < |g| ==>
              NormalizeHostname(g[i].name) != NormalizeHostname(g[j].name) || g[i].rtype != g[j].rtype
  {
    forall i | j < i < |g|
      ensures NormalizeHostname(g[i].name) != NormalizeHostname(g[j].name) || g[i].rtype != g[j].rtype
    {
      assert g[i].records[0] in g[i].records;
      var k' :| 0 <= k' < |records| && OwnerName(records[k'].subDomain, records[k'].zone) == g[i].name
                && records[k'].fieldType == g[i].rtype && records[k'].target == g[i].records[0];
      assert g[j].name != g[i].name || g[j].rtype != g[i].rtype;
    }
  }

  // ---------------------------------------------------------------------------------------
  // Change executor
  // ---------------------------------------------------------------------------------------

  /** The outcome of a run of the executor: the error, everything logged, and the new store. */
  datatype Outcome = Outcome(err: Option<Error>, events: seq<Event>, backend: Backend)

  /** An outcome that comes after the events `ev`. */
  function After(ev: seq<Event>, o: Outcome): Outcome {
    Outcome(o.err, ev + o.events, o.backend)
  }

  lemma AfterAfter(a: seq<Event>, b: seq<Event>, o: Outcome)
    ensures After(a, After(b, o)) == After(a + b, o)
  {
    assert a + (b + o.events) == a + b + o.events;
  }

  lemma AfterNothing(ev: seq<Event>, b: Backend)
    ensures After(ev, Outcome(None, [], b)) == Outcome(None, ev, b)
  {
    assert ev + [] == ev;
  }

  /** The access-layer operation for an action. */
  function ActionEffect(b: Backend, zoneId: string, action: Action, name: string, rset: RecordSet,
                        value: string): Effect
  {
    match action
    case Create => CreateSpec(b, zoneId, name, value, rset.rtype, rset.ttl)
    case Update => UpdateSpec(b, zoneId, name, value, rset.rtype, rset.ttl)
    case Delete => DeleteSpec(b, zoneId, name, value, rset.rtype)
  }

  /** An access-layer error, wrapped with the action and the zone as the executor reports it. */
  function ActionFailed(action: Action, zoneId: string, e: Error): Error {
    match action
    case Create => CreateFailed(zoneId, e)
    case Update => UpdateFailed(zoneId, e)
    case Delete => DeleteFailed(zoneId, e)
  }

  /**
   * One record of a change request: the executor's own rate-limiter token, then the access
   * call for the request's action on that value.
   */
  function Dispatch(b: Backend, zoneId: string, action: Action, name: string, rset: RecordSet,
                    value: string): Outcome
  {
    var e := ActionEffect(b, zoneId, action, name, rset, value);
    Outcome(if e.err.Some? then Some(ActionFailed(action, zoneId, e.err.value)) else None,
            [Accept] + GateAll(e.calls), e.backend)
  }

  /** The records of one request, in order, stopping at the first failure. */
  function RecordsOutcome(b: Backend, zoneId: string, action: Action, name: string,
                          rset: RecordSet, values: seq<string>): Outcome
    decreases |values|
  {
    if values == [] then Outcome(None, [], b)
    else
      var d := Dispatch(b, zoneId, action, name, rset, values[0]);
      if d.err.Some? then d
      else After(d.events, RecordsOutcome(d.backend, zoneId, action, name, rset, values[1..]))
  }

  /** The record's name relative to the zone, as the access layer addresses it. */
  function MappedName(req: ChangeRequest, zone: HostedZone): string {
    RelativeName(req.name, zone.domain)
  }

  /** The requests, in order: empty record sets are skipped, the first failure stops the batch. */
  function RequestsOutcome(b: Backend, zone: HostedZone, reqs: seq<ChangeRequest>): Outcome
    decreases |reqs|
  {
    if reqs == [] then Outcome(None, [], b)
    else
      var req := reqs[0];
      if |req.rset.records| == 0 then RequestsOutcome(b, zone, reqs[1..])
      else
        var o := RecordsOutcome(b, zone.id, req.action, MappedName(req, zone), req.rset,
                                req.rset.records);
        if o.err.Some? then o else After(o.events, RequestsOutcome(o.backend, zone, reqs[1..]))
  }

  /** Some request has a record to dispatch. */
  predicate AnyRecords(reqs: seq<ChangeRequest>) {
    exists i :: 0 <= i < |reqs| && |reqs[i].rset.records| > 0
  }

  /**
   * `executeRequests`: nothing in dry-run mode; otherwise the requests, then, if a record was
   * dispatched and nothing failed, the executor's token and one zone refresh.
   */
  function ExecuteOutcome(b: Backend, zone: HostedZone, reqs: seq<ChangeRequest>, dryRun: bool)
    : Outcome
  {
    if dryRun then Outcome(None, [], b)
    else
      var o := RequestsOutcome(b, zone, reqs);
      if o.err.Some? || !AnyRecords(reqs) then o
      else
        var r := RefreshSpec(o.backend, zone.id);
        Outcome(if r.err.Some? then Some(RefreshFailed(zone.id, r.err.value)) else None,
                o.events + [Accept] + GateAll(r.calls), r.backend)
  }

  lemma RecordsStep(b0: Backend, zoneId: string, action: Action, name: string, rset: RecordSet,
                    values: seq<string>, i: nat, ev: seq<Event>, b: Backend)
    requires i < |values|
    requires RecordsOutcome(b0, zoneId, action, name, rset, values)
          == After(ev, RecordsOutcome(b, zoneId, action, name, rset, values[i..]))
    ensures var d := Dispatch(b, zoneId, action, name, rset, values[i]);
      d.err.Some? ==> RecordsOutcome(b0, zoneId, action, name, rset, values) == After(ev, d)
    ensures var d := Dispatch(b, zoneId, action, name, rset, values[i]);
      d.err.None? ==>
        RecordsOutcome(b0, zoneId, action, name, rset, values)
          == After(ev + d.events, RecordsOutcome(d.backend, zoneId, action, name, rset, values[i + 1..]))
  {
    assert values[i..][1..] == values[i + 1..];
    var d := Dispatch(b, zoneId, action, name, rset, values[i]);
    AfterAfter(ev, d.events, RecordsOutcome(d.backend, zoneId, action, name, rset, values[i + 1..]));
  }

  lemma RequestsStep(b0: Backend, zone: HostedZone, reqs: seq<ChangeRequest>, i: nat,
                     ev: seq<Event>, b: Backend)
    requires i < |reqs|
    requires RequestsOutcome(b0, zone, reqs) == After(ev, RequestsOutcome(b, zone, reqs[i..]))
    ensures |reqs[i].rset.records| == 0 ==>
      RequestsOutcome(b0, zone, reqs) == After(ev, RequestsOutcome(b, zone, reqs[i + 1..]))
    ensures var req := reqs[i];
      var o := RecordsOutcome(b, zone.id, req.action, MappedName(req, zone), req.rset, req.rset.records);
      |req.rset.records| > 0 && o.err.Some? ==> RequestsOutcome(b0, zone, reqs) == After(ev, o)
    ensures var req := reqs[i];
      var o := RecordsOutcome(b, zone.id, req.action, MappedName(req, zone), req.rset, req.rset.records);
      |req.rset.records| > 0 && o.err.None? ==>
        RequestsOutcome(b0, zone, reqs) == After(ev + o.events, RequestsOutcome(o.backend, zone, reqs[i + 1..]))
  {
    assert reqs[i..][1..] == reqs[i + 1..];
    var req := reqs[i];
    var o := RecordsOutcome(b, zone.id, req.action, MappedName(req, zone), req.rset, req.rset.records);
    AfterAfter(ev, o.events, RequestsOutcome(o.backend, zone, reqs[i + 1..]));
  }

  /** The values of one provider set as the record-set handler adds them. */
  method ProviderValuesOf(rtype: string, records: seq<string>) returns (values: seq<string>)
    ensures values == ProviderValues(rtype, records)
  {
    values := [];
    var k := 0;
    while k < |records|
      invariant 0 <= k <= |records|
      invariant values == ProviderValues(rtype, records[..k])
    {
      var value := records[k];
      if rtype == RS_CNAME {
        value := NormalizeHostname(value);
      }
      assert records[..k + 1][..k] == records[..k];
      values := values + [value];
      k := k + 1;
    }
    assert records[..k] == records;
  }

  /** The record-set handler of `getZoneState`, run over every provider set in turn. */
  method CollectOf(sets: seq<ProviderSet>) returns (dnssets: DnsSets)
    ensures dnssets == Collect(sets)
  {
    dnssets := map[];
    var i := 0;
    while i < |sets|
      invariant 0 <= i <= |sets|
      invariant dnssets == Collect(sets[..i])
    {
      var s := sets[i];
      assert sets[..i + 1][..i] == sets[..i];
      if Supported(s.rtype) {
        var values := ProviderValuesOf(s.rtype, s.records);
        dnssets := AddRecordSetFromProvider(dnssets, s.name, RecordSet(s.rtype, s.ttl, values));
      }
      i := i + 1;
    }
    assert sets[..i] == sets;
  }

  /** The OVHcloud `Handler`: its provider type, its dry-run flag and its access layer. */
  class Handler {
    const providerType: string
    const dryRun: bool
    const access: Client

    ghost predicate Valid()
      reads access
    {
      access.Valid()
    }

    constructor (providerType: string, dryRun: bool, access: Client)
      requires access.Valid()
      ensures this.providerType == providerType && this.dryRun == dryRun && this.access == access
      ensures Valid()
    {
      this.providerType := providerType;
      this.dryRun := dryRun;
      this.access := access;
    }

    /** One zone of `getZones`: its NS records, and from them its forwarded names. */
    method HostedZoneOf(z: ZoneInfo) returns (r: Result<HostedZone, Error>)
      requires Valid()
      modifies access
      ensures Valid() && access.backend == old(access.backend)
      ensures var f := GetRecordSetsSpec(old(access.backend), z.name, "", RS_NS);
        access.log == old(access.log) + GateAll(f.calls)
        && (f.result.Err? ==> r == Err(ZoneRecordsFailed(z.name, f.result.error)))
        && (f.result.Ok? ==> r == Ok(Hosted(providerType, z, f.result.value)))
    {
      var records := access.GetRecordSets(z.name, "", RS_NS);
      if records.Err? {
        return Err(ZoneRecordsFailed(z.name, records.error));
      }
      var forwarded := ForwardedOf(z.name, records.value);
      return Ok(HostedZone(providerType, z.name, NormalizeHostname(z.name), z.name, forwarded, false));
    }

    /** `getZones`. */
    method GetZones() returns (r: Result<seq<HostedZone>, Error>)
      requires Valid()
      modifies access
      ensures Valid() && access.backend == old(access.backend)
      ensures r == HostedZonesSpec(providerType, old(access.backend)).result
      ensures access.log == old(access.log) + GateAll(HostedZonesSpec(providerType, old(access.backend)).calls)
    {
      ghost var b := access.backend;
      var listed := access.GetZones();
      if listed.Err? {
        return Err(ListingZonesFailed(listed.error));
      }
      var zones := listed.value;
      ghost var calls0 := Access.GetZonesSpec(b).calls;
      ghost var calls: seq<Call> := [];
      var hosted: seq<HostedZone> := [];
      var i := 0;
      assert zones[i..] == zones;
      GlueNil(ZonesWithNs(providerType, b, zones).result);
      assert calls0 + calls == calls0;
      while i < |zones|
        invariant 0 <= i <= |zones|
        invariant Valid() && access.backend == b
        invariant access.log == old(access.log) + GateAll(calls0 + calls)
        invariant ZonesWithNs(providerType, b, zones)
               == Then(hosted, calls, ZonesWithNs(providerType, b, zones[i..]))
      {
        var z := zones[i];
        ZonesWithNsStep(providerType, b, zones, i, hosted, calls);
        var one := HostedZoneOf(z);
        ghost var more := GetRecordSetsSpec(b, z.name, "", RS_NS).calls;
        GateAllAppend(calls0 + calls, more);
        Regroup(calls0, calls, more);
        Regroup(old(access.log), GateAll(calls0 + calls), GateAll(more));
        if one.Err? {
          return Err(one.error);
        }
        hosted := hosted + [one.value];
        calls := calls + more;
        i := i + 1;
      }
      assert zones[i..] == [];
      ThenDone(hosted, calls);
      return Ok(hosted);
    }

    /** `getZoneState`. */
    method GetZoneState(zone: HostedZone) returns (r: Result<DnsSets, Error>)
      requires Valid()
      modifies access
      ensures Valid() && access.backend == old(access.backend)
      ensures r == ZoneStateSpec(old(access.backend), zone).result
      ensures access.log == old(access.log) + [Accept] + GateAll(ZoneStateSpec(old(access.backend), zone).calls)
    {
      access.TakeToken();
      var listed := access.GetRecordSets(zone.id, "", "");
      if listed.Err? {
        return Err(ZoneStateFailed(zone.id, listed.error));
      }
      var sets := Group(listed.value);
      var dnssets := CollectOf(sets);
      return Ok(dnssets);
    }

    /** One record: the executor's token, then the access call for the action. */
    method DispatchRecord(zoneId: string, action: Action, name: string, rset: RecordSet,
                          value: string)
      returns (err: Option<Error>)
      requires Valid()
      modifies access
      ensures Valid()
      ensures var d := Dispatch(old(access.backend), zoneId, action, name, rset, value);
        err == d.err && access.backend == d.backend && access.log == old(access.log) + d.events
    {
      access.TakeToken();
      var e: Option<Error>;
      match action {
        case Create =>
          e := access.CreateRecordSet(zoneId, name, value, rset.rtype, rset.ttl);
        case Update =>
          e := access.UpdateRecordSet(zoneId, name, value, rset.rtype, rset.ttl);
        case Delete =>
          e := access.DeleteRecordSet(zoneId, name, value, rset.rtype);
      }
      err := if e.Some? then Some(ActionFailed(action, zoneId, e.value)) else None;
      Regroup(old(access.log), [Accept],
              GateAll(ActionEffect(old(access.backend), zoneId, action, name, rset, value).calls));
    }

    /**
     * One turn of the inner loop of `executeRequests`: the record at `i`, with the outcome of
     * the records before it (`ev`, logged after `log0`) carried along.
     */
    method DispatchNext(zoneId: string, action: Action, name: string, rset: RecordSet, i: nat,
                        ghost b0: Backend, ghost log0: seq<Event>, ghost ev: seq<Event>)
      returns (err: Option<Error>, ghost ev': seq<Event>)
      requires Valid() && i < |rset.records|
      requires access.log == log0 + ev
      requires RecordsOutcome(b0, zoneId, action, name, rset, rset.records)
            == After(ev, RecordsOutcome(access.backend, zoneId, action, name, rset, rset.records[i..]))
      modifies access
      ensures Valid() && access.log == log0 + ev'
      ensures err.Some? ==>
        RecordsOutcome(b0, zoneId, action, name, rset, rset.records) == Outcome(err, ev', access.backend)
      ensures err.None? ==>
        RecordsOutcome(b0, zoneId, action, name, rset, rset.records)
          == After(ev', RecordsOutcome(access.backend, zoneId, action, name, rset, rset.records[i + 1..]))
    {
      RecordsStep(b0, zoneId, action, name, rset, rset.records, i, ev, access.backend);
      ghost var d := Dispatch(access.backend, zoneId, action, name, rset, rset.records[i]);
      err := DispatchRecord(zoneId, action, name, rset, rset.records[i]);
      Regroup(log0, ev, d.events);
      ev' := ev + d.events;
    }

    /** The inner loop of `executeRequests`: the records of one request. */
    method DispatchRecords(zoneId: string, action: Action, name: string, rset: RecordSet)
      returns (err: Option<Error>)
      requires Valid()
      modifies access
      ensures Valid()
      ensures var o := RecordsOutcome(old(access.backend), zoneId, action, name, rset, rset.records);
        err == o.err && access.backend == o.backend && access.log == old(access.log) + o.events
    {
      ghost var b0 := access.backend;
      ghost var ev: seq<Event> := [];
      var i := 0;
      assert rset.records[i..] == rset.records;
      while i < |rset.records|
        invariant 0 <= i <= |rset.records|
        invariant Valid()
        invariant access.log == old(access.log) + ev
        invariant RecordsOutcome(b0, zoneId, action, name, rset, rset.records)
               == After(ev, RecordsOutcome(access.backend, zoneId, action, name, rset, rset.records[i..]))
      {
        err, ev := DispatchNext(zoneId, action, name, rset, i, b0, old(access.log), ev);
        if err.Some? {
          return;
        }
        i := i + 1;
      }
      assert rset.records[i..] == [];
      AfterNothing(ev, access.backend);
      return None;
    }

    /** `executeRequests`. */
    method Execute(zone: HostedZone, reqs: seq<ChangeRequest>) returns (err: Option<Error>)
      requires Valid()
      modifies access
      ensures Valid()
      ensures var o := ExecuteOutcome(old(access.backend), zone, reqs, dryRun);
        err == o.err && access.backend == o.backend && access.log == old(access.log) + o.events
      ensures dryRun ==> err.None? && access.backend == old(access.backend)
                         && access.log == old(access.log)
    {
      if dryRun {
        return None;
      }
      ghost var b0 := access.backend;
      ghost var ev: seq<Event> := [];
      var updated := false;
      var i := 0;
      assert reqs[i..] == reqs;
      assert After([], RequestsOutcome(b0, zone, reqs)) == RequestsOutcome(b0, zone, reqs);
      while i < |reqs|
        invariant 0 <= i <= |reqs|
        invariant Valid()
        invariant updated <==> AnyRecords(reqs[..i])
        invariant access.log == old(access.log) + ev
        invariant RequestsOutcome(b0, zone, reqs) == After(ev, RequestsOutcome(access.backend, zone, reqs[i..]))
      {
        var req := reqs[i];
        var name := RelativeName(req.name, zone.domain);
        RequestsStep(b0, zone, reqs, i, ev, access.backend);
        AnyRecordsStep(reqs, i);
        if |req.rset.records| == 0 {
          i := i + 1;
          continue;
        }
        updated := true;
        ghost var o := RecordsOutcome(access.backend, zone.id, req.action, name, req.rset,
                                      req.rset.records);
        err := DispatchRecords(zone.id, req.action, name, req.rset);
        Regroup(old(access.log), ev, o.events);
        if err.Some? {
          return;
        }
        ev := ev + o.events;
        i := i + 1;
      }
      assert reqs[i..] == [] && reqs[..i] == reqs;
      AfterNothing(ev, access.backend);
      if updated {
        ghost var b1 := access.backend;
        access.TakeToken();
        var e := access.RefreshZone(zone.id);
        Regroup(old(access.log), ev, [Accept]);
        Regroup(old(access.log), ev + [Accept], GateAll(RefreshSpec(b1, zone.id).calls));
        if e.Some? {
          return Some(RefreshFailed(zone.id, e.value));
        }
      }
      return None;
    }

    /** `ExecuteRequests`: the batch, then the zone cache's hook, once, with the batch's error. */
    method ExecuteRequests(zone: HostedZone, reqs: seq<ChangeRequest>) returns (err: Option<Error>)
      requires Valid()
      modifies access
      ensures Valid()
      ensures var o := ExecuteOutcome(old(access.backend), zone, reqs, dryRun);
        err == o.err && access.backend == o.backend
        && access.log == old(access.log) + o.events + [CacheApply(o.err, zone.id, reqs)]
    {
      err := Execute(zone, reqs);
      access.ReportToCache(err, zone.id, reqs);
    }
  }

  lemma AnyRecordsStep(reqs: seq<ChangeRequest>, i: nat)
    requires i < |reqs|
    ensures AnyRecords(reqs[..i + 1]) <==> AnyRecords(reqs[..i]) || |reqs[i].rset.records| > 0
  {
    assert reqs[..i + 1][i] == reqs[i];
    assert forall j :: 0 <= j < i ==> reqs[..i + 1][j] == reqs[..i][j];
  }

  // ---------------------------------------------------------------------------------------
  // What a batch does remotely
  // ---------------------------------------------------------------------------------------

  /** No request is a zone refresh. */
  predicate NoRefresh(cs: seq<Call>) {
    forall i :: 0 <= i < |cs| ==> !cs[i].PostRefresh?
  }

  /** A log of the provider's own: tokens, metrics and requests, but no cache hook. */
  predicate NoCacheApply(ev: seq<Event>) {
    forall j :: 0 <= j < |ev| ==> !ev[j].CacheApply?
  }

  lemma NoRefreshAppend(a: seq<Call>, b: seq<Call>)
    requires NoRefresh(a) && NoRefresh(b)
    ensures NoRefresh(a + b)
  {
    forall i | 0 <= i < |a + b| ensures !(a + b)[i].PostRefresh? {
      if i >= |a| {
        assert (a + b)[i] == b[i - |a|];
      }
    }
  }

  lemma NoCacheApplyAppend(a: seq<Event>, b: seq<Event>)
    requires NoCacheApply(a) && NoCacheApply(b)
    ensures NoCacheApply(a + b)
  {
    forall j | 0 <= j < |a + b| ensures !(a + b)[j].CacheApply? {
      if j >= |a| {
        assert (a + b)[j] == b[j - |a|];
      }
    }
  }

  lemma {:induction false} GateAllNoCacheApply(cs: seq<Call>)
    ensures NoCacheApply(GateAll(cs))
  {
    if cs != [] {
      GateAllNoCacheApply(cs[1..]);
      NoCacheApplyAppend(Gate(cs[0]), GateAll(cs[1..]));
    }
  }

  /** The POSTs `createRecordSet` makes for the values of one record set, in order. */
  function Posts(zoneId: string, name: string, rset: RecordSet, values: seq<string>): seq<Call> {
    if values == [] then []
    else [PostRecord(zoneId, CreateBody(name, values[0], rset.rtype, rset.ttl))]
         + Posts(zoneId, name, rset, values[1..])
  }

  /** An update makes its lookup's reads and at most one PUT, never a refresh. */
  lemma UpdateNoRefresh(b: Backend, zone: string, subDomain: string, value: string,
                        fieldType: string, ttl: int)
    ensures var e := UpdateSpec(b, zone, subDomain, value, fieldType, ttl);
      NoRefresh(e.calls) && |Writes(e.calls)| <= 1
  {
    var f := GetRecordSetSpec(b, zone, subDomain, value, fieldType);
    UpdateWrites(b, zone, subDomain, value, fieldType, ttl);
    GetRecordSetFinds(b, zone, subDomain, value, fieldType);
    assert NoRefresh(f.calls);
    if f.result.Ok? && f.result.value.Some? {
      NoRefreshAppend(f.calls, [PutRecord(zone, f.result.value.value.id, TtlBody(ttl))]);
    } else {
      assert UpdateSpec(b, zone, subDomain, value, fieldType, ttl).calls == f.calls;
    }
  }

  /** A delete makes its lookup's reads and at most one DELETE, never a refresh. */
  lemma DeleteNoRefresh(b: Backend, zone: string, subDomain: string, value: string,
                        fieldType: string)
    ensures var e := DeleteSpec(b, zone, subDomain, value, fieldType);
      NoRefresh(e.calls) && |Writes(e.calls)| <= 1
  {
    var f := GetRecordSetSpec(b, zone, subDomain, value, fieldType);
    DeleteWrites(b, zone, subDomain, value, fieldType);
    GetRecordSetFinds(b, zone, subDomain, value, fieldType);
    assert NoRefresh(f.calls);
    if f.result.Ok? && f.result.value.Some? {
      NoRefreshAppend(f.calls, [DeleteRecord(zone, f.result.value.value.id)]);
    } else {
      assert DeleteSpec(b, zone, subDomain, value, fieldType).calls == f.calls;
    }
  }

  /**
   * The access call for one record never refreshes and makes at most one write; a create makes
   * exactly one POST, whose body carries the record's type, name, value and TTL.
   */
  lemma EffectWrites(b: Backend, zoneId: string, action: Action, name: string, rset: RecordSet,
                     value: string)
    ensures var e := ActionEffect(b, zoneId, action, name, rset, value);
      NoRefresh(e.calls) && |Writes(e.calls)| <= 1
      && (action == Create ==>
            Writes(e.calls) == [PostRecord(zoneId, CreateBody(name, value, rset.rtype, rset.ttl))])
  {
    match action
    case Create =>
      var c := PostRecord(zoneId, CreateBody(name, value, rset.rtype, rset.ttl));
      assert CreateSpec(b, zoneId, name, value, rset.rtype, rset.ttl).calls == [c];
      assert Writes([c]) == [c];
    case Update =>
      UpdateNoRefresh(b, zoneId, name, value, rset.rtype, rset.ttl);
    case Delete =>
      DeleteNoRefresh(b, zoneId, name, value, rset.rtype);
  }

  /** The log of one record: the executor's token, then the gated requests of the access call. */
  lemma DispatchLog(b: Backend, zoneId: string, action: Action, name: string, rset: RecordSet,
                    value: string)
    ensures var d := Dispatch(b, zoneId, action, name, rset, value);
      var e := ActionEffect(b, zoneId, action, name, rset, value);
      HttpCalls(d.events) == e.calls && Tokens(d.events) == 1 + |e.calls|
      && Gated(d.events) && NoCacheApply(d.events)
  {
    DispatchLogTail(ActionEffect(b, zoneId, action, name, rset, value).calls);
  }

  /**
   * The records of one request: no refresh, at most one write per record, every request gated;
   * when all succeed, one executor token per record on top of one per request, and for a
   * create exactly the POSTs of the values in order.
   */
  lemma {:induction false} RecordsLog(b: Backend, zoneId: string, action: Action, name: string,
                                      rset: RecordSet, values: seq<string>)
    ensures var o := RecordsOutcome(b, zoneId, action, name, rset, values);
      NoRefresh(HttpCalls(o.events)) && |Writes(HttpCalls(o.events))| <= |values|
      && Gated(o.events) && NoCacheApply(o.events)
    ensures var o := RecordsOutcome(b, zoneId, action, name, rset, values);
      o.err.None? ==> Tokens(o.events) == |values| + |HttpCalls(o.events)|
    ensures var o := RecordsOutcome(b, zoneId, action, name, rset, values);
      o.err.None? && action == Create ==> Writes(HttpCalls(o.events)) == Posts(zoneId, name, rset, values)
    decreases |values|
  {
    if values != [] {
      var d := Dispatch(b, zoneId, action, name, rset, values[0]);
      EffectWrites(b, zoneId, action, name, rset, values[0]);
      DispatchLog(b, zoneId, action, name, rset, values[0]);
      if d.err.None? {
        var rest := RecordsOutcome(d.backend, zoneId, action, name, rset, values[1..]);
        RecordsLog(d.backend, zoneId, action, name, rset, values[1..]);
        assert RecordsOutcome(b, zoneId, action, name, rset, values).events == d.events + rest.events;
        HttpCallsAppend(d.events, rest.events);
        TokensAppend(d.events, rest.events);
        WritesAppend(HttpCalls(d.events), HttpCalls(rest.events));
        GatedAppend(d.events, rest.events);
        NoCacheApplyAppend(d.events, rest.events);
        NoRefreshAppend(HttpCalls(d.events), HttpCalls(rest.events));
      }
    }
  }

  /** All the records of a batch. */
  function RecordCount(reqs: seq<ChangeRequest>): nat {
    if reqs == [] then 0 else |reqs[0].rset.records| + RecordCount(reqs[1..])
  }

  /** The POSTs of a batch of creates, in request order and then record order. */
  function CreatePosts(zone: HostedZone, reqs: seq<ChangeRequest>): seq<Call> {
    if reqs == [] then []
    else Posts(zone.id, MappedName(reqs[0], zone), reqs[0].rset, reqs[0].rset.records)
         + CreatePosts(zone, reqs[1..])
  }

  predicate AllCreate(reqs: seq<ChangeRequest>) {
    forall i :: 0 <= i < |reqs| ==> reqs[i].action == Create
  }

  /**
   * The requests of a batch: no refresh, at most one write per record, every request gated;
   * when all succeed, one executor token per record on top of one per request, and for a batch
   * of creates exactly one POST per record, in request order and then record order.
   */
  lemma {:induction false} RequestsLog(b: Backend, zone: HostedZone, reqs: seq<ChangeRequest>)
    ensures var o := RequestsOutcome(b, zone, reqs);
      NoRefresh(HttpCalls(o.events)) && |Writes(HttpCalls(o.events))| <= RecordCount(reqs)
      && Gated(o.events) && NoCacheApply(o.events)
    ensures var o := RequestsOutcome(b, zone, reqs);
      o.err.None? ==> Tokens(o.events) == RecordCount(reqs) + |HttpCalls(o.events)|
    ensures var o := RequestsOutcome(b, zone, reqs);
      o.err.None? && AllCreate(reqs) ==> Writes(HttpCalls(o.events)) == CreatePosts(zone, reqs)
    decreases |reqs|
  {
    if reqs != [] {
      var req := reqs[0];
      assert forall i :: 0 <= i < |reqs[1..]| ==> reqs[1..][i] == reqs[i + 1];
      if |req.rset.records| == 0 {
        RequestsLog(b, zone, reqs[1..]);
      } else {
        var o := RecordsOutcome(b, zone.id, req.action, MappedName(req, zone), req.rset,
                                req.rset.records);
        RecordsLog(b, zone.id, req.action, MappedName(req, zone), req.rset, req.rset.records);
        if o.err.None? {
          var rest := RequestsOutcome(o.backend, zone, reqs[1..]);
          RequestsLog(o.backend, zone, reqs[1..]);
          assert RequestsOutcome(b, zone, reqs).events == o.events + rest.events;
          HttpCallsAppend(o.events, rest.events);
          TokensAppend(o.events, rest.events);
          WritesAppend(HttpCalls(o.events), HttpCalls(rest.events));
          GatedAppend(o.events, rest.events);
          NoCacheApplyAppend(o.events, rest.events);
          NoRefreshAppend(HttpCalls(o.events), HttpCalls(rest.events));
        }
      }
    }
  }

  /**
   * `executeRequests` outside dry-run mode: the requests' calls, and then exactly one zone
   * refresh, as the last request, when a record was dispatched and nothing failed; no refresh
   * otherwise. Every request is gated, and with no error the tokens are one per request, one
   * per record, and one before the refresh.
   */
  lemma ExecuteLog(b: Backend, zone: HostedZone, reqs: seq<ChangeRequest>)
    ensures var o := RequestsOutcome(b, zone, reqs);
      NoRefresh(HttpCalls(o.events))
    ensures var o := RequestsOutcome(b, zone, reqs);
      var x := ExecuteOutcome(b, zone, reqs, false);
      Gated(x.events) && NoCacheApply(x.events)
      && (o.err.None? && AnyRecords(reqs) ==>
            HttpCalls(x.events) == HttpCalls(o.events) + [PostRefresh(zone.id)])
      && (o.err.Some? || !AnyRecords(reqs) ==> x == o)
    ensures var x := ExecuteOutcome(b, zone, reqs, false);
      x.err.None? ==>
        Tokens(x.events) == RecordCount(reqs) + |HttpCalls(x.events)| + (if AnyRecords(reqs) then 1 else 0)
  {
    var o := RequestsOutcome(b, zone, reqs);
    RequestsLog(b, zone, reqs);
    if o.err.None? && AnyRecords(reqs) {
      var r := RefreshSpec(o.backend, zone.id);
      var tail := [Accept] + GateAll(r.calls);
      assert r.calls == [PostRefresh(zone.id)];
      Regroup(o.events, [Accept], GateAll(r.calls));
      assert ExecuteOutcome(b, zone, reqs, false).events == o.events + tail;
      DispatchLogTail(r.calls);
      HttpCallsAppend(o.events, tail);
      TokensAppend(o.events, tail);
      GatedAppend(o.events, tail);
      NoCacheApplyAppend(o.events, tail);
    }
  }

  /** A token followed by gated requests. */
  lemma DispatchLogTail(cs: seq<Call>)
    ensures var t := [Accept] + GateAll(cs);
      HttpCalls(t) == cs && Tokens(t) == 1 + |cs| && Gated(t) && NoCacheApply(t)
  {
    var g := GateAll(cs);
    assert [Accept][1..] == [];
    assert HttpCalls([Accept]) == [] && Tokens([Accept]) == 1;
    GateAllCalls(cs);
    HttpCallsAppend([Accept], g);
    TokensAppend([Accept], g);
    GateAllGated(cs);
    GatedAppend([Accept], g);
    GateAllNoCacheApply(cs);
    NoCacheApplyAppend([Accept], g);
  }

  /** A batch whose record sets are all empty makes no call and changes nothing. */
  lemma {:induction false} NoRecordsNoCalls(b: Backend, zone: HostedZone, reqs: seq<ChangeRequest>)
    requires !AnyRecords(reqs)
    ensures RequestsOutcome(b, zone, reqs) == Outcome(None, [], b)
    ensures ExecuteOutcome(b, zone, reqs, false) == Outcome(None, [], b)
    decreases |reqs|
  {
    if reqs != [] {
      assert |reqs[0].rset.records| == 0;
      assert forall i :: 0 <= i < |reqs[1..]| ==> reqs[1..][i] == reqs[i + 1];
      NoRecordsNoCalls(b, zone, reqs[1..]);
    }
  }

  /**
   * A batch is its first part followed by the rest, run on the store the first part left,
   * unless the first part failed: then the rest is never started.
   */
  lemma {:induction false} RequestsAppend(b: Backend, zone: HostedZone, a: seq<ChangeRequest>,
                                          c: seq<ChangeRequest>)
    ensures var o := RequestsOutcome(b, zone, a);
      RequestsOutcome(b, zone, a + c)
        == if o.err.Some? then o else After(o.events, RequestsOutcome(o.backend, zone, c))
    decreases |a|
  {
    if a == [] {
      assert a + c == c;
      assert After([], RequestsOutcome(b, zone, c)) == RequestsOutcome(b, zone, c);
    } else {
      var req := a[0];
      assert (a + c)[0] == req && (a + c)[1..] == a[1..] + c;
      if |req.rset.records| == 0 {
        RequestsAppend(b, zone, a[1..], c);
      } else {
        var o := RecordsOutcome(b, zone.id, req.action, MappedName(req, zone), req.rset,
                                req.rset.records);
        if o.err.None? {
          RequestsAppend(o.backend, zone, a[1..], c);
          var p := RequestsOutcome(o.backend, zone, a[1..]);
          if p.err.None? {
            AfterAfter(o.events, p.events, RequestsOutcome(p.backend, zone, c));
          }
        }
      }
    }
  }
}
