/**
 * The parts of the `dns` package that the OVHcloud provider calls: host-name normalisation,
 * record sets, change requests and the DNSSets collection. These are defined outside the
 * provider; what is written here is the behaviour the provider relies on.
 */
module Dns {
  import opened Text

  const RS_A: string := "A"
  const RS_CNAME: string := "CNAME"
  const RS_TXT: string := "TXT"
  const RS_NS: string := "NS"

  /** The record types the provider synchronises; every other type is ignored. */
  predicate Supported(rtype: string) {
    rtype == RS_A || rtype == RS_CNAME || rtype == RS_TXT
  }

  /**
   * `dns.NormalizeHostname`: an escaped wildcard label "\052." becomes "*.", and one trailing
   * dot is dropped.
   */
  function NormalizeHostname(host: string): string {
    var h := if HasPrefix(host, "\\052.") then "*" + host[4..] else host;
    if HasSuffix(h, ".") then h[..|h| - 1] else h
  }

  /** A CNAME target reads the same with or without its trailing dot. */
  lemma NormalizeIgnoresTrailingDot(s: string)
    requires s == [] || (s[0] != '\\' && s[|s| - 1] != '.')
    ensures NormalizeHostname(s + ".") == NormalizeHostname(s) == s
  {
    var d := s + ".";
    assert d[..|d| - 1] == s;
    if |s| >= 4 { assert d[..4] == s[..4]; }
  }

  /** The absolute name of a record: its sub-domain prefixed to the zone, the zone for the apex. */
  function OwnerName(subDomain: string, zone: string): string {
    if subDomain == "" then zone else subDomain + "." + zone
  }

  /**
   * The sub-domain under which the remote API addresses `name` in the zone `domain`: empty at
   * the apex, the part before ".domain" below it, and the name itself otherwise.
   */
  function RelativeName(name: string, domain: string): string {
    if name == domain then ""
    else if HasSuffix(name, "." + domain) then name[..|name| - |domain| - 1]
    else name
  }

  /** Relativising an owner name gives its sub-domain back. */
  lemma RelativeOfOwner(subDomain: string, zone: string)
    ensures RelativeName(OwnerName(subDomain, zone), zone) == subDomain
  {
    if subDomain != "" {
      var n := subDomain + "." + zone;
      assert |n| > |zone|;
      assert n[|n| - |"." + zone|..] == "." + zone;
      assert n[..|n| - |zone| - 1] == subDomain;
    }
  }

  /** Every name in the zone (the apex or a name below it) is the owner of its relative name. */
  lemma OwnerOfRelative(name: string, domain: string)
    requires name == domain || (HasSuffix(name, "." + domain) && |name| > |domain| + 1)
    ensures OwnerName(RelativeName(name, domain), domain) == name
  {
    if name != domain {
      var sub := name[..|name| - |domain| - 1];
      assert name[|name| - |domain| - 1..] == "." + domain;
      assert name == sub + ("." + domain);
    }
  }

  /** `dns.RecordSet`: one type, one TTL, the record values in insertion order. */
  datatype RecordSet = RecordSet(rtype: string, ttl: int, records: seq<string>)

  /** The three actions of a `provider.ChangeRequest`. */
  datatype Action = Create | Update | Delete

  /**
   * A change request as the provider sees it after `dns.MapToProvider`: the DNS name of the
   * set, the action, and the record set to write.
   */
  datatype ChangeRequest = ChangeRequest(action: Action, name: string, rset: RecordSet)

  /** `dns.DNSSets`: normalised DNS name to the record sets at that name, one per type. */
  type DnsSets = map<string, map<string, RecordSet>>

  /** The collection has a set of type `rtype` under `name`. */
  predicate HasSet(sets: DnsSets, name: string, rtype: string) {
    name in sets && rtype in sets[name]
  }

  /**
   * `DNSSets.AddRecordSetFromProvider`: stores the set under the normalised name, replacing any
   * set of the same type there, and leaves every other entry alone.
   */
  function AddRecordSetFromProvider(sets: DnsSets, name: string, rs: RecordSet): (r: DnsSets)
    ensures NormalizeHostname(name) in r && rs.rtype in r[NormalizeHostname(name)]
    ensures r[NormalizeHostname(name)][rs.rtype] == rs
    ensures r.Keys == sets.Keys + {NormalizeHostname(name)}
    ensures forall n, t :: HasSet(sets, n, t) ==> HasSet(r, n, t)
    ensures forall n, t :: HasSet(r, n, t) && (n != NormalizeHostname(name) || t != rs.rtype)
              ==> HasSet(sets, n, t) && r[n][t] == sets[n][t]
  {
    var n := NormalizeHostname(name);
    var atName := if n in sets then sets[n] else map[];
    sets[n := atName[rs.rtype := rs]]
  }
}
