/**
 * The source-name filtering of the DNS source reconciler (pkg/dns/source/dnsinfo.go): which
 * names an excluded-domains set rules out, how the names, TTL and check interval a source
 * reports are completed from annotations, and how injected annotations are merged into an
 * object's own.
 */
module DnsInfo {
  import opened Wrappers
  import opened Text

  /** The annotation keys; their exact strings are defined outside this model. */
  const DNS_ANNOTATION: string := "dns.gardener.cloud/dnsnames"
  const TTL_ANNOTATION: string := "dns.gardener.cloud/ttl"
  const PERIOD_ANNOTATION: string := "dns.gardener.cloud/cname-lookup-interval"

  /** A Go map read: a missing annotation reads as "". */
  function Anno(annos: map<string, string>, k: string): string {
    if k in annos then annos[k] else ""
  }

  // ---------------------------------------------------------------------------------------
  // exclude
  // ---------------------------------------------------------------------------------------

  /** A "*."-entry `d` matches `dns` when what follows the first dot of `dns` is `d[2..]`. */
  predicate WildcardMatch(d: string, dns: string) {
    HasPrefix(d, "*.")
    && match IndexOf(dns, '.')
       case None => false
       case Some(i) => d[2..] == dns[i + 1..]
  }

  /** The set rules `dns` out: literally, or through a wildcard entry. */
  predicate Excluded(excluded: set<string>, dns: string) {
    dns in excluded || exists d :: d in excluded && WildcardMatch(d, dns)
  }

  /** `exclude`: the exact test first, then a scan of the entries that stops at a match. */
  method Exclude(excluded: set<string>, dns: string) returns (r: bool)
    ensures r == Excluded(excluded, dns)
  {
    if dns in excluded {
      return true;
    }
    var rest := excluded;
    while rest != {}
      invariant rest <= excluded
      invariant forall d :: d in excluded - rest ==> !WildcardMatch(d, dns)
      decreases |rest|
    {
      var d :| d in rest;
      if HasPrefix(d, "*.") {
        var i := IndexOf(dns, '.');
        if i.Some? && d[2..] == dns[i.value + 1..] {
          return true;
        }
      }
      rest := rest - {d};
    }
    return false;
  }

  /** "*.d" matches exactly the names of one more label than `d`: a dot-free label, a dot, then d. */
  lemma WildcardOneLabel(d: string, dns: string)
    ensures WildcardMatch("*." + d, dns) <==> exists l :: '.' !in l && dns == l + "." + d
  {
    var w := "*." + d;
    assert HasPrefix(w, "*.") && w[2..] == d;
    if WildcardMatch(w, dns) {
      var i := IndexOf(dns, '.').value;
      var l := dns[..i];
      assert dns == l + "." + dns[i + 1..];
    }
    if exists l :: '.' !in l && dns == l + "." + d {
      var l :| '.' !in l && dns == l + "." + d;
      IndexOfJoined(l, '.', d);
      assert dns == l + ['.'] + d;
      assert dns[|l| + 1..] == d;
    }
  }

  /** A wildcard entry does not match the domain it names. */
  lemma WildcardNotItself(d: string)
    ensures !WildcardMatch("*." + d, d)
  {
    var w := "*." + d;
    assert w[2..] == d;
    match IndexOf(d, '.')
    case None =>
    case Some(i) => assert |d[i + 1..]| < |d|;
  }

  /** A wildcard entry does not match names two or more labels below its domain. */
  lemma WildcardNotDeeper(d: string, x: string, y: string)
    requires '.' !in x
    ensures !WildcardMatch("*." + d, x + "." + y + "." + d)
  {
    var w := "*." + d;
    assert w[2..] == d;
    var dns := x + "." + y + "." + d;
    var tail := y + "." + d;
    assert dns == x + ['.'] + tail;
    IndexOfJoined(x, '.', tail);
    assert dns[|x| + 1..] == tail;
    assert |tail| > |d|;
  }

  /** A name without a dot is ruled out only by an exact entry. */
  lemma NoDotOnlyExact(excluded: set<string>, dns: string)
    requires '.' !in dns
    ensures Excluded(excluded, dns) <==> dns in excluded
  {
    assert IndexOf(dns, '.').None?;
  }

  // ---------------------------------------------------------------------------------------
  // enrichAnnotations
  // ---------------------------------------------------------------------------------------

  /** The DNS names of an object once the injected ones are added. */
  function InjectedNames(annos: map<string, string>, addons: map<string, string>): set<string> {
    SplitNames(Anno(annos, DNS_ANNOTATION))
    + (if DNS_ANNOTATION in addons then SplitNames(addons[DNS_ANNOTATION]) else {})
  }

  /** Any other annotation once the injected ones overwrite the object's own. */
  function Effective(annos: map<string, string>, addons: map<string, string>, k: string): string {
    if k in addons then addons[k] else Anno(annos, k)
  }

  lemma InjectedClean(annos: map<string, string>, addons: map<string, string>)
    ensures forall y :: y in InjectedNames(annos, addons) ==> CleanName(y)
  {
    SplitNamesClean(Anno(annos, DNS_ANNOTATION));
    if DNS_ANNOTATION in addons {
      SplitNamesClean(addons[DNS_ANNOTATION]);
    }
  }

  /** The object's annotations after the addons of `keys` were applied in that order. */
  function Overwrite(annos: map<string, string>, addons: map<string, string>, keys: seq<string>)
    : map<string, string>
  {
    if keys == [] then annos
    else
      var k := keys[|keys| - 1];
      var m := Overwrite(annos, addons, keys[..|keys| - 1]);
      if k == DNS_ANNOTATION || k !in addons then m else m[k := addons[k]]
  }

  /** In whatever order the addons come, each key but the DNS one ends with the addon's value. */
  lemma {:induction false} OverwriteFacts(annos: map<string, string>, addons: map<string, string>,
                                          keys: seq<string>)
    ensures forall x :: x in Overwrite(annos, addons, keys) <==>
              x in annos || (x in keys && x in addons && x != DNS_ANNOTATION)
    ensures forall x :: x in Overwrite(annos, addons, keys) ==>
              Overwrite(annos, addons, keys)[x]
                == if x in keys && x in addons && x != DNS_ANNOTATION then addons[x] else annos[x]
  {
    if keys != [] {
      var init := keys[..|keys| - 1];
      OverwriteFacts(annos, addons, init);
      assert keys == init + [keys[|keys| - 1]];
      assert forall x :: x in keys <==> x in init || x == keys[|keys| - 1];
    }
  }

  /** The loop of `enrichAnnotations` over the addons: overwrites, and the DNS names gathered. */
  method MergeAddons(annos: map<string, string>, addons: map<string, string>)
    returns (r: map<string, string>, names: set<string>)
    ensures exists done :: (forall x :: x in done <==> x in addons) && r == Overwrite(annos, addons, done)
    ensures names == InjectedNames(annos, addons)
  {
    r := annos;
    names := SplitNames(Anno(annos, DNS_ANNOTATION));
    ghost var own := names;
    ghost var extra := if DNS_ANNOTATION in addons then SplitNames(addons[DNS_ANNOTATION]) else {};
    ghost var done: seq<string> := [];
    var rest := addons.Keys;
    while rest != {}
      invariant rest <= addons.Keys
      invariant forall x :: x in done <==> x in addons && x !in rest
      invariant names == if DNS_ANNOTATION in rest then own else own + extra
      invariant r == Overwrite(annos, addons, done)
      decreases |rest|
    {
      var k :| k in rest;
      if k == DNS_ANNOTATION {
        names := names + SplitNames(addons[k]);
      } else {
        r := r[k := addons[k]];
      }
      assert (done + [k])[..|done|] == done;
      done := done + [k];
      rest := rest - {k};
    }
  }

  /**
   * `enrichAnnotations` on the object's annotations and the ones injected for it: with no
   * addons the annotations are returned as they are; otherwise every injected key but the DNS
   * one overwrites its value, and the DNS annotation becomes the comma-joined union of the
   * object's names and the injected ones, left alone when that union is empty.
   */
  method EnrichAnnotations(annos: map<string, string>, addons: map<string, string>)
    returns (r: map<string, string>)
    ensures |addons| == 0 ==> r == annos
    ensures forall k :: k != DNS_ANNOTATION ==>
              (k in r <==> k in annos || k in addons)
              && (k in r ==> r[k] == if k in addons then addons[k] else annos[k])
    ensures SplitNames(Anno(r, DNS_ANNOTATION)) == InjectedNames(annos, addons)
    ensures InjectedNames(annos, addons) == {} ==>
              (DNS_ANNOTATION in r <==> DNS_ANNOTATION in annos)
              && Anno(r, DNS_ANNOTATION) == Anno(annos, DNS_ANNOTATION)
  {
    if |addons| == 0 {
      return annos;
    }
    var names;
    r, names := MergeAddons(annos, addons);
    ghost var done :| (forall x :: x in done <==> x in addons) && r == Overwrite(annos, addons, done);
    OverwriteFacts(annos, addons, done);
    if |names| > 0 {
      var xs := AsArray(names);
      InjectedClean(annos, addons);
      JoinedNames(names, xs);
      r := r[DNS_ANNOTATION := Join(xs, ',')];
    }
  }

  // ---------------------------------------------------------------------------------------
  // getDNSInfo
  // ---------------------------------------------------------------------------------------

  /** The errors `getDNSInfo` returns. */
  datatype InfoError =
    | SourceError(message: string)   // whatever the source's own GetDNSInfo reported
    | InvalidTtl(value: string)      // "invalid TTL: ..."
    | InvalidInterval(value: string) // "invalid check Interval: ..."

  /** What a source reports for an object: the names it wants, and its TTL and check interval. */
  class DNSInfo {
    var names: set<string>
    var ttl: Option<int>
    var interval: Option<int>

    constructor (names: set<string>, ttl: Option<int>, interval: Option<int>)
      ensures this.names == names && this.ttl == ttl && this.interval == interval
    {
      this.names := names;
      this.ttl := ttl;
      this.interval := interval;
    }
  }

  /** The reconciler's view of an object; `getDNSInfo` records the names annotated on it. */
  class DNSCurrentState {
    var annotatedNames: set<string>

    constructor ()
      ensures annotatedNames == {}
    {
      annotatedNames := {};
    }
  }

  /** The names that survive exclusion. */
  function Kept(excluded: set<string>, names: set<string>): set<string> {
    set d | d in names && !Excluded(excluded, d)
  }

  /**
   * A TTL or interval field completed from its annotation: a set field stays as it is; an
   * empty annotation, or one reading 0, leaves it unset; None stands for an annotation that is
   * not a 64-bit decimal integer.
   */
  function Completed(field: Option<int>, a: string): (r: Option<Option<int>>)
    ensures field.Some? ==> r == Some(field)
    ensures field.None? && a == "" ==> r == Some(None)
    ensures field.None? && a != "" ==> (r.None? <==> ParseInt(a).None?)
    ensures field.None? && r.Some? && r.value.Some? ==> ParseInt(a) == Some(r.value.value)
    ensures field.None? && ParseInt(a) == Some(0) ==> r == Some(None)
    ensures r.Some? && r.value.Some? && field.None? ==>
      r.value.value != 0 && MinInt64 <= r.value.value <= MaxInt64
  {
    if field.Some? || a == "" then Some(field)
    else match ParseInt(a)
      case None => None
      case Some(v) => Some(if v != 0 then Some(v) else None)
  }

  /** An unset field takes any non-zero 64-bit value written in its annotation, and only that. */
  lemma CompletedFormatted(n: int)
    requires MinInt64 <= n <= MaxInt64
    ensures Completed(None, FormatInt(n)) == Some(if n != 0 then Some(n) else None)
  {
    ParseFormatInt(n);
    assert FormatInt(n) != "";
  }

  /**
   * An unset field completed from any signed decimal, "+5" and "007" included: its value when
   * that is non-zero and fits in 64 bits, unset for zero, and an error when it does not fit.
   */
  lemma CompletedDecimal(sign: string, digits: string)
    requires Decimal(sign, digits)
    ensures var v := SignedValue(sign, digits);
      Completed(None, sign + digits)
        == if MinInt64 <= v <= MaxInt64 then Some(if v != 0 then Some(v) else None) else None
  {
    ParseIntDecimal(sign, digits);
    assert sign + digits != "";
  }

  /** The in-place removal of the excluded names. */
  method RemoveExcluded(excluded: set<string>, info: DNSInfo)
    modifies info
    ensures info.names == Kept(excluded, old(info.names))
    ensures info.ttl == old(info.ttl) && info.interval == old(info.interval)
  {
    var rest := info.names;
    ghost var all := info.names;
    while rest != {}
      invariant rest <= all
      invariant forall d :: d in info.names <==> d in rest || (d in all && !Excluded(excluded, d))
      invariant info.ttl == old(info.ttl) && info.interval == old(info.interval)
      decreases |rest|
    {
      var d :| d in rest;
      var x := Exclude(excluded, d);
      if x {
        info.names := info.names - {d};
      }
      rest := rest - {d};
    }
  }

  /** The TTL, then the interval, of a reported info completed from their annotations. */
  method CompleteFields(info: DNSInfo, ttlAnno: string, periodAnno: string)
    returns (err: Option<InfoError>)
    modifies info
    ensures info.names == old(info.names)
    ensures var t := Completed(old(info.ttl), ttlAnno);
      var p := Completed(old(info.interval), periodAnno);
      (t.None? ==> err == Some(InvalidTtl(ttlAnno))
                   && info.ttl == old(info.ttl) && info.interval == old(info.interval))
      && (t.Some? ==>
            info.ttl == t.value
            && (p.None? ==> err == Some(InvalidInterval(periodAnno)) && info.interval == old(info.interval))
            && (p.Some? ==> err.None? && info.interval == p.value))
  {
    if info.ttl.None? && ttlAnno != "" {
      var ttl := ParseInt(ttlAnno);
      if ttl.None? {
        return Some(InvalidTtl(ttlAnno));
      }
      if ttl.value != 0 {
        info.ttl := Some(ttl.value);
      }
    }
    if info.interval.None? && periodAnno != "" {
      var interval := ParseInt(periodAnno);
      if interval.None? {
        return Some(InvalidInterval(periodAnno));
      }
      if interval.value != 0 {
        info.interval := Some(interval.value);
      }
    }
    return None;
  }

  /**
   * `getDNSInfo`. The object's annotations are first enriched with the injected ones. An object
   * this reconciler is not responsible for yields nothing. Otherwise the annotated names are
   * recorded, excluded names are removed from what the source reports, a source error is passed
   * on, and an unset TTL and interval are completed from their annotations, TTL first.
   * `responsible`, `found` and `sourceErr` are what the class filter's verdict and the source's
   * own GetDNSInfo return.
   */
  method GetDNSInfo(excluded: set<string>, annos: map<string, string>, addons: map<string, string>,
                    responsible: bool, current: DNSCurrentState, found: DNSInfo?,
                    sourceErr: Option<string>)
    returns (info: DNSInfo?, handled: bool, err: Option<InfoError>)
    modifies current, found
    ensures !responsible ==>
      info == null && !handled && err.None? && current.annotatedNames == old(current.annotatedNames)
      && (found != null ==> found.names == old(found.names) && found.ttl == old(found.ttl)
                            && found.interval == old(found.interval))
    ensures responsible ==>
      handled && info == found && current.annotatedNames == InjectedNames(annos, addons)
    ensures responsible && found != null ==> found.names == Kept(excluded, old(found.names))
    ensures responsible && sourceErr.Some? ==>
      err == Some(SourceError(sourceErr.value))
      && (found != null ==> found.ttl == old(found.ttl) && found.interval == old(found.interval))
    ensures responsible && sourceErr.None? && found == null ==> err.None?
    ensures responsible && sourceErr.None? && found != null ==>
      var t := Completed(old(found.ttl), Effective(annos, addons, TTL_ANNOTATION));
      var p := Completed(old(found.interval), Effective(annos, addons, PERIOD_ANNOTATION));
      (t.None? ==> err == Some(InvalidTtl(Effective(annos, addons, TTL_ANNOTATION)))
                   && found.ttl == old(found.ttl) && found.interval == old(found.interval))
      && (t.Some? ==>
            found.ttl == t.value
            && (p.None? ==> err == Some(InvalidInterval(Effective(annos, addons, PERIOD_ANNOTATION)))
                            && found.interval == old(found.interval))
            && (p.Some? ==> err.None? && found.interval == p.value))
  {
    var enriched := EnrichAnnotations(annos, addons);
    if !responsible {
      return null, false, None;
    }
    current.annotatedNames := SplitNames(Anno(enriched, DNS_ANNOTATION));
    info := found;
    handled := true;
    err := None;
    if info != null {
      RemoveExcluded(excluded, info);
    }
    if sourceErr.Some? {
      return info, true, Some(SourceError(sourceErr.value));
    }
    if info == null {
      return null, true, None;
    }
    var ttlAnno := Anno(enriched, TTL_ANNOTATION);
    var periodAnno := Anno(enriched, PERIOD_ANNOTATION);
    assert ttlAnno == Effective(annos, addons, TTL_ANNOTATION);
    assert periodAnno == Effective(annos, addons, PERIOD_ANNOTATION);
    err := CompleteFields(info, ttlAnno, periodAnno);
    return info, true, err;
  }
}
