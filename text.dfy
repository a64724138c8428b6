/**
 * The pieces of Go's `strings` and `strconv` packages, and of the `utils.StringSet`
 * helpers, that the source-name filtering relies on.
 */
module Text {
  import opened Wrappers

  predicate HasPrefix(s: string, p: string) {
    |p| <= |s| && s[..|p|] == p
  }

  predicate HasSuffix(s: string, p: string) {
    |p| <= |s| && s[|s| - |p|..] == p
  }

  /** `strings.Index(s, string(c))`; Go's -1 is None. */
  function IndexOf(s: string, c: char): (r: Option<nat>)
    ensures r.Some? ==> r.value < |s| && s[r.value] == c && c !in s[..r.value]
    ensures r.None? <==> c !in s
  {
    if s == [] then None
    else if s[0] == c then Some(0)
    else match IndexOf(s[1..], c)
      case None => None
      case Some(i) =>
        assert s[1..][..i] == s[1..i + 1];
        Some(i + 1)
  }

  lemma {:induction false} IndexOfJoined(a: string, c: char, b: string)
    requires c !in a
    ensures IndexOf(a + [c] + b, c) == Some(|a|)
  {
    if a != [] {
      assert (a + [c] + b)[1..] == a[1..] + [c] + b;
      IndexOfJoined(a[1..], c, b);
    }
  }

  /** `strings.Split(s, string(sep))`: never empty; "" splits into [""]. */
  function Split(s: string, sep: char): (parts: seq<string>)
    ensures |parts| >= 1
    ensures forall i :: 0 <= i < |parts| ==> sep !in parts[i]
    decreases |s|
  {
    match IndexOf(s, sep)
    case None => [s]
    case Some(i) => [s[..i]] + Split(s[i + 1..], sep)
  }

  /** `strings.Join(parts, string(sep))`. */
  function Join(parts: seq<string>, sep: char): string {
    if |parts| == 0 then ""
    else if |parts| == 1 then parts[0]
    else parts[0] + [sep] + Join(parts[1..], sep)
  }

  /** Splitting what was joined gives the parts back when no part holds the separator. */
  lemma {:induction false} SplitJoin(parts: seq<string>, sep: char)
    requires |parts| >= 1
    requires forall i :: 0 <= i < |parts| ==> sep !in parts[i]
    ensures Split(Join(parts, sep), sep) == parts
  {
    if |parts| > 1 {
      var rest := Join(parts[1..], sep);
      var s := parts[0] + [sep] + rest;
      assert Join(parts, sep) == s;
      IndexOfJoined(parts[0], sep, rest);
      assert s[..|parts[0]|] == parts[0];
      assert s[|parts[0]| + 1..] == rest;
      assert Split(s, sep) == [parts[0]] + Split(rest, sep);
      SplitJoin(parts[1..], sep);
      assert parts == [parts[0]] + parts[1..];
    }
  }

  /** Joining what was split gives the string back. */
  lemma {:induction false} JoinSplit(s: string, sep: char)
    ensures Join(Split(s, sep), sep) == s
    decreases |s|
  {
    match IndexOf(s, sep)
    case None =>
    case Some(i) =>
      JoinSplit(s[i + 1..], sep);
      var parts := Split(s, sep);
      assert parts[1..] == Split(s[i + 1..], sep);
      assert s == s[..i] + [sep] + s[i + 1..];
  }

  /** The white space `strings.TrimSpace` removes (the ASCII ones plus NEL and NBSP). */
  predicate IsSpace(c: char) {
    c == ' ' || c == '\t' || c == '\n' || c == '\r' || c == '\U{B}' || c == '\U{C}'
    || c == '\U{85}' || c == '\U{A0}'
  }

  function TrimLeft(s: string): (t: string)
    ensures t == [] || !IsSpace(t[0])
    ensures forall c :: c in t ==> c in s
  {
    if s != [] && IsSpace(s[0]) then TrimLeft(s[1..]) else s
  }

  function TrimRight(s: string): (t: string)
    ensures t == [] || !IsSpace(t[|t| - 1])
    ensures forall c :: c in t ==> c in s
    ensures (s == [] || !IsSpace(s[0])) ==> (t == [] || !IsSpace(t[0]))
  {
    if s != [] && IsSpace(s[|s| - 1]) then TrimRight(s[..|s| - 1]) else s
  }

  /** `strings.TrimSpace`: the string without the white space at either end. */
  function TrimSpace(s: string): (t: string)
    ensures t == [] || (!IsSpace(t[0]) && !IsSpace(t[|t| - 1]))
    ensures forall c :: c in t ==> c in s
  {
    TrimRight(TrimLeft(s))
  }

  lemma TrimSpaceKeeps(s: string)
    requires s == [] || (!IsSpace(s[0]) && !IsSpace(s[|s| - 1]))
    ensures TrimSpace(s) == s
  {
  }

  /** The trimmed, non-empty elements of a split. */
  function Selected(parts: seq<string>): set<string> {
    set i | 0 <= i < |parts| && TrimSpace(parts[i]) != "" :: TrimSpace(parts[i])
  }

  /**
   * `StringSet.AddAllSplittedSelected(s, StandardNonEmptyStringElement)` on an empty set:
   * the trimmed, non-empty comma-separated elements of `s`.
   */
  function SplitNames(s: string): set<string> {
    Selected(Split(s, ','))
  }

  /** A name as the split leaves it: non-empty, no comma, no white space at either end. */
  predicate CleanName(x: string) {
    x != [] && ',' !in x && !IsSpace(x[0]) && !IsSpace(x[|x| - 1])
  }

  lemma SplitNamesClean(s: string)
    ensures forall x :: x in SplitNames(s) ==> CleanName(x)
  {
    var parts := Split(s, ',');
    forall x | x in SplitNames(s) ensures CleanName(x) {
      var i :| 0 <= i < |parts| && TrimSpace(parts[i]) != "" && x == TrimSpace(parts[i]);
      assert ',' !in parts[i];
    }
  }

  lemma SelectedClean(xs: seq<string>)
    requires forall i :: 0 <= i < |xs| ==> CleanName(xs[i])
    ensures Selected(xs) == set i | 0 <= i < |xs| :: xs[i]
  {
    forall i | 0 <= i < |xs| ensures TrimSpace(xs[i]) == xs[i] {
      TrimSpaceKeeps(xs[i]);
    }
  }

  /** Joining clean names with commas and splitting again gives the same set of names. */
  lemma SplitNamesJoin(xs: seq<string>)
    requires forall i :: 0 <= i < |xs| ==> CleanName(xs[i])
    ensures SplitNames(Join(xs, ',')) == set i | 0 <= i < |xs| :: xs[i]
  {
    if xs == [] {
      assert Split("", ',') == [""];
      assert TrimSpace("") == "";
      assert Selected([""]) == {};
    } else {
      SplitJoin(xs, ',');
      SelectedClean(xs);
    }
  }

  /** Joining the clean names of a set, in any order, and splitting again gives the set. */
  lemma JoinedNames(names: set<string>, xs: seq<string>)
    requires forall y :: y in xs <==> y in names
    requires forall y :: y in names ==> CleanName(y)
    ensures SplitNames(Join(xs, ',')) == names
  {
    forall i | 0 <= i < |xs| ensures CleanName(xs[i]) {
      assert xs[i] in xs;
    }
    SplitNamesJoin(xs);
    forall y | y in names ensures y in (set i | 0 <= i < |xs| :: xs[i]) {
      var i :| 0 <= i < |xs| && xs[i] == y;
    }
  }

  /** `StringSet.AsArray`: every element exactly once, in an order the set does not fix. */
  method AsArray(s: set<string>) returns (xs: seq<string>)
    ensures forall y :: y in xs <==> y in s
    ensures forall i, j :: 0 <= i < j < |xs| ==> xs[i] != xs[j]
  {
    xs := [];
    var rest := s;
    while rest != {}
      invariant rest <= s
      invariant forall y :: y in xs <==> y in s - rest
      invariant forall i, j :: 0 <= i < j < |xs| ==> xs[i] != xs[j]
      decreases |rest|
    {
      var x :| x in rest;
      assert forall i :: 0 <= i < |xs| ==> xs[i] != x by {
        forall i | 0 <= i < |xs| ensures xs[i] != x {
          assert xs[i] in xs;
        }
      }
      xs := xs + [x];
      rest := rest - {x};
    }
  }

  function DigitValue(c: char): (d: nat)
    requires '0' <= c <= '9'
    ensures d < 10
  {
    (c as int - '0' as int)
  }

  predicate AllDigits(s: string) {
    forall k :: 0 <= k < |s| ==> '0' <= s[k] <= '9'
  }

  /** The value of a string of decimal digits, most significant first. */
  function DigitsValue(s: string): nat
    requires AllDigits(s)
  {
    if s == [] then 0 else DigitsValue(s[..|s| - 1]) * 10 + DigitValue(s[|s| - 1])
  }

  const MinInt64: int := -0x8000_0000_0000_0000
  const MaxInt64: int := 0x7fff_ffff_ffff_ffff

  /**
   * `strconv.ParseInt(s, 10, 64)`: an optional sign, then one or more decimal digits, and the
   * value must fit in 64 bits; anything else (a blank, an underscore, "0x") is an error.
   */
  function ParseInt(s: string): (r: Option<int>)
    ensures r.Some? ==> MinInt64 <= r.value <= MaxInt64
    ensures r.Some? ==> s != [] && (s[0] == '-' || s[0] == '+' || '0' <= s[0] <= '9')
  {
    if s == [] then None
    else
      var digits := if s[0] == '+' || s[0] == '-' then s[1..] else s;
      if digits == [] || !AllDigits(digits) then None
      else
        var v: int := DigitsValue(digits);
        var n: int := if s[0] == '-' then -v else v;
        if MinInt64 <= n <= MaxInt64 then Some(n) else None
  }

  /** An optional sign, then one or more decimal digits. */
  predicate Decimal(sign: string, digits: string) {
    (sign == "" || sign == "+" || sign == "-") && digits != [] && AllDigits(digits)
  }

  function SignedValue(sign: string, digits: string): int
    requires AllDigits(digits)
  {
    var v: int := DigitsValue(digits);
    if sign == "-" then -v else v
  }

  /** A signed decimal parses to its value when that fits in 64 bits, and fails otherwise. */
  lemma ParseIntDecimal(sign: string, digits: string)
    requires Decimal(sign, digits)
    ensures var v := SignedValue(sign, digits);
      ParseInt(sign + digits) == if MinInt64 <= v <= MaxInt64 then Some(v) else None
  {
    var s := sign + digits;
    if sign == "" {
      assert s == digits && '0' <= s[0] <= '9';
    } else {
      assert s[0] == sign[0] && s[1..] == digits;
    }
  }

  /** Only signed decimals parse, and a parsed text is worth its signed value. */
  lemma ParseIntOnlyDecimal(s: string)
    requires ParseInt(s).Some?
    ensures exists sign, digits :: s == sign + digits && Decimal(sign, digits)
                                   && ParseInt(s).value == SignedValue(sign, digits)
  {
    if s[0] == '+' || s[0] == '-' {
      assert s == s[..1] + s[1..];
      assert Decimal(s[..1], s[1..]) && ParseInt(s).value == SignedValue(s[..1], s[1..]);
    } else {
      assert s == "" + s;
      assert Decimal("", s) && ParseInt(s).value == SignedValue("", s);
    }
  }

  /** `strconv.FormatUint(n, 10)`. */
  function FormatNat(n: nat): (s: string)
    ensures s != [] && AllDigits(s)
  {
    var c := ('0' as int + n % 10) as char;
    if n < 10 then [c] else FormatNat(n / 10) + [c]
  }

  /** `strconv.FormatInt(n, 10)`. */
  function FormatInt(n: int): string {
    if n < 0 then "-" + FormatNat(-n) else FormatNat(n)
  }

  lemma {:induction false} DigitsOfFormatNat(n: nat)
    ensures DigitsValue(FormatNat(n)) == n
  {
    if n >= 10 {
      var s := FormatNat(n);
      DigitsOfFormatNat(n / 10);
      assert s[..|s| - 1] == FormatNat(n / 10);
    }
  }

  /** ParseInt reads back every 64-bit integer FormatInt writes. */
  lemma ParseFormatInt(n: int)
    requires MinInt64 <= n <= MaxInt64
    ensures ParseInt(FormatInt(n)) == Some(n)
  {
    var s := FormatInt(n);
    if n < 0 {
      var digits := FormatNat(-n);
      DigitsOfFormatNat(-n);
      assert s == "-" + digits && s[0] == '-' && s[1..] == digits;
      assert AllDigits(digits) && DigitsValue(digits) == -n;
    } else {
      DigitsOfFormatNat(n);
      assert s == FormatNat(n) && AllDigits(s) && '0' <= s[0] <= '9';
      assert DigitsValue(s) == n;
    }
  }
}
