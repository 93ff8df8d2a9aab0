/** The parts of Go's `strings`, `sort` and `strconv` packages (and their JavaScript counterparts) that the
    sources rely on, over strings as sequences of characters. */
module Text {
  import opened Wrappers
  import opened Ordering

  // ---------------------------------------------------------------- order

  /** The order of `sort.Strings`. */
  predicate Less(a: string, b: string) {
    b != "" && (a == "" || a[0] < b[0] || (a[0] == b[0] && Less(a[1..], b[1..])))
  }

  lemma {:induction false} LessTransitive(a: string, b: string, c: string)
    requires Less(a, b) && Less(b, c)
    ensures Less(a, c)
  {
    if a != "" && a[0] == b[0] && b[0] == c[0] {
      LessTransitive(a[1..], b[1..], c[1..]);
    }
  }

  lemma {:induction false} LessTrichotomy(a: string, b: string)
    ensures Less(a, b) ==> !Less(b, a) && a != b
    ensures a != b ==> Less(a, b) || Less(b, a)
  {
    if a != "" && b != "" && a[0] == b[0] {
      LessTrichotomy(a[1..], b[1..]);
      if a[1..] == b[1..] {
        assert a == [a[0]] + a[1..] && b == [b[0]] + b[1..];
      }
    }
  }

  lemma {:induction false} LessAfter(prefix: string, a: string, b: string)
    ensures Less(prefix + a, prefix + b) <==> Less(a, b)
  {
    if prefix == "" {
      assert prefix + a == a && prefix + b == b;
    } else {
      assert (prefix + a)[1..] == prefix[1..] + a && (prefix + b)[1..] == prefix[1..] + b;
      LessAfter(prefix[1..], a, b);
    }
  }

  lemma LessIsStrictOrder()
    ensures Transitive(Less) && Asymmetric(Less)
  {
    forall a, b, c | Less(a, b) && Less(b, c) ensures Less(a, c) { LessTransitive(a, b, c); }
    forall a, b ensures Less(a, b) ==> !Less(b, a) { LessTrichotomy(a, b); }
  }

  lemma StringsComparable(s: seq<string>)
    ensures Comparable(s, Less)
  {
    forall i, j | 0 <= i < |s| && 0 <= j < |s| && s[i] != s[j]
      ensures Less(s[i], s[j]) || Less(s[j], s[i])
    {
      LessTrichotomy(s[i], s[j]);
    }
  }

  /** Fixed-width fields compare field by field. */
  lemma {:induction false} LessFields(a: string, c: string, b: string, d: string)
    requires |a| == |c|
    ensures Less(a + b, c + d) <==> Less(a, c) || (a == c && Less(b, d))
  {
    if a == "" {
      assert a + b == b && c + d == d;
    } else {
      assert (a + b)[1..] == a[1..] + b && (c + d)[1..] == c[1..] + d;
      LessFields(a[1..], c[1..], b, d);
      if a[0] == c[0] && a[1..] == c[1..] {
        assert a == [a[0]] + a[1..] && c == [c[0]] + c[1..];
      }
    }
  }

  /** `sort.Strings` on distinct strings. */
  function SortStrings(s: seq<string>): (r: seq<string>)
    ensures |r| == |s| && forall y :: y in r <==> y in s
    ensures NoDuplicates(s) ==> Increasing(r, Less)
  {
    assert NoDuplicates(s) ==> Increasing(SortBy(s, Less), Less) by {
      LessIsStrictOrder();
      StringsComparable(s);
      if NoDuplicates(s) { SortByIncreasing(s, Less); }
    }
    SortBy(s, Less)
  }

  /** The elements of a set of strings, sorted. */
  ghost function SortedNames(names: set<string>): (r: seq<string>)
    ensures |r| == |names| && Increasing(r, Less) && forall y :: y in r <==> y in names
  {
    SortStrings(Listing(names))
  }

  lemma SortedNamesUnique(names: set<string>, r: seq<string>)
    requires Increasing(r, Less) && forall y :: y in r <==> y in names
    ensures r == SortedNames(names)
  {
    LessIsStrictOrder();
    IncreasingUnique(r, SortedNames(names), Less);
  }

  // ---------------------------------------------------------------- cutting and joining

  function HasPrefix(s: string, prefix: string): (r: bool)
    ensures r <==> prefix <= s
  {
    |prefix| <= |s| && s[..|prefix|] == prefix
  }

  /** `strings.Split` at a one-character separator. */
  function Split(s: string, sep: char): (parts: seq<string>)
    ensures parts != []
  {
    if s == "" then [""]
    else
      var rest := Split(s[1..], sep);
      if s[0] == sep then [""] + rest else [[s[0]] + rest[0]] + rest[1..]
  }

  lemma {:induction false} SplitParts(s: string, sep: char)
    ensures forall p :: p in Split(s, sep) ==> sep !in p && forall c :: c in p ==> c in s
  {
    if s != "" {
      SplitParts(s[1..], sep);
      var rest := Split(s[1..], sep);
      assert s == [s[0]] + s[1..] && rest == [rest[0]] + rest[1..];
      assert rest[0] in rest;
    }
  }

  /** `strings.Join` with a one-character separator. */
  function Join(parts: seq<string>, sep: char): string {
    if parts == [] then ""
    else if |parts| == 1 then parts[0]
    else parts[0] + [sep] + Join(parts[1..], sep)
  }

  lemma {:induction false} JoinSplit(s: string, sep: char)
    ensures Join(Split(s, sep), sep) == s
  {
    if s != "" {
      JoinSplit(s[1..], sep);
      var rest := Split(s[1..], sep);
      assert s == [s[0]] + s[1..];
      if s[0] == sep {
        assert ([""] + rest)[1..] == rest;
      } else {
        var head := [[s[0]] + rest[0]];
        assert (head + rest[1..])[1..] == rest[1..];
      }
    }
  }

  lemma {:induction false} SplitPlain(s: string, sep: char)
    requires sep !in s
    ensures Split(s, sep) == [s]
  {
    if s != "" {
      assert forall k :: 0 <= k < |s[1..]| ==> s[1..][k] == s[k + 1];
      SplitPlain(s[1..], sep);
      assert s == [s[0]] + s[1..];
    }
  }

  lemma {:induction false} SplitField(a: string, b: string, sep: char)
    requires sep !in a
    ensures Split(a + [sep] + b, sep) == [a] + Split(b, sep)
  {
    if a == "" {
      assert a + [sep] + b == [sep] + b && ([sep] + b)[1..] == b;
    } else {
      var s := a + [sep] + b;
      assert s[1..] == a[1..] + [sep] + b && s[0] == a[0];
      assert forall k :: 0 <= k < |a[1..]| ==> a[1..][k] == a[k + 1];
      SplitField(a[1..], b, sep);
      assert a == [a[0]] + a[1..];
      assert [[s[0]] + a[1..]] + ([a[1..]] + Split(b, sep))[1..] == [a] + Split(b, sep);
    }
  }

  lemma {:induction false} SplitJoin(parts: seq<string>, sep: char)
    requires parts != [] && forall p :: p in parts ==> sep !in p
    ensures Split(Join(parts, sep), sep) == parts
  {
    if |parts| == 1 {
      SplitPlain(parts[0], sep);
    } else {
      SplitJoin(parts[1..], sep);
      SplitField(parts[0], Join(parts[1..], sep), sep);
    }
  }

  lemma {:induction false} SplitAppend(a: string, b: string, sep: char)
    ensures Split(a + [sep] + b, sep) == Split(a, sep) + Split(b, sep)
  {
    var s := a + [sep] + b;
    if a == "" {
      assert s[1..] == b;
    } else {
      assert s[1..] == a[1..] + [sep] + b && s[0] == a[0];
      SplitAppend(a[1..], b, sep);
    }
  }

  /** `strings.Cut`: the text before and after the first separator. */
  function Cut(s: string, sep: char): (r: Option<(string, string)>)
    ensures r.None? <==> sep !in s
    ensures r.Some? ==> sep !in r.value.0 && s == r.value.0 + [sep] + r.value.1
  {
    if s == "" then None
    else if s[0] == sep then
      assert s == [s[0]] + s[1..];
      Some(("", s[1..]))
    else
      assert s == [s[0]] + s[1..];
      match Cut(s[1..], sep)
      case None => None
      case Some((a, b)) => Some(([s[0]] + a, b))
  }

  /** A string is taken apart at its first separator in one way only. */
  lemma {:induction false} FirstSeparator(a: string, b: string, c: string, d: string, sep: char)
    requires sep !in a && sep !in c && a + [sep] + b == c + [sep] + d
    ensures a == c && b == d
  {
    var s, t := a + [sep] + b, c + [sep] + d;
    assert s[0] == if a == "" then sep else a[0];
    assert t[0] == if c == "" then sep else c[0];
    assert a != "" ==> a[0] in a;
    assert c != "" ==> c[0] in c;
    if a != "" && c != "" {
      assert s[1..] == a[1..] + [sep] + b && t[1..] == c[1..] + [sep] + d;
      assert forall k :: 0 <= k < |a[1..]| ==> a[1..][k] == a[k + 1];
      assert forall k :: 0 <= k < |c[1..]| ==> c[1..][k] == c[k + 1];
      FirstSeparator(a[1..], b, c[1..], d, sep);
      assert a == [a[0]] + a[1..] && c == [c[0]] + c[1..];
    } else {
      assert b == s[1..] && d == t[1..];
    }
  }

  lemma CutField(a: string, b: string, sep: char)
    requires sep !in a
    ensures Cut(a + [sep] + b, sep) == Some((a, b))
  {
    var s := a + [sep] + b;
    assert s[|a|] == sep;
    var (x, y) := Cut(s, sep).value;
    FirstSeparator(a, b, x, y, sep);
  }

  // ---------------------------------------------------------------- decimal numbers


  predicate IsDigit(c: char) {
    '0' <= c <= '9'
  }

  function DigitOf(n: nat): (c: char)
    requires n < 10
    ensures IsDigit(c) && DigitValue(c) == n
  {
    ('0' as int + n) as char
  }

  function DigitValue(c: char): (n: nat)
    requires IsDigit(c)
    ensures n < 10
  {
    c as int - '0' as int
  }

  /** `%d` of a non-negative number. */
  function Decimal(n: nat): (s: string)
    ensures s != "" && forall c :: c in s ==> IsDigit(c)
  {
    if n < 10 then [DigitOf(n)] else Decimal(n / 10) + [DigitOf(n % 10)]
  }

  /** `strconv.ParseUint(s, 10, ..)` without its range limit. */
  function ParseDecimal(s: string): Option<nat> {
    if s == "" then None
    else if !IsDigit(s[|s| - 1]) then None
    else if |s| == 1 then Some(DigitValue(s[0]))
    else match ParseDecimal(s[..|s| - 1])
      case None => None
      case Some(n) => Some(10 * n + DigitValue(s[|s| - 1]))
  }

  lemma {:induction false} ParseOfDecimal(n: nat)
    ensures ParseDecimal(Decimal(n)) == Some(n)
  {
    if n >= 10 {
      ParseOfDecimal(n / 10);
      assert (Decimal(n / 10) + [DigitOf(n % 10)])[..|Decimal(n / 10)|] == Decimal(n / 10);
    }
  }

  // ---------------------------------------------------------------- Kubernetes names

  predicate LabelChar(c: char) {
    'a' <= c <= 'z' || '0' <= c <= '9' || c == '-'
  }

  /** A DNS-1123 label (section 2.1 of RFC 1123): the form of a Kubernetes namespace. */
  predicate IsDnsLabel(s: string) {
    0 < |s| <= 63 && (forall c :: c in s ==> LabelChar(c)) && s[0] != '-' && s[|s| - 1] != '-'
  }

  /** A DNS-1123 subdomain: labels (of any length) joined by dots, the form of most Kubernetes names. */
  predicate IsDnsSubdomain(s: string) {
    0 < |s| <= 253 &&
    forall p :: p in Split(s, '.') ==>
      p != "" && (forall c :: c in p ==> LabelChar(c)) && p[0] != '-' && p[|p| - 1] != '-'
  }

  lemma LabelIsSubdomain(s: string)
    requires IsDnsLabel(s)
    ensures IsDnsSubdomain(s)
  {
    SplitPlain(s, '.');
    OnlyPart(s, Split(s, '.'));
    hide Split;
  }

  lemma OnlyPart(s: string, parts: seq<string>)
    requires IsDnsLabel(s) && Split(s, '.') == parts && forall p :: p in parts ==> p == s
    ensures IsDnsSubdomain(s)
  {
    hide Split;
  }

  lemma SubdomainChars(s: string)
    requires IsDnsSubdomain(s)
    ensures forall c :: c in s ==> LabelChar(c) || c == '.'
  {
    JoinedChars(Split(s, '.'), '.');
    JoinSplit(s, '.');
  }

  lemma {:induction false} JoinedChars(parts: seq<string>, sep: char)
    requires parts != []
    ensures forall c :: c in Join(parts, sep) ==> c == sep || exists p :: p in parts && c in p
  {
    if |parts| > 1 {
      JoinedChars(parts[1..], sep);
      forall c | c in Join(parts, sep) ensures c == sep || exists p :: p in parts && c in p {
        if c in parts[0] {
        } else if c != sep {
          assert c in Join(parts[1..], sep);
        }
      }
    }
  }
}
