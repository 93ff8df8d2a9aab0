/** The labels that the controller makes of names (internal/controller/builders.go): lower case, dashes for everything
    that is neither letter nor digit, and a digest in place of what is too long. */
module Labels {
  import opened Text

  predicate Alphanumeric(c: char) {
    'a' <= c <= 'z' || '0' <= c <= '9'
  }

  function Lower(c: char): char {
    if 'A' <= c <= 'Z' then c - 'A' + 'a' else c
  }

  predicate EndsInDash(s: string) {
    s != "" && s[|s| - 1] == '-'
  }

  /** Every stretch of other characters becomes one dash. */
  function Dashed(value: string): string {
    if value == "" then ""
    else
      var before, c := Dashed(value[..|value| - 1]), Lower(value[|value| - 1]);
      if Alphanumeric(c) then before + [c] else if EndsInDash(before) then before else before + "-"
  }

  function TrimRight(s: string): string {
    if EndsInDash(s) then TrimRight(s[..|s| - 1]) else s
  }

  function TrimLeft(s: string): string {
    if s != "" && s[0] == '-' then TrimLeft(s[1..]) else s
  }

  /** The label of a value, whatever its length. */
  function Plain(value: string): string {
    var trimmed := TrimRight(TrimLeft(Dashed(value)));
    if trimmed == "" then "krm" else trimmed
  }

  /** The first ten hexadecimal digits of a digest. */
  ghost predicate Digests(hash: string -> string) {
    forall s :: |hash(s)| == 10 && forall c :: c in hash(s) ==> '0' <= c <= '9' || 'a' <= c <= 'f'
  }

  ghost function Shortened(hash: string -> string, out: string, max: nat): string
    requires Digests(hash) && max < |out|
  {
    if max <= 10 then hash(out)[..max]
    else if TrimRight(out[..max - 11]) == "" then hash(out)
    else TrimRight(out[..max - 11]) + "-" + hash(out)
  }

  ghost function Label(hash: string -> string, value: string, max: nat): string
    requires Digests(hash)
  {
    if |Plain(value)| <= max then Plain(value) else Shortened(hash, Plain(value), max)
  }

  /** `dnsLabelMax`; `hash` stands for the hexadecimal digits of SHA-256. */
  method DnsLabelMax(hash: string -> string, value: string, max: nat) returns (made: string)
    requires Digests(hash)
    ensures made == Label(hash, value, max)
  {
    var out, lastDash := "", false;
    for i := 0 to |value|
      invariant out == Dashed(value[..i]) && lastDash == EndsInDash(out)
    {
      assert value[..i + 1][..i] == value[..i];
      var c := Lower(value[i]);
      if Alphanumeric(c) {
        out, lastDash := out + [c], false;
      } else if !lastDash {
        out, lastDash := out + "-", true;
      }
    }
    assert value[..|value|] == value;
    out := TrimRight(TrimLeft(out));
    if out == "" {
      out := "krm";
    }
    if |out| <= max {
      return out;
    }
    var suffix := hash(out);
    if max <= |suffix| {
      return suffix[..max];
    }
    var prefix := TrimRight(out[..max - |suffix| - 1]);
    return if prefix == "" then suffix else prefix + "-" + suffix;
  }

  // ---------------------------------------------------------------- the form of labels

  /** Letters and digits, with single dashes. */
  predicate Spaced(s: string) {
    (forall c :: c in s ==> Alphanumeric(c) || c == '-') && forall i :: 0 <= i < |s| - 1 ==>
      s[i] != '-' || s[i + 1] != '-'
  }

  /** And with a letter or digit at both ends. */
  predicate Neat(s: string) {
    s != "" && Spaced(s) && s[0] != '-' && s[|s| - 1] != '-'
  }

  lemma {:induction false} DashedIsSpaced(value: string)
    ensures Spaced(Dashed(value))
  {
    if value != "" {
      DashedIsSpaced(value[..|value| - 1]);
    }
  }

  lemma {:induction false} DashedOfSpaced(s: string)
    requires Spaced(s)
    ensures Dashed(s) == s
  {
    if s != "" {
      var n := |s| - 1;
      assert s == s[..n] + [s[n]] && s[n] in s;
      assert forall c :: c in s[..n] ==> c in s;
      DashedOfSpaced(s[..n]);
    }
  }

  lemma {:induction false} TrimRightIsPrefix(s: string)
    ensures TrimRight(s) <= s && !EndsInDash(TrimRight(s))
  {
    if EndsInDash(s) {
      TrimRightIsPrefix(s[..|s| - 1]);
    }
  }

  lemma {:induction false} TrimLeftIsSuffix(s: string)
    ensures var t := TrimLeft(s);
      |t| <= |s| && t == s[|s| - |t|..] && (t != "" ==> t[0] != '-')
  {
    if s != "" && s[0] == '-' {
      TrimLeftIsSuffix(s[1..]);
    }
  }

  lemma PartIsSpaced(s: string, i: nat, j: nat)
    requires Spaced(s) && i <= j <= |s|
    ensures Spaced(s[i..j])
  {
    var t := s[i..j];
    assert forall c :: c in t ==> c in s;
    forall k | 0 <= k < |t| - 1 ensures t[k] != '-' || t[k + 1] != '-' {
      assert t[k] == s[i + k] && t[k + 1] == s[i + k + 1];
    }
  }

  lemma PlainIsNeat(value: string)
    ensures Neat(Plain(value))
  {
    var s := Dashed(value);
    DashedIsSpaced(value);
    TrimLeftIsSuffix(s);
    TrimRightIsPrefix(TrimLeft(s));
    var left := TrimLeft(s);
    PartIsSpaced(s, |s| - |left|, |s|);
    PartIsSpaced(left, 0, |TrimRight(left)|);
    assert left[0..|TrimRight(left)|] == TrimRight(left);
    assert "krm"[0] == 'k' && "krm"[1] == 'r' && "krm"[2] == 'm';
  }

  lemma NeatIsPlain(s: string)
    requires Neat(s)
    ensures Plain(s) == s
  {
    DashedOfSpaced(s);
  }

  /** Labels are neat and fit. */
  lemma LabelIsNeat(hash: string -> string, value: string, max: nat)
    requires Digests(hash) && max > 0
    ensures Neat(Label(hash, value, max)) && |Label(hash, value, max)| <= max
    ensures max <= 63 ==> IsDnsLabel(Label(hash, value, max))
  {
    var out := Plain(value);
    PlainIsNeat(value);
    if |out| > max {
      ShortenedIsNeat(hash, out, max);
    }
    var made := Label(hash, value, max);
    assert forall c :: c in made ==> Alphanumeric(c) || c == '-';
  }

  lemma ShortenedIsNeat(hash: string -> string, out: string, max: nat)
    requires Digests(hash) && Neat(out) && 0 < max < |out|
    ensures Neat(Shortened(hash, out, max)) && |Shortened(hash, out, max)| <= max
  {
    var suffix := hash(out);
    DigestIsNeat(suffix);
    if max <= 10 {
      PartIsSpaced(suffix, 0, max);
      assert suffix[..max] == suffix[0..max] && suffix[max - 1] in suffix;
    } else {
      var cut := out[..max - 11];
      var prefix := TrimRight(cut);
      TrimRightIsPrefix(cut);
      PartIsSpaced(out, 0, max - 11);
      PartIsSpaced(cut, 0, |prefix|);
      assert prefix == cut[0..|prefix|] && cut == out[0..max - 11];
      if prefix != "" { JoinedIsNeat(prefix, suffix); }
    }
  }

  lemma DigestIsNeat(s: string)
    requires |s| == 10 && forall c :: c in s ==> '0' <= c <= '9' || 'a' <= c <= 'f'
    ensures Neat(s) && '-' !in s
  {
    assert s[0] in s && s[9] in s;
    forall i | 0 <= i < |s| - 1 ensures s[i] != '-' {
      assert s[i] in s;
    }
  }

  lemma JoinedIsNeat(a: string, b: string)
    requires Neat(a) && Neat(b)
    ensures Neat(a + "-" + b)
  {
    var s := a + "-" + b;
    forall i | 0 <= i < |s| - 1 ensures s[i] != '-' || s[i + 1] != '-' {
      if i + 1 < |a| {
        assert s[i] == a[i] && s[i + 1] == a[i + 1];
      } else if i > |a| {
        assert s[i] == b[i - |a| - 1] && s[i + 1] == b[i - |a|];
      }
    }
  }

  /** The values that are their own label are exactly the neat ones that fit. */
  lemma LabelIffFixed(hash: string -> string, value: string, max: nat)
    requires Digests(hash) && max > 0
    ensures Label(hash, value, max) == value <==> Neat(value) && |value| <= max
  {
    LabelIsNeat(hash, value, max);
    if Neat(value) && |value| <= max { NeatIsPlain(value); }
  }

  // ---------------------------------------------------------------- labels that coincide

  /** Values that fit have the same label iff their plain forms are the same; values that do not, iff the digests of
      these are, and what is left of their beginnings. */
  lemma LabelsCoincide(hash: string -> string, v: string, w: string, max: nat)
    requires Digests(hash) && max > 10
    ensures |Plain(v)| <= max && |Plain(w)| <= max ==>
      (Label(hash, v, max) == Label(hash, w, max) <==> Plain(v) == Plain(w))
    ensures |Plain(v)| > max && |Plain(w)| > max ==>
      (Label(hash, v, max) == Label(hash, w, max)
       <==> hash(Plain(v)) == hash(Plain(w))
            && TrimRight(Plain(v)[..max - 11]) == TrimRight(Plain(w)[..max - 11]))
  {
    if |Plain(v)| > max && |Plain(w)| > max {
      DigestsEnd(TrimRight(Plain(v)[..max - 11]), hash(Plain(v)), TrimRight(Plain(w)[..max - 11]), hash(Plain(w)));
    }
  }

  function Suffixed(prefix: string, suffix: string): string {
    if prefix == "" then suffix else prefix + "-" + suffix
  }

  lemma DigestsEnd(p: string, s: string, q: string, t: string)
    requires |s| == |t| == 10
    ensures Suffixed(p, s) == Suffixed(q, t) <==> p == q && s == t
  {
    var a, b := Suffixed(p, s), Suffixed(q, t);
    assert a[|a| - 10..] == s && b[|b| - 10..] == t;
    if a == b {
      assert |p| == |q|;
      assert a[..|p|] == p && b[..|q|] == q;
    }
  }

  /** Neither a letter of any case nor a digit. */
  predicate Separates(c: char) {
    !('a' <= c <= 'z') && !('A' <= c <= 'Z') && !('0' <= c <= '9')
  }

  /** Upper and lower case are not told apart, nor are the characters that separate. */
  predicate Alike(c: char, d: char) {
    c == d || (Separates(c) && Separates(d)) || ('A' <= c <= 'Z' && d as int == c as int + 32)
    || ('A' <= d <= 'Z' && c as int == d as int + 32)
  }

  lemma {:induction false} AlikeValues(v: string, w: string)
    requires |v| == |w| && forall i :: 0 <= i < |v| ==> Alike(v[i], w[i])
    ensures Dashed(v) == Dashed(w) && Plain(v) == Plain(w)
  {
    if v != "" {
      AlikeValues(v[..|v| - 1], w[..|w| - 1]);
    }
  }

  /** One separating character does for any number of them, */
  lemma {:induction false} SeparatorsCollapse(a: string, c: char, d: char, b: string)
    requires Separates(c) && Separates(d)
    ensures Dashed(a + [c, d] + b) == Dashed(a + [c] + b) && Plain(a + [c, d] + b) == Plain(a + [c] + b)
  {
    if b == "" {
      assert a + [c, d] + b == a + [c, d] && a + [c] + b == a + [c];
      assert (a + [c, d])[..|a| + 1] == a + [c] && (a + [c])[..|a|] == a;
    } else {
      var n := |b| - 1;
      var v, w := a + [c, d] + b, a + [c] + b;
      assert v[..|v| - 1] == a + [c, d] + b[..n] && w[..|w| - 1] == a + [c] + b[..n];
      SeparatorsCollapse(a, c, d, b[..n]);
    }
  }

  /** and at the ends they do not count; nothing but separators is `krm`. With `LabelIffFixed` this determines every
      plain form. */
  lemma SeparatorsAtEnds(c: char, v: string)
    requires Separates(c)
    ensures Plain([c] + v) == Plain(v) && Plain(v + [c]) == Plain(v) && Plain("") == "krm"
  {
    DashedFront(c, v);
    assert (v + [c])[..|v|] == v;
    if EndsInDash(Dashed(v)) {
      assert Dashed(v + [c]) == Dashed(v);
    } else {
      TrimSpared(Dashed(v));
    }
    assert ("-" + Dashed(v))[1..] == Dashed(v);
  }

  /** A separator in front shows as one dash, unless there is one. */
  lemma {:induction false} DashedFront(c: char, v: string)
    requires Separates(c)
    ensures Dashed([c] + v) == if Dashed(v) != "" && Dashed(v)[0] == '-' then Dashed(v) else "-" + Dashed(v)
  {
    var w := [c] + v;
    if v == "" {
      assert w[..0] == "" && Dashed(w) == "" + "-";
    } else {
      var n := |v| - 1;
      assert w[..|w| - 1] == [c] + v[..n] && w[|w| - 1] == v[n];
      DashedFront(c, v[..n]);
      var before := Dashed(v[..n]);
      if Alphanumeric(Lower(v[n])) && !(before != "" && before[0] == '-') {
        assert ("-" + before) + [Lower(v[n])] == "-" + (before + [Lower(v[n])]);
      } else if !Alphanumeric(Lower(v[n])) && before != "" && !EndsInDash(before) && before[0] != '-' {
        assert ("-" + before) + "-" == "-" + (before + "-");
      }
    }
  }

  lemma TrimSpared(s: string)
    ensures TrimRight(TrimLeft(s + "-")) == TrimRight(TrimLeft(s))
  {
    TrimLeftSpared(s);
    var left := TrimLeft(s);
    if left != "" { assert (left + "-")[..|left|] == left; }
  }

  lemma {:induction false} TrimLeftSpared(s: string)
    ensures TrimLeft(s + "-") == if TrimLeft(s) == "" then "" else TrimLeft(s) + "-"
  {
    if s == "" {
      assert "" + "-" == "-" && "-"[1..] == "" && TrimLeft("") == "";
    } else {
      assert (s + "-")[1..] == s[1..] + "-";
      if s[0] == '-' { TrimLeftSpared(s[1..]); }
    }
  }
}
