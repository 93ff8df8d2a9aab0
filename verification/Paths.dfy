/** The two path cleaners of the system: the controller's, built on Go's `path.Clean`
    (internal/controller/helpers.go), and the data plane's normaliser (internal/dataplane/snapshot.go).
    Both must agree on where a source's files go. */
module Paths {
  import opened Wrappers
  import opened Text

  /** The staging directory of the target volume. */
  const PARTIAL: string := ".partial"

  /** A path segment that names something: not empty, not `.` and not `..`. */
  predicate Plain(segment: string) {
    segment != "" && segment != "." && segment != ".."
  }

  /** A relative path in normal form: plain segments, `/` separators only. */
  predicate Normal(p: string) {
    '\\' !in p && forall segment :: segment in Split(p, '/') ==> Plain(segment)
  }

  /** The segments of a destination; the empty destination is the root of the volume. */
  function Segments(p: string): seq<string> {
    if p == "" then [] else Split(p, '/')
  }

  /** What both cleaners keep of a split path: everything but `` and `.`. */
  function Named(parts: seq<string>): (kept: seq<string>)
    ensures forall p :: p in kept <==> p in parts && p != "" && p != "."
  {
    if parts == [] then []
    else
      assert parts == [parts[0]] + parts[1..];
      if parts[0] == "" || parts[0] == "." then Named(parts[1..]) else [parts[0]] + Named(parts[1..])
  }

  lemma {:induction false} NamedAppend(a: seq<string>, b: seq<string>)
    ensures Named(a + b) == Named(a) + Named(b)
  {
    if a == [] {
      assert a + b == b;
    } else {
      assert (a + b)[1..] == a[1..] + b;
      NamedAppend(a[1..], b);
    }
  }

  lemma {:induction false} NamedPlain(parts: seq<string>)
    requires forall p :: p in parts ==> Plain(p)
    ensures Named(parts) == parts
  {
    if parts != [] {
      NamedPlain(parts[1..]);
      assert parts == [parts[0]] + parts[1..] && parts[0] in parts;
    }
  }

  lemma NormalBasics(p: string)
    requires Normal(p)
    ensures p != "" && p != "." && p != "/" && !HasPrefix(p, "/")
    ensures Segments(p) == Split(p, '/') && Join(Segments(p), '/') == p
  {
    JoinSplit(p, '/');
    SplitPlain(".", '/');
    assert "." in Split(".", '/') && "" in Split("", '/');
    assert Split(p, '/')[0] in Split(p, '/');
  }

  lemma JoinIsNormal(segments: seq<string>)
    requires segments != []
    requires forall s :: s in segments ==> Plain(s) && '/' !in s && '\\' !in s
    ensures Normal(Join(segments, '/')) && Segments(Join(segments, '/')) == segments
  {
    SplitJoin(segments, '/');
    JoinedChars(segments, '/');
    NormalBasics(Join(segments, '/'));
  }

  // ---------------------------------------------------------------- the data plane's normaliser

  function NormalizeRelative(value: string): Result<string> {
    if value == "" then Err(PathEmpty)
    else if HasPrefix(value, "/") then Err(PathAbsolute)
    else if '\\' in value then Err(PathBackslash)
    else if ".." in Split(value, '/') then Err(PathParent)
    else if Named(Split(value, '/')) == [] then Err(PathUnnamed)
    else Ok(Join(Named(Split(value, '/')), '/'))
  }

  method NormalizeRelativePath(value: string) returns (r: Result<string>)
    ensures r == NormalizeRelative(value)
  {
    if value == "" {
      return Err(PathEmpty);
    }
    if HasPrefix(value, "/") {
      return Err(PathAbsolute);
    }
    if '\\' in value {
      return Err(PathBackslash);
    }
    var parts := Split(value, '/');
    var cleaned: seq<string> := [];
    for i := 0 to |parts|
      invariant ".." !in parts[..i]
      invariant cleaned == Named(parts[..i])
    {
      assert parts[..i + 1] == parts[..i] + [parts[i]];
      NamedAppend(parts[..i], [parts[i]]);
      match parts[i]
      case "" =>
      case "." =>
      case ".." => return Err(PathParent);
      case part => cleaned := cleaned + [part];
    }
    assert parts[..|parts|] == parts;
    if cleaned == [] {
      return Err(PathUnnamed);
    }
    return Ok(Join(cleaned, '/'));
  }

  function NormalizeTargetSubpath(value: string): Result<string> {
    if value == "" || value == "." || value == "/" then Ok("") else NormalizeRelative(value)
  }

  /** Normalising yields a normal path whose segments are the named segments of the input. */
  lemma NormalizeYieldsNormal(value: string)
    requires NormalizeRelative(value).Ok?
    ensures Normal(NormalizeRelative(value).value)
    ensures Segments(NormalizeRelative(value).value) == Named(Split(value, '/'))
  {
    SplitParts(value, '/');
    JoinIsNormal(Named(Split(value, '/')));
  }

  lemma SubpathIsNormal(value: string)
    requires NormalizeTargetSubpath(value).Ok?
    ensures NormalizeTargetSubpath(value).value == "" || Normal(NormalizeTargetSubpath(value).value)
  {
    if NormalizeTargetSubpath(value).value != "" {
      NormalizeYieldsNormal(value);
    }
  }

  /** Normal paths are exactly the fixed points of the normaliser. */
  lemma NormalIffFixed(p: string)
    ensures Normal(p) <==> NormalizeRelative(p) == Ok(p)
  {
    if Normal(p) {
      NormalBasics(p);
      NamedPlain(Split(p, '/'));
      assert ".." !in Split(p, '/');
    }
    if NormalizeRelative(p) == Ok(p) {
      NormalizeYieldsNormal(p);
    }
  }

  lemma NormalizeIdempotent(value: string)
    requires NormalizeTargetSubpath(value).Ok?
    ensures NormalizeTargetSubpath(NormalizeTargetSubpath(value).value) == NormalizeTargetSubpath(value)
  {
    var p := NormalizeTargetSubpath(value).value;
    if p != "" {
      NormalizeYieldsNormal(value);
      NormalIffFixed(p);
      NormalBasics(p);
    }
  }

  // ---------------------------------------------------------------- Go's path package

  /** The stack `path.Clean` keeps while it walks the segments. */
  function CleanSegments(parts: seq<string>, rooted: bool, stack: seq<string>): seq<string> {
    if parts == [] then stack
    else if parts[0] == "" || parts[0] == "." then CleanSegments(parts[1..], rooted, stack)
    else if parts[0] != ".." then CleanSegments(parts[1..], rooted, stack + [parts[0]])
    else if stack != [] && stack[|stack| - 1] != ".." then CleanSegments(parts[1..], rooted, stack[..|stack| - 1])
    else if rooted then CleanSegments(parts[1..], rooted, stack)
    else CleanSegments(parts[1..], rooted, stack + [".."])
  }

  /** `path.Clean`. */
  function Clean(p: string): string {
    var rooted := HasPrefix(p, "/");
    var segments := CleanSegments(Split(p, '/'), rooted, []);
    if rooted then "/" + Join(segments, '/')
    else if segments == [] then "."
    else Join(segments, '/')
  }

  function NonEmpty(elems: seq<string>): (r: seq<string>)
    ensures forall e :: e in r <==> e in elems && e != ""
  {
    if elems == [] then []
    else
      assert elems == [elems[0]] + elems[1..];
      if elems[0] == "" then NonEmpty(elems[1..]) else [elems[0]] + NonEmpty(elems[1..])
  }

  /** `path.Join` (and `filepath.Join` on the platforms the images run on). */
  function JoinPath(elems: seq<string>): string {
    if NonEmpty(elems) == [] then "" else Clean(Join(NonEmpty(elems), '/'))
  }

  lemma {:induction false} CleanWithoutParents(parts: seq<string>, rooted: bool, stack: seq<string>)
    requires ".." !in parts
    ensures CleanSegments(parts, rooted, stack) == stack + Named(parts)
  {
    if parts != [] {
      assert parts == [parts[0]] + parts[1..];
      if parts[0] == "" || parts[0] == "." {
        CleanWithoutParents(parts[1..], rooted, stack);
      } else {
        CleanWithoutParents(parts[1..], rooted, stack + [parts[0]]);
      }
    }
  }

  /** The segments of a list of path elements, one after the other. */
  function AllSegments(elems: seq<string>): seq<string> {
    if elems == [] then [] else Segments(elems[0]) + AllSegments(elems[1..])
  }

  /** Joining normal paths (or empty ones) concatenates their segments. */
  lemma JoinNormal(elems: seq<string>)
    requires NonEmpty(elems) != [] && forall e :: e in elems ==> e == "" || Normal(e)
    ensures Normal(JoinPath(elems)) && Segments(JoinPath(elems)) == AllSegments(elems)
  {
    JoinedNormal(elems);
    CleanNormal(Join(NonEmpty(elems), '/'));
  }

  lemma {:induction false} JoinedNormal(elems: seq<string>)
    requires NonEmpty(elems) != [] && forall e :: e in elems ==> e == "" || Normal(e)
    ensures Normal(Join(NonEmpty(elems), '/')) && Segments(Join(NonEmpty(elems), '/')) == AllSegments(elems)
  {
    var rest := NonEmpty(elems[1..]);
    assert elems == [elems[0]] + elems[1..];
    if rest == [] {
      NoSegments(elems[1..]);
      AppendNormal(elems[0], "");
    } else {
      JoinedNormal(elems[1..]);
      if elems[0] != "" {
        AppendNormal(elems[0], Join(rest, '/'));
        NormalBasics(Join(rest, '/'));
      } else {
        assert AllSegments(elems) == AllSegments(elems[1..]);
      }
    }
  }

  lemma {:induction false} NoSegments(elems: seq<string>)
    requires NonEmpty(elems) == []
    ensures AllSegments(elems) == []
  {
    if elems != [] {
      NoSegments(elems[1..]);
    }
  }

  lemma JoinTwo(a: string, b: string)
    requires Normal(a) && (b == "" || Normal(b))
    ensures Normal(JoinPath([a, b])) && Segments(JoinPath([a, b])) == Segments(a) + Segments(b)
  {
    NormalBasics(a);
    assert NonEmpty([a, b])[0] == a;
    JoinNormal([a, b]);
    assert [a, b][1..] == [b] && AllSegments([b]) == Segments(b) + [];
  }

  lemma JoinThree(a: string, b: string, c: string)
    requires Normal(a) && Normal(b) && (c == "" || Normal(c))
    ensures Normal(JoinPath([a, b, c])) && Segments(JoinPath([a, b, c])) == Segments(a) + Segments(b) + Segments(c)
  {
    NormalBasics(a);
    assert NonEmpty([a, b, c])[0] == a;
    JoinNormal([a, b, c]);
    assert [a, b, c][1..] == [b, c] && [b, c][1..] == [c] && AllSegments([c]) == Segments(c) + [];
    assert AllSegments([b, c]) == Segments(b) + Segments(c);
  }

  lemma AppendNormal(a: string, b: string)
    requires Normal(a) && (b == "" || Normal(b))
    ensures var joined := if b == "" then a else a + "/" + b;
      Normal(joined) && Segments(joined) == Segments(a) + Segments(b)
  {
    NormalBasics(a);
    if b == "" {
      assert Segments(a) + Segments(b) == Segments(a);
    } else {
      NormalBasics(b);
      SplitParts(a, '/');
      SplitParts(b, '/');
      JoinAppend(Segments(a), Segments(b));
      JoinIsNormal(Segments(a) + Segments(b));
    }
  }

  lemma CleanNormal(p: string)
    requires Normal(p)
    ensures Clean(p) == p
  {
    NormalBasics(p);
    CleanWithoutParents(Split(p, '/'), false, []);
    NamedPlain(Split(p, '/'));
    assert [] + Split(p, '/') == Split(p, '/');
  }

  lemma {:induction false} JoinAppend(a: seq<string>, b: seq<string>)
    requires a != [] && b != []
    ensures Join(a + b, '/') == Join(a, '/') + "/" + Join(b, '/')
  {
    if |a| == 1 {
      assert (a + b)[1..] == b;
    } else {
      assert (a + b)[1..] == a[1..] + b;
      JoinAppend(a[1..], b);
    }
  }

  // ---------------------------------------------------------------- the controller's cleaner

  function CleanRelative(value: string): Result<string> {
    if value == "" || value == "/" then Ok("")
    else if HasPrefix(value, "/") then Err(PathAbsolute)
    else if '\\' in value then Err(PathBackslash)
    else if ".." in Split(value, '/') then Err(PathParent)
    else if Clean(value) == "." then Ok("")
    else Ok(Clean(value))
  }

  /** The controller's cleaner and the data plane's normaliser compute the same path, and they reject the
      same inputs except those that name the root in another way than ``, `.` and `/` do (such as `./`). */
  lemma CleanersAgree(value: string)
    ensures CleanRelative(value).Ok? ==> CleanRelative(value).value == "" || Normal(CleanRelative(value).value)
    ensures (CleanRelative(value).Ok? && CleanRelative(value).value != "") ==>
              CleanRelative(value) == NormalizeRelative(value)
    ensures NormalizeTargetSubpath(value).Ok? ==> NormalizeTargetSubpath(value) == CleanRelative(value)
    ensures CleanRelative(value).Ok? ==> (NormalizeTargetSubpath(value).Ok? <==>
              value in ["", ".", "/"] || CleanRelative(value).value != "")
  {
    SplitPlain(".", '/');
    assert [] == Named(["."][1..]) == Named(["."]);
    if value != "" && !HasPrefix(value, "/") && '\\' !in value && ".." !in Split(value, '/') {
      var parts := Split(value, '/');
      CleanWithoutParents(parts, false, []);
      assert [] + Named(parts) == Named(parts);
      if Named(parts) != [] {
        NormalizeYieldsNormal(value);
        NormalBasics(Join(Named(parts), '/'));
      }
    }
  }

  /** A cleaned path cleans to itself. */
  lemma CleanIdempotent(value: string)
    requires CleanRelative(value).Ok?
    ensures CleanRelative(CleanRelative(value).value) == CleanRelative(value)
  {
    var p := CleanRelative(value).value;
    CleanersAgree(value);
    if p != "" {
      NormalIffFixed(p);
      NormalBasics(p);
      CleanersAgree(p);
    }
  }
}
