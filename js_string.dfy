/**
 * The JavaScript built-ins the demo handler leans on, as functions on
 * Dafny strings: `String.prototype.trim`, `Array.prototype.filter(Boolean)`
 * over an array of strings and nulls, `Array.prototype.join` and, as the
 * inverse of `join`, `String.prototype.split` on a one-character separator.
 */
module JsString {
  import opened Wrappers

  /**
   * The characters `trim` removes: ECMAScript's WhiteSpace (tab, vertical
   * tab, form feed, space, no-break space, byte order mark and the other
   * space separators of category Zs) and its LineTerminator set.
   */
  predicate IsWhitespace(c: char) {
    || c == '\t' || c == '\U{000B}' || c == '\U{000C}' || c == ' '
    || c == '\U{00A0}' || c == '\U{FEFF}' || c == '\U{1680}'
    || ('\U{2000}' <= c <= '\U{200A}')
    || c == '\U{202F}' || c == '\U{205F}' || c == '\U{3000}'
    || c == '\n' || c == '\r' || c == '\U{2028}' || c == '\U{2029}'
  }

  predicate AllWhitespace(s: string) {
    forall i :: 0 <= i < |s| ==> IsWhitespace(s[i])
  }

  /** Neither end of `s` is whitespace (an empty string qualifies). */
  predicate Trimmed(s: string) {
    s == [] || (!IsWhitespace(s[0]) && !IsWhitespace(s[|s| - 1]))
  }

  /** Drops the longest all-whitespace prefix. */
  function TrimStart(s: string): (r: string)
    ensures |r| <= |s| && r == s[|s| - |r|..]
    ensures AllWhitespace(s[..|s| - |r|])
    ensures r == [] || !IsWhitespace(r[0])
    decreases |s|
  {
    if |s| > 0 && IsWhitespace(s[0]) then TrimStart(s[1..]) else s
  }

  /** Drops the longest all-whitespace suffix. */
  function TrimEnd(s: string): (r: string)
    ensures |r| <= |s| && r == s[..|r|]
    ensures AllWhitespace(s[|r|..])
    ensures r == [] || !IsWhitespace(r[|r| - 1])
    decreases |s|
  {
    if |s| > 0 && IsWhitespace(s[|s| - 1]) then TrimEnd(s[..|s| - 1]) else s
  }

  /** `s.trim()`. */
  function Trim(s: string): (r: string)
    ensures |r| <= |s|
    ensures Trimmed(r)
    ensures r == [] <==> AllWhitespace(s)
  {
    var t := TrimStart(s);
    var r := TrimEnd(t);
    assert r == [] ==> s == s[..|s| - |t|] + t;
    r
  }

  lemma ThreeParts(s: string, k: nat, r: string)
    requires k <= |s| && |r| <= |s| - k && r == s[k..][..|r|]
    ensures s == s[..k] + r + s[k..][|r|..]
  {
    assert s == s[..k] + s[k..];
    assert s[k..] == r + s[k..][|r|..];
  }

  /** `trim` only cuts whitespace off the ends: `s` is `lead + Trim(s) + trail`. */
  lemma TrimSplits(s: string) returns (lead: string, trail: string)
    ensures s == lead + Trim(s) + trail
    ensures AllWhitespace(lead) && AllWhitespace(trail)
  {
    var t := TrimStart(s);
    var r := TrimEnd(t);
    var k := |s| - |t|;
    ThreeParts(s, k, r);
    lead := s[..k];
    trail := t[|r|..];
  }

  /** A whitespace prefix ending just before a non-whitespace character is unique. */
  lemma CutAfterWhitespace(s: string, a: string, x: string, b: string, y: string)
    requires s == a + x && s == b + y
    requires AllWhitespace(a) && AllWhitespace(b)
    requires x != [] && !IsWhitespace(x[0]) && y != [] && !IsWhitespace(y[0])
    ensures a == b && x == y
  {
    assert a == s[..|a|] && b == s[..|b|];
  }

  /** A whitespace suffix starting just after a non-whitespace character is unique. */
  lemma CutBeforeWhitespace(s: string, x: string, a: string, y: string, b: string)
    requires s == x + a && s == y + b
    requires AllWhitespace(a) && AllWhitespace(b)
    requires x != [] && !IsWhitespace(x[|x| - 1]) && y != [] && !IsWhitespace(y[|y| - 1])
    ensures a == b && x == y
  {
    assert x == s[..|x|] && y == s[..|y|];
  }

  /** Around a trimmed middle part, `s` is blank exactly when the middle is empty. */
  lemma BlankIffEmptyMiddle(s: string, lead: string, mid: string, trail: string)
    requires s == lead + mid + trail
    requires AllWhitespace(lead) && AllWhitespace(trail) && Trimmed(mid)
    ensures AllWhitespace(s) <==> mid == []
  {
    if mid == [] {
      forall i | 0 <= i < |s| ensures IsWhitespace(s[i]) {
        if i < |lead| { assert s[i] == lead[i]; } else { assert s[i] == trail[i - |lead|]; }
      }
    } else {
      assert s[|lead|] == mid[0];
    }
  }

  /**
   * Two ways of writing `s` as whitespace, a string with no whitespace at
   * either end, and whitespace, agree on the middle part.
   */
  lemma SameMiddle(s: string, lead: string, mid: string, trail: string, l2: string, m2: string, t2: string)
    requires s == lead + mid + trail && s == l2 + m2 + t2
    requires AllWhitespace(lead) && AllWhitespace(trail) && Trimmed(mid)
    requires AllWhitespace(l2) && AllWhitespace(t2) && Trimmed(m2)
    ensures mid == m2
  {
    BlankIffEmptyMiddle(s, lead, mid, trail);
    BlankIffEmptyMiddle(s, l2, m2, t2);
    if mid != [] {
      var x, y := mid + trail, m2 + t2;
      assert s == lead + x && s == l2 + y;
      assert !IsWhitespace(x[0]) && !IsWhitespace(y[0]);
      CutAfterWhitespace(s, lead, x, l2, y);
      CutBeforeWhitespace(x, mid, trail, m2, t2);
    }
  }

  /**
   * `Trim(s)` is the only way to write `s` as whitespace, then a string
   * with no whitespace at either end, then whitespace.
   */
  lemma TrimUnique(s: string, lead: string, mid: string, trail: string)
    requires s == lead + mid + trail
    requires AllWhitespace(lead) && AllWhitespace(trail) && Trimmed(mid)
    ensures mid == Trim(s)
  {
    var l2, t2 := TrimSplits(s);
    SameMiddle(s, lead, mid, trail, l2, Trim(s), t2);
  }

  /** Trimming twice is trimming once. */
  lemma TrimIdempotent(s: string)
    ensures Trim(Trim(s)) == Trim(s)
  {
    var r := Trim(s);
    assert r == [] + r + [];
    TrimUnique(r, [], r, []);
  }

  /** JavaScript truthiness of a string-or-null array element. */
  predicate Truthy(v: Option<string>) {
    v.Some? && v.value != ""
  }

  /** `xs.filter(Boolean)`: keeps the non-null, non-empty strings, in order. */
  function FilterTruthy(xs: seq<Option<string>>): (r: seq<string>)
    ensures |r| <= |xs|
    ensures forall i :: 0 <= i < |r| ==> r[i] != ""
  {
    if xs == [] then []
    else (if Truthy(xs[0]) then [xs[0].value] else []) + FilterTruthy(xs[1..])
  }

  /** The strings `filter(Boolean)` keeps are the non-empty strings of the array. */
  lemma {:induction false} FilterTruthyMembers(xs: seq<Option<string>>, s: string)
    ensures s in FilterTruthy(xs) <==> s != "" && Some(s) in xs
  {
    if xs != [] {
      FilterTruthyMembers(xs[1..], s);
      assert xs == [xs[0]] + xs[1..];
    }
  }

  /** Filtering an array piecewise gives the same array of strings. */
  lemma {:induction false} FilterTruthyAppend(xs: seq<Option<string>>, ys: seq<Option<string>>)
    ensures FilterTruthy(xs + ys) == FilterTruthy(xs) + FilterTruthy(ys)
  {
    if xs == [] {
      assert xs + ys == ys;
    } else {
      assert (xs + ys)[1..] == xs[1..] + ys;
      FilterTruthyAppend(xs[1..], ys);
    }
  }

  /** `parts.join(sep)`. */
  function Join(parts: seq<string>, sep: string): string {
    if |parts| == 0 then ""
    else if |parts| == 1 then parts[0]
    else parts[0] + sep + Join(parts[1..], sep)
  }

  /** `s.split(sep)` for a one-character separator: never an empty array. */
  function Split(s: string, sep: char): (r: seq<string>)
    ensures |r| >= 1
    ensures forall i :: 0 <= i < |r| ==> sep !in r[i]
    decreases |s|
  {
    if s == [] then [""]
    else
      var rest := Split(s[1..], sep);
      if s[0] == sep then [""] + rest else [[s[0]] + rest[0]] + rest[1..]
  }

  /** The first part of a join is a prefix, the last a suffix. */
  lemma {:induction false} JoinEnds(parts: seq<string>, sep: string)
    requires |parts| >= 1
    ensures Join(parts, sep)[..|parts[0]|] == parts[0]
    ensures |Join(parts, sep)| >= |parts[|parts| - 1]|
    ensures var j := Join(parts, sep); j[|j| - |parts[|parts| - 1]|..] == parts[|parts| - 1]
  {
    if |parts| > 1 {
      JoinEnds(parts[1..], sep);
    }
  }

  /** Splitting on the separator undoes joining with it. */
  lemma {:induction false} JoinSplit(s: string, sep: char)
    ensures Join(Split(s, sep), [sep]) == s
    decreases |s|
  {
    if s != [] {
      var rest := Split(s[1..], sep);
      JoinSplit(s[1..], sep);
      if s[0] == sep {
        assert ([""] + rest)[1..] == rest;
      } else if |rest| > 1 {
        var r := [[s[0]] + rest[0]] + rest[1..];
        assert r[1..] == rest[1..];
        assert s == [s[0]] + s[1..];
      }
    }
  }

  lemma {:induction false} SplitNoSeparator(p: string, sep: char)
    requires sep !in p
    ensures Split(p, sep) == [p]
    decreases |p|
  {
    if p != [] {
      SplitNoSeparator(p[1..], sep);
      assert p == [p[0]] + p[1..];
    }
  }

  lemma {:induction false} SplitAfterPart(p: string, sep: char, t: string)
    requires sep !in p
    ensures Split(p + [sep] + t, sep) == [p] + Split(t, sep)
    decreases |p|
  {
    var s := p + [sep] + t;
    if p == [] {
      assert s[1..] == t;
    } else {
      assert s[1..] == p[1..] + [sep] + t;
      SplitAfterPart(p[1..], sep, t);
      assert p == [p[0]] + p[1..];
    }
  }

  /** Joining separator-free parts and splitting again gives the parts back. */
  lemma {:induction false} SplitJoin(parts: seq<string>, sep: char)
    requires |parts| >= 1
    requires forall i :: 0 <= i < |parts| ==> sep !in parts[i]
    ensures Split(Join(parts, [sep]), sep) == parts
  {
    if |parts| == 1 {
      SplitNoSeparator(parts[0], sep);
    } else {
      SplitJoin(parts[1..], sep);
      SplitAfterPart(parts[0], sep, Join(parts[1..], [sep]));
    }
  }

  /** `s` never holds `sep` twice in a row. */
  predicate NoBlankRun(s: string, sep: char) {
    forall i :: 0 <= i < |s| - 1 ==> !(s[i] == sep && s[i + 1] == sep)
  }

  /** `s` is non-empty, neither starts nor ends with `sep`, and never holds it twice in a row. */
  predicate Spaced(s: string, sep: char) {
    s != [] && s[0] != sep && s[|s| - 1] != sep && NoBlankRun(s, sep)
  }

  predicate AllSpaced(lines: seq<string>, sep: char) {
    forall i :: 0 <= i < |lines| ==> Spaced(lines[i], sep)
  }

  lemma AllSpacedAppend(a: seq<string>, b: seq<string>, sep: char)
    requires AllSpaced(a, sep) && AllSpaced(b, sep)
    ensures AllSpaced(a + b, sep)
  {
    forall i | 0 <= i < |a + b| ensures Spaced((a + b)[i], sep) {
      if i < |a| { assert (a + b)[i] == a[i]; } else { assert (a + b)[i] == b[i - |a|]; }
    }
  }

  lemma SpacedConcat(a: string, b: string, sep: char)
    requires Spaced(a, sep) && Spaced(b, sep)
    ensures Spaced(a + [sep] + b, sep)
  {
    var s := a + [sep] + b;
    forall i | 0 <= i < |s| - 1
      ensures !(s[i] == sep && s[i + 1] == sep)
    {
      if i < |a| - 1 {
        assert s[i] == a[i] && s[i + 1] == a[i + 1];
      } else if i == |a| - 1 {
        assert s[i] == a[|a| - 1];
      } else if i == |a| {
        assert s[i + 1] == b[0];
      } else {
        assert s[i] == b[i - |a| - 1] && s[i + 1] == b[i - |a|];
      }
    }
    assert s[0] == a[0] && s[|s| - 1] == b[|b| - 1];
  }

  /** Joining spaced parts with `sep` gives a spaced string. */
  lemma {:induction false} JoinSpaced(parts: seq<string>, sep: char)
    requires |parts| >= 1 && AllSpaced(parts, sep)
    ensures Spaced(Join(parts, [sep]), sep)
  {
    if |parts| > 1 {
      JoinSpaced(parts[1..], sep);
      SpacedConcat(parts[0], Join(parts[1..], [sep]), sep);
    }
  }

  /** Without a run of separators or a trailing one, every part after the first is non-empty. */
  lemma {:induction false} SplitLaterPartsNonEmpty(s: string, sep: char)
    requires NoBlankRun(s, sep) && (s == [] || s[|s| - 1] != sep)
    ensures forall i :: 1 <= i < |Split(s, sep)| ==> Split(s, sep)[i] != ""
    decreases |s|
  {
    if s != [] {
      var rest := Split(s[1..], sep);
      SplitLaterPartsNonEmpty(s[1..], sep);
      if s[0] == sep {
        assert rest[0] != "" by {
          assert |s| >= 2 && s[1] != sep;
          assert s[1..][0] == s[1];
        }
        assert Split(s, sep) == [""] + rest;
      }
    }
  }

  /** Splitting a spaced string gives no empty part. */
  lemma SplitSpaced(s: string, sep: char)
    requires Spaced(s, sep)
    ensures forall part :: part in Split(s, sep) ==> part != ""
  {
    SplitLaterPartsNonEmpty(s, sep);
    assert Split(s, sep)[0] != "";
  }
}
