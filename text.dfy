/** Python `str` operations used by the voice agent, with Python's semantics:
    `in`, `replace(p, "")`, `split`, `strip`, `startswith`, `endswith`, `join`.
    Whitespace is exactly the set of characters for which Python's
    `str.isspace()` holds; case mapping (`lower`, `capitalize`, `title`)
    is the ASCII part of Python's Unicode mapping. */
module Text {
  import opened Wrappers

  // ---------------------------------------------------------------------
  // Characters

  /** Python's `str.isspace()` for one character. */
  predicate IsSpace(c: char) {
    c == ' ' || ('\t' <= c <= '\r') || ('\U{1C}' <= c <= '\U{1F}') ||
    c == '\U{85}' || c == '\U{A0}' || c == '\U{1680}' ||
    ('\U{2000}' <= c <= '\U{200A}') || c == '\U{2028}' || c == '\U{2029}' ||
    c == '\U{202F}' || c == '\U{205F}' || c == '\U{3000}'
  }

  predicate IsUpper(c: char) { 'A' <= c <= 'Z' }
  predicate IsLower(c: char) { 'a' <= c <= 'z' }
  predicate IsCased(c: char) { IsUpper(c) || IsLower(c) }

  function LowerChar(c: char): (r: char)
    ensures IsSpace(r) <==> IsSpace(c)
    ensures !IsUpper(r)
  {
    if IsUpper(c) then (c as int + 32) as char else c
  }

  function UpperChar(c: char): (r: char)
    ensures IsSpace(r) <==> IsSpace(c)
    ensures !IsLower(r)
  {
    if IsLower(c) then (c as int - 32) as char else c
  }

  /** `s.lower()` */
  function Lower(s: string): (r: string)
    ensures |r| == |s|
    ensures forall i :: 0 <= i < |s| ==> r[i] == LowerChar(s[i])
  {
    seq(|s|, i requires 0 <= i < |s| => LowerChar(s[i]))
  }

  /** `s.capitalize()`: first character upper-cased, the rest lower-cased. */
  function Capitalize(s: string): (r: string)
    ensures |r| == |s|
    ensures s != [] ==> r[0] == UpperChar(s[0]) && r[1..] == Lower(s[1..])
  {
    if s == [] then [] else [UpperChar(s[0])] + Lower(s[1..])
  }

  /** `s.title()`: a letter is upper-cased when the character before it is
      not a cased letter, and lower-cased otherwise. */
  function Title(s: string): (r: string)
    ensures |r| == |s|
  {
    seq(|s|, i requires 0 <= i < |s| =>
      if i == 0 || !IsCased(s[i - 1]) then UpperChar(s[i]) else LowerChar(s[i]))
  }

  /** An optional string that Python finds truthy: present and not empty. */
  predicate Given(s: Option<string>) {
    s.Some? && s.value != []
  }

  // ---------------------------------------------------------------------
  // Prefixes, suffixes, search

  predicate StartsWith(s: string, p: string) {
    |p| <= |s| && s[..|p|] == p
  }

  predicate EndsWith(s: string, p: string) {
    |p| <= |s| && s[|s| - |p|..] == p
  }

  /** Index of the first occurrence of `pat` in `s`, as Python's `s.find(pat)`. */
  function FindFirst(s: string, pat: string): (r: Option<nat>)
    ensures r.Some? ==> r.value + |pat| <= |s| && s[r.value..r.value + |pat|] == pat
    ensures r.Some? ==> forall j :: 0 <= j < r.value ==> !StartsWith(s[j..], pat)
    ensures r.None? ==> forall j :: 0 <= j <= |s| ==> !StartsWith(s[j..], pat)
    decreases |s|
  {
    if StartsWith(s, pat) then
      assert s[0..|pat|] == s[..|pat|] && s[0..] == s;
      Some(0)
    else if s == [] then None
    else
      match FindFirst(s[1..], pat)
      case Some(i) =>
        MatchShifted(s, pat, i);
        NoMatchShifted(s, pat, i);
        Some(i + 1)
      case None =>
        NoMatchShifted(s, pat, |s| - 1);
        None
  }

  /** The text from the first occurrence on starts with the pattern. */
  lemma FoundStartsWithPattern(s: string, pat: string)
    ensures FindFirst(s, pat).Some? ==> StartsWith(s[FindFirst(s, pat).value..], pat)
  {
    if FindFirst(s, pat).Some? {
      var r := FindFirst(s, pat).value;
      assert s[r..][..|pat|] == s[r..r + |pat|];
    }
  }

  /** A match in the tail of `s` is a match in `s`, one place further on. */
  lemma MatchShifted(s: string, pat: string, i: nat)
    requires s != [] && i + |pat| <= |s| - 1 && s[1..][i..i + |pat|] == pat
    ensures s[i + 1..i + 1 + |pat|] == pat && StartsWith(s[i + 1..], pat)
  {
    assert s[i + 1..] == s[1..][i..];
    assert s[i + 1..i + 1 + |pat|] == s[1..][i..i + |pat|];
  }

  /** Places without a match in the tail of `s` are places without a match
      in `s`, one further on; a text that does not start with `pat` has none
      at its start either. */
  lemma NoMatchShifted(s: string, pat: string, k: nat)
    requires s != [] && k <= |s| - 1 && !StartsWith(s, pat)
    requires forall j :: 0 <= j < k ==> !StartsWith(s[1..][j..], pat)
    requires k == |s| - 1 ==> !StartsWith(s[1..][k..], pat)
    ensures forall j :: 0 <= j < k + 1 ==> !StartsWith(s[j..], pat)
    ensures k == |s| - 1 ==> forall j :: 0 <= j <= |s| ==> !StartsWith(s[j..], pat)
  {
    forall j | 1 <= j <= |s| && (j < k + 1 || k == |s| - 1)
      ensures !StartsWith(s[j..], pat)
    {
      assert s[j..] == s[1..][j - 1..];
    }
    assert s[0..] == s;
  }

  /** `pat in s` */
  predicate Contains(s: string, pat: string) {
    FindFirst(s, pat).Some?
  }

  /** `s.replace(pat, "")`: every occurrence, found left to right without
      overlap, is removed. An empty pattern leaves `s` unchanged. */
  function RemoveAll(s: string, pat: string): (r: string)
    ensures |r| <= |s|
    decreases |s|
  {
    if pat == [] || |s| < |pat| then s
    else if s[..|pat|] == pat then RemoveAll(s[|pat|..], pat)
    else [s[0]] + RemoveAll(s[1..], pat)
  }

  /** `s.replace(a, b)` for single characters. */
  function ReplaceChar(s: string, a: char, b: char): (r: string)
    ensures |r| == |s|
    ensures forall i :: 0 <= i < |s| ==> r[i] == if s[i] == a then b else s[i]
  {
    seq(|s|, i requires 0 <= i < |s| => if s[i] == a then b else s[i])
  }

  /** `s.split(sep)` for a non-empty separator. */
  function Split(s: string, sep: string): (r: seq<string>)
    requires sep != []
    ensures |r| >= 1
    decreases |s|
  {
    match FindFirst(s, sep)
    case None => [s]
    case Some(i) => [s[..i]] + Split(s[i + |sep|..], sep)
  }

  /** The text after the first occurrence of `pat`, or "" when there is none. */
  function After(s: string, pat: string): string {
    match FindFirst(s, pat)
    case None => []
    case Some(i) => s[i + |pat|..]
  }

  /** The text before the first occurrence of `pat`, or all of `s`. */
  function Before(s: string, pat: string): string {
    match FindFirst(s, pat)
    case None => s
    case Some(i) => s[..i]
  }

  // ---------------------------------------------------------------------
  // Whitespace stripping

  /** `s.lstrip()` */
  function LStrip(s: string): (r: string)
    ensures |r| <= |s| && r == s[|s| - |r|..]
    ensures r == [] || !IsSpace(r[0])
    ensures forall i :: 0 <= i < |s| - |r| ==> IsSpace(s[i])
    decreases |s|
  {
    if s != [] && IsSpace(s[0]) then LStrip(s[1..]) else s
  }

  /** `s.rstrip()` */
  function RStrip(s: string): (r: string)
    ensures |r| <= |s| && r == s[..|r|]
    ensures r == [] || !IsSpace(r[|r| - 1])
    ensures forall i :: |r| <= i < |s| ==> IsSpace(s[i])
    decreases |s|
  {
    if s != [] && IsSpace(s[|s| - 1]) then RStrip(s[..|s| - 1]) else s
  }

  /** `s.strip()` */
  function Strip(s: string): (r: string)
    ensures r == [] || (!IsSpace(r[0]) && !IsSpace(r[|r| - 1]))
  {
    RStrip(LStrip(s))
  }

  // ---------------------------------------------------------------------
  // Joining and numbers

  /** `sep.join(parts)` */
  function Join(parts: seq<string>, sep: string): string
    decreases |parts|
  {
    if parts == [] then []
    else if |parts| == 1 then parts[0]
    else Join(parts[..|parts| - 1], sep) + sep + parts[|parts| - 1]
  }

  /** `"".join(parts)` */
  function Concat(parts: seq<string>): string
    decreases |parts|
  {
    if parts == [] then [] else Concat(parts[..|parts| - 1]) + parts[|parts| - 1]
  }

  function DigitChar(d: nat): char
    requires d < 10
  {
    "0123456789"[d]
  }

  /** `str(n)` for a non-negative integer. */
  function NatToString(n: nat): (r: string)
    ensures r != []
    decreases n
  {
    if n < 10 then [DigitChar(n)] else NatToString(n / 10) + [DigitChar(n % 10)]
  }

  // ---------------------------------------------------------------------
  // Lemmas

  lemma {:induction false} ConcatAppend(a: seq<string>, b: seq<string>)
    ensures Concat(a + b) == Concat(a) + Concat(b)
    decreases |b|
  {
    if b == [] {
      assert a + b == a;
    } else {
      var n := |b| - 1;
      assert (a + b)[..|a + b| - 1] == a + b[..n];
      ConcatAppend(a, b[..n]);
    }
  }

  /** Appending one more part to a non-empty join adds the separator and the part. */
  lemma JoinSnoc(parts: seq<string>, p: string, sep: string)
    requires parts != []
    ensures Join(parts + [p], sep) == Join(parts, sep) + sep + p
  {
    assert (parts + [p])[..|parts|] == parts;
  }

  /** A string that holds `pat` between any two texts contains `pat`. */
  lemma {:induction false} ContainsInfix(a: string, pat: string, b: string)
    ensures Contains(a + pat + b, pat)
    decreases |a|
  {
    var s := a + pat + b;
    if a == [] {
      assert s[..|pat|] == pat;
    } else if !StartsWith(s, pat) {
      ContainsInfix(a[1..], pat, b);
      assert s[1..] == a[1..] + pat + b;
    }
  }

  /** Without an occurrence of a non-empty pattern, removing it changes nothing. */
  lemma {:induction false} RemoveAllAbsent(s: string, pat: string)
    requires !Contains(s, pat)
    ensures RemoveAll(s, pat) == s
    decreases |s|
  {
    if pat != [] && |s| >= |pat| {
      assert !StartsWith(s, pat);
      assert forall j :: 0 <= j <= |s| - 1 ==> s[1..][j..] == s[j + 1..];
      RemoveAllAbsent(s[1..], pat);
    }
  }

  /** Lower-casing does not change which characters are whitespace, so it
      commutes with stripping. */
  lemma {:induction false} LStripLower(s: string)
    ensures LStrip(Lower(s)) == Lower(LStrip(s))
    decreases |s|
  {
    if s != [] && IsSpace(s[0]) {
      assert Lower(s)[1..] == Lower(s[1..]);
      LStripLower(s[1..]);
    }
  }

  lemma {:induction false} RStripLower(s: string)
    ensures RStrip(Lower(s)) == Lower(RStrip(s))
    decreases |s|
  {
    if s != [] && IsSpace(s[|s| - 1]) {
      assert Lower(s)[..|s| - 1] == Lower(s[..|s| - 1]);
      RStripLower(s[..|s| - 1]);
    }
  }

  lemma LowerIdempotent(s: string)
    ensures Lower(Lower(s)) == Lower(s)
  {
  }

  lemma {:induction false} LStripIdempotent(s: string)
    ensures LStrip(LStrip(s)) == LStrip(s)
  {
  }

  lemma {:induction false} RStripOfLStripped(s: string)
    requires s == [] || !IsSpace(s[0])
    ensures LStrip(RStrip(s)) == RStrip(s)
  {
  }

  lemma StripIdempotent(s: string)
    ensures Strip(Strip(s)) == Strip(s)
  {
    var l := LStrip(s);
    RStripOfLStripped(l);
    assert LStrip(RStrip(l)) == RStrip(l);
  }

  /** An occurrence in `a` is still an occurrence once text is appended. */
  lemma ContainsExtend(a: string, b: string, pat: string)
    requires Contains(a, pat)
    ensures Contains(a + b, pat)
  {
    var i := FindFirst(a, pat).value;
    assert a + b == a[..i] + pat + (a[i + |pat|..] + b);
    ContainsInfix(a[..i], pat, a[i + |pat|..] + b);
  }

  /** An occurrence in `b` is still an occurrence once text is prepended. */
  lemma ContainsPrepend(a: string, b: string, pat: string)
    requires Contains(b, pat)
    ensures Contains(a + b, pat)
  {
    var i := FindFirst(b, pat).value;
    assert a + b == (a + b[..i]) + pat + b[i + |pat|..];
    ContainsInfix(a + b[..i], pat, b[i + |pat|..]);
  }

  /** Every part of a join occurs in it. */
  lemma {:induction false} JoinHasPart(parts: seq<string>, sep: string, i: nat)
    requires i < |parts|
    ensures Contains(Join(parts, sep), parts[i])
    decreases |parts|
  {
    var n := |parts| - 1;
    var whole := Join(parts, sep);
    if n == 0 {
      assert whole == [] + parts[0] + [];
      ContainsInfix([], parts[0], []);
    } else {
      var init := parts[..n];
      var front := Join(init, sep);
      assert whole == front + sep + parts[n];
      if i == n {
        assert whole == (front + sep) + parts[n] + [];
        ContainsInfix(front + sep, parts[n], []);
      } else {
        assert init[i] == parts[i];
        JoinHasPart(init, sep, i);
        assert whole == front + (sep + parts[n]);
        ContainsExtend(front, sep + parts[n], parts[i]);
      }
    }
  }

  /** The text before the first occurrence of a non-empty pattern does not
      contain it. */
  lemma BeforeLacksPattern(s: string, pat: string)
    requires pat != []
    ensures !Contains(Before(s, pat), pat)
  {
    var b := Before(s, pat);
    forall j | 0 <= j <= |b| ensures !StartsWith(b[j..], pat) {
      if j + |pat| <= |b| {
        assert b[j..][..|pat|] == s[j..][..|pat|];
      }
    }
    FoundStartsWithPattern(b, pat);
  }

  /** A string holding a pattern holds every prefix of it. */
  lemma ContainsPrefixOfPattern(s: string, pat: string, n: nat)
    requires Contains(s, pat) && n <= |pat|
    ensures Contains(s, pat[..n])
  {
    var i := FindFirst(s, pat).value;
    assert s == s[..i] + pat[..n] + s[i + n..];
    ContainsInfix(s[..i], pat[..n], s[i + n..]);
  }

  /** `s.split(sep)[0]` is the text before the first separator and, when
      there is one, `s.split(sep)[1]` is the text between the first and the
      second separator. */
  lemma SplitParts(s: string, sep: string)
    requires sep != []
    ensures Split(s, sep)[0] == Before(s, sep)
    ensures Contains(s, sep) ==> |Split(s, sep)| >= 2 && Split(s, sep)[1] == Before(After(s, sep), sep)
  {
    if Contains(s, sep) {
      var i := FindFirst(s, sep).value;
      var rest := s[i + |sep|..];
      assert Split(rest, sep)[0] == Before(rest, sep);
    }
  }
}
