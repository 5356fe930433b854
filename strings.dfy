/** Python's `str` operations used by both front-ends: `strip`, `startswith`,
    `endswith` and `sep.join`, plus the splitting that the decoders use. */
module Strings {
  import opened Wrappers

  /** Python's `str.isspace` on one character: the ASCII controls \t \n \v \f \r,
      the separators U+001C..U+001F, the space, and the Unicode white space
      characters U+0085, U+00A0, U+1680, U+2000..U+200A, U+2028, U+2029,
      U+202F, U+205F and U+3000. */
  predicate IsSpace(c: char) {
    || ('\t' <= c <= '\r')
    || ('\U{1C}' <= c <= ' ')
    || c == '\U{85}' || c == '\U{A0}' || c == '\U{1680}'
    || ('\U{2000}' <= c <= '\U{200A}')
    || c == '\U{2028}' || c == '\U{2029}' || c == '\U{202F}' || c == '\U{205F}'
    || c == '\U{3000}'
  }

  predicate AllSpace(s: string) {
    forall k :: 0 <= k < |s| ==> IsSpace(s[k])
  }

  /** Neither end of `s` is white space: what `strip()` leaves behind. */
  predicate IsStripped(s: string) {
    s == [] || (!IsSpace(s[0]) && !IsSpace(s[|s| - 1]))
  }

  /** The length of the white-space run at the start of `s`. */
  function LeadingSpaces(s: string): (n: nat)
    ensures n <= |s|
    ensures AllSpace(s[..n])
    ensures n < |s| ==> !IsSpace(s[n])
  {
    if s != [] && IsSpace(s[0]) then 1 + LeadingSpaces(s[1..]) else 0
  }

  /** The length of the white-space run at the end of `s`. */
  function TrailingSpaces(s: string): (n: nat)
    ensures n <= |s|
    ensures AllSpace(s[|s| - n..])
    ensures n < |s| ==> !IsSpace(s[|s| - n - 1])
  {
    if s != [] && IsSpace(s[|s| - 1]) then 1 + TrailingSpaces(s[..|s| - 1]) else 0
  }

  /** Python's `s.strip()` with no argument. */
  function Strip(s: string): (r: string)
    ensures IsStripped(r)
    ensures |r| <= |s|
  {
    var t := s[LeadingSpaces(s)..];
    t[..|t| - TrailingSpaces(t)]
  }

  lemma {:induction false} LeadingSpacesOf(p: string, rest: string)
    requires AllSpace(p)
    requires rest == [] || !IsSpace(rest[0])
    ensures LeadingSpaces(p + rest) == |p|
    decreases |p|
  {
    if p != [] {
      assert (p + rest)[1..] == p[1..] + rest;
      LeadingSpacesOf(p[1..], rest);
    } else {
      assert p + rest == rest;
    }
  }

  lemma {:induction false} TrailingSpacesOf(rest: string, q: string)
    requires AllSpace(q)
    requires rest == [] || !IsSpace(rest[|rest| - 1])
    ensures TrailingSpaces(rest + q) == |q|
    decreases |q|
  {
    if q != [] {
      assert (rest + q)[..|rest + q| - 1] == rest + q[..|q| - 1];
      TrailingSpacesOf(rest, q[..|q| - 1]);
    } else {
      assert rest + q == rest;
    }
  }

  /** `strip()` returns the unique stripped core between two white-space-only
      margins: whatever white space surrounds `m`, stripping gives back `m`. */
  lemma StripUnique(p: string, m: string, q: string)
    requires AllSpace(p) && AllSpace(q) && IsStripped(m)
    ensures Strip(p + m + q) == m
  {
    if m == [] {
      assert p + m + q == p + q;
      LeadingSpacesOf(p + q, []);
      assert p + q + [] == p + q;
    } else {
      LeadingSpacesOf(p, m + q);
      assert p + m + q == p + (m + q);
      assert (p + (m + q))[|p|..] == m + q;
      TrailingSpacesOf(m, q);
    }
  }

  /** Stripping removes white space only: the input is the result between two
      white-space-only margins. */
  lemma StripSplits(s: string)
    ensures exists i, j :: 0 <= i <= j <= |s| && s[i..j] == Strip(s) && AllSpace(s[..i]) && AllSpace(s[j..])
  {
    var i := LeadingSpaces(s);
    var t := s[i..];
    var n := TrailingSpaces(t);
    var j := i + |t| - n;
    assert s[i..j] == Strip(s);
    assert s[j..] == t[|t| - n..];
  }

  /** An input is rejected as empty by `if not x.strip()` exactly when all its
      characters are white space. */
  lemma StripEmptyIff(s: string)
    ensures Strip(s) == [] <==> AllSpace(s)
  {
    if AllSpace(s) {
      StripUnique(s, [], []);
      assert s + [] + [] == s;
    } else {
      var i := LeadingSpaces(s);
      assert i < |s|;
      var t := s[i..];
      var n := TrailingSpaces(t);
      assert n < |t|;
    }
  }

  /** `strip()` is idempotent, and leaves a stripped string as it is. */
  lemma StripIdempotent(s: string)
    ensures IsStripped(s) ==> Strip(s) == s
    ensures Strip(Strip(s)) == Strip(s)
  {
    if IsStripped(s) {
      StripUnique([], s, []);
      assert [] + s + [] == s;
    }
    StripUnique([], Strip(s), []);
    assert [] + Strip(s) + [] == Strip(s);
  }

  predicate StartsWith(s: string, prefix: string) {
    |prefix| <= |s| && s[..|prefix|] == prefix
  }

  predicate EndsWith(s: string, suffix: string) {
    |suffix| <= |s| && s[|s| - |suffix|..] == suffix
  }

  /** A string ending in `t` ends in every suffix of `t`. */
  lemma EndsWithTrans(s: string, t: string, u: string)
    requires EndsWith(s, t) && EndsWith(t, u)
    ensures EndsWith(s, u)
  {
    assert s[|s| - |u|..] == s[|s| - |t|..][|t| - |u|..];
  }

  /** Python's `sep.join(parts)`: the parts in order, the separator between
      each two of them. */
  function Join(sep: string, parts: seq<string>): (r: string)
    ensures parts == [] ==> r == ""
    ensures |parts| >= 1 ==> StartsWith(r, parts[0]) && EndsWith(r, parts[|parts| - 1])
    ensures |parts| >= 2 ==> StartsWith(r, parts[0] + sep)
    decreases |parts|
  {
    if |parts| == 0 then ""
    else if |parts| == 1 then parts[0]
    else parts[0] + sep + Join(sep, parts[1..])
  }

  predicate NoneIn(s: string, seps: set<char>) {
    forall k :: 0 <= k < |s| ==> s[k] !in seps
  }

  /** The position of the first character of `s` that belongs to `seps`. */
  function FirstIn(s: string, seps: set<char>): (i: nat)
    requires !NoneIn(s, seps)
    ensures i < |s| && s[i] in seps
    ensures NoneIn(s[..i], seps)
  {
    if s[0] in seps then 0 else 1 + FirstIn(s[1..], seps)
  }

  lemma {:induction false} FirstInAt(a: string, c: char, b: string, seps: set<char>)
    requires NoneIn(a, seps) && c in seps
    ensures !NoneIn(a + [c] + b, seps)
    ensures FirstIn(a + [c] + b, seps) == |a|
    decreases |a|
  {
    var s := a + [c] + b;
    assert s[|a|] == c;
    if a != [] {
      assert s[1..] == a[1..] + [c] + b;
      FirstInAt(a[1..], c, b, seps);
    }
  }

  /** The text before and after the first `c` in `s`, if there is one. */
  function SplitAtFirst(s: string, c: char): (r: Option<(string, string)>)
    ensures r.None? <==> c !in s
    ensures r.Some? ==> s == r.value.0 + [c] + r.value.1 && c !in r.value.0
  {
    if NoneIn(s, {c}) then None
    else
      var i := FirstIn(s, {c});
      assert s == s[..i] + [c] + s[i + 1..];
      Some((s[..i], s[i + 1..]))
  }

  lemma SplitAtFirstOf(a: string, c: char, b: string)
    requires c !in a
    ensures SplitAtFirst(a + [c] + b, c) == Some((a, b))
  {
    FirstInAt(a, c, b, {c});
    var s := a + [c] + b;
    assert s[..|a|] == a && s[|a| + 1..] == b;
  }

  /** The pieces of `s` between the characters of `seps`, left to right. */
  function Split(s: string, seps: set<char>): (r: seq<string>)
    ensures |r| >= 1
    ensures forall k :: 0 <= k < |r| ==> NoneIn(r[k], seps)
    decreases |s|
  {
    if NoneIn(s, seps) then [s]
    else
      var i := FirstIn(s, seps);
      [s[..i]] + Split(s[i + 1..], seps)
  }

  /** Splitting inverts joining, as long as the separator is one of the
      splitting characters and no part contains any of them. */
  lemma {:induction false} SplitJoin(parts: seq<string>, c: char, seps: set<char>)
    requires |parts| >= 1 && c in seps
    requires forall k :: 0 <= k < |parts| ==> NoneIn(parts[k], seps)
    ensures Split(Join([c], parts), seps) == parts
    decreases |parts|
  {
    if |parts| > 1 {
      var rest := Join([c], parts[1..]);
      FirstInAt(parts[0], c, rest, seps);
      var s := parts[0] + [c] + rest;
      assert s[..|parts[0]|] == parts[0] && s[|parts[0]| + 1..] == rest;
      SplitJoin(parts[1..], c, seps);
    }
  }
}
