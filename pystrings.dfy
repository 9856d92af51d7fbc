/**
 * The Python string built-ins the core relies on, on `string` (a sequence of
 * Unicode scalar values, as a Python `str` is a sequence of code points):
 * `strip`, `count`, `replace(pat, "")`, `isdigit` and `sep.join`.
 */
module PyStrings {

  /** `c.isspace()`: the characters that `str.strip()` removes by default. */
  predicate IsSpace(c: char) {
    || c == ' '
    || '\t' <= c <= '\r'
    || '\U{1C}' <= c <= '\U{1F}'
    || c == '\U{85}' || c == '\U{A0}' || c == '\U{1680}'
    || '\U{2000}' <= c <= '\U{200A}'
    || c == '\U{2028}' || c == '\U{2029}' || c == '\U{202F}' || c == '\U{205F}' || c == '\U{3000}'
  }

  /** Every character of `s` satisfies `p`. */
  predicate All(s: string, p: char -> bool) {
    forall i :: 0 <= i < |s| ==> p(s[i])
  }

  /** Neither end of `s` is a character of `p`. */
  predicate Trimmed(s: string, p: char -> bool) {
    s == [] || (!p(s[0]) && !p(s[|s| - 1]))
  }

  /** `s.lstrip(chars)`, where `p` says which characters are in `chars`: a suffix of `s`. */
  function TrimLeft(s: string, p: char -> bool): (r: string)
    ensures |r| <= |s| && r == s[|s| - |r|..]
    ensures r == [] || !p(r[0])
  {
    if s != [] && p(s[0]) then TrimLeft(s[1..], p) else s
  }

  /** What `lstrip` removes are characters of `p`. */
  lemma {:induction false} TrimLeftRemoves(s: string, p: char -> bool)
    ensures forall k :: 0 <= k < |s| - |TrimLeft(s, p)| ==> p(s[k])
  {
    if s != [] && p(s[0]) {
      TrimLeftRemoves(s[1..], p);
      forall k | 1 <= k < |s| - |TrimLeft(s, p)| ensures p(s[k]) {
        assert s[k] == s[1..][k - 1];
      }
    }
  }

  /** `s.rstrip(chars)`, where `p` says which characters are in `chars`: a prefix of `s`. */
  function TrimRight(s: string, p: char -> bool): (r: string)
    ensures |r| <= |s| && r == s[..|r|]
    ensures r == [] || !p(r[|r| - 1])
  {
    if s != [] && p(s[|s| - 1]) then TrimRight(s[..|s| - 1], p) else s
  }

  /** What `rstrip` removes are characters of `p`. */
  lemma {:induction false} TrimRightRemoves(s: string, p: char -> bool)
    ensures forall k :: |TrimRight(s, p)| <= k < |s| ==> p(s[k])
  {
    if s != [] && p(s[|s| - 1]) {
      TrimRightRemoves(s[..|s| - 1], p);
      forall k | |TrimRight(s, p)| <= k < |s| - 1 ensures p(s[k]) {
        assert s[k] == s[..|s| - 1][k];
      }
    }
  }

  /** `s.strip(chars)`, where `p` says which characters are in `chars`. */
  function StripBy(s: string, p: char -> bool): string {
    TrimRight(TrimLeft(s, p), p)
  }

  /** `s.strip()`. */
  function Strip(s: string): string {
    StripBy(s, IsSpace)
  }

  /** `s.strip()` is empty exactly when `s` is blank; Python code tests this as `not s.strip()`. */
  predicate IsBlank(s: string) {
    All(s, IsSpace)
  }

  lemma {:induction false} TrimLeftSkips(a: string, rest: string, p: char -> bool)
    requires All(a, p)
    requires rest == [] || !p(rest[0])
    ensures TrimLeft(a + rest, p) == rest
  {
    if a != [] {
      assert (a + rest)[1..] == a[1..] + rest;
      TrimLeftSkips(a[1..], rest, p);
    }
  }

  lemma {:induction false} TrimRightSkips(rest: string, b: string, p: char -> bool)
    requires All(b, p)
    requires rest == [] || !p(rest[|rest| - 1])
    ensures TrimRight(rest + b, p) == rest
  {
    if b != [] {
      assert (rest + b)[..|rest + b| - 1] == rest + b[..|b| - 1];
      TrimRightSkips(rest, b[..|b| - 1], p);
    }
  }

  /**
   * An independent description of strip: if `s` is `a + r + b` where `a` and `b`
   * consist of stripped characters and `r` has none at either end, strip gives `r`.
   */
  lemma StripUnique(a: string, r: string, b: string, p: char -> bool)
    requires All(a, p) && All(b, p) && Trimmed(r, p)
    ensures StripBy(a + r + b, p) == r
  {
    assert a + r + b == a + (r + b);
    if r == [] {
      assert r + b == b;
      assert All(a + b, p);
      TrimLeftSkips(a + b, [], p);
      assert a + b + [] == a + b;
      TrimRightSkips([], [], p);
    } else {
      TrimLeftSkips(a, r + b, p);
      TrimRightSkips(r, b, p);
    }
  }

  /**
   * What strip returns: the infix of `s` starting at `i`, with stripped
   * characters only around it and none at its ends.
   */
  lemma StripShape(s: string, p: char -> bool) returns (i: nat)
    ensures var r := StripBy(s, p);
      && Trimmed(r, p) && i <= |s| - |r| && s[i..i + |r|] == r
      && (forall k :: 0 <= k < i ==> p(s[k])) && (forall k :: i + |r| <= k < |s| ==> p(s[k]))
  {
    i := |s| - |TrimLeft(s, p)|;
    TrimLeftRemoves(s, p);
    StripInfix(s, p);
    StripTail(s, p);
    StripEnds(s, p);
  }

  lemma StripInfix(s: string, p: char -> bool)
    ensures var i := |s| - |TrimLeft(s, p)|; var r := StripBy(s, p);
      s[i..i + |r|] == r
  {
    var l := TrimLeft(s, p);
    var r := TrimRight(l, p);
    SliceOfSuffix(s, |s| - |l|, |r|);
  }

  lemma SliceOfSuffix(s: string, i: nat, n: nat)
    requires i + n <= |s|
    ensures s[i..][..n] == s[i..i + n]
  {
  }

  lemma StripTail(s: string, p: char -> bool)
    ensures var i := |s| - |TrimLeft(s, p)|; var r := StripBy(s, p);
      forall k :: i + |r| <= k < |s| ==> p(s[k])
  {
    var l := TrimLeft(s, p);
    var r := TrimRight(l, p);
    var i := |s| - |l|;
    TrimRightRemoves(l, p);
    forall k | i + |r| <= k < |s| ensures p(s[k]) {
      assert s[k] == l[k - i];
    }
  }

  lemma StripEnds(s: string, p: char -> bool)
    ensures Trimmed(StripBy(s, p), p)
  {
    var l := TrimLeft(s, p);
    var r := TrimRight(l, p);
    if r != [] {
      assert r[0] == l[0];
    }
  }

  /** `s.strip().strip() == s.strip()`. */
  lemma StripIdempotent(s: string, p: char -> bool)
    ensures StripBy(StripBy(s, p), p) == StripBy(s, p)
  {
    var r := StripBy(s, p);
    var _ := StripShape(s, p);
    assert [] + r + [] == r;
    StripUnique([], r, [], p);
  }

  /** A string with nothing to strip at its ends is left as it is. */
  lemma StripTrimmed(s: string, p: char -> bool)
    requires Trimmed(s, p)
    ensures StripBy(s, p) == s
  {
    assert [] + s + [] == s;
    StripUnique([], s, [], p);
  }

  /** Every slice of a string whose characters all satisfy `p` satisfies it too. */
  lemma AllSlice(s: string, i: nat, j: nat, p: char -> bool)
    requires All(s, p) && i <= j <= |s|
    ensures All(s[i..j], p)
  {
    forall k | 0 <= k < j - i
      ensures p(s[i..j][k])
    {
      assert s[i..j][k] == s[i + k];
    }
  }

  /** `not s.strip()` holds exactly when `s` is blank. */
  lemma StripEmptyIffBlank(s: string, p: char -> bool)
    ensures StripBy(s, p) == [] <==> All(s, p)
  {
    var i := StripShape(s, p);
    if All(s, p) {
      assert s + [] + [] == s;
      StripUnique(s, [], [], p);
    }
  }

  /** `s.count(c)` for a one-character `c`. */
  function Count(s: string, c: char): (n: nat)
    ensures n <= |s|
    ensures n == 0 <==> c !in s
  {
    if s == [] then 0
    else
      assert c in s <==> s[0] == c || c in s[1..];
      (if s[0] == c then 1 else 0) + Count(s[1..], c)
  }

  lemma {:induction false} CountConcat(a: string, b: string, c: char)
    ensures Count(a + b, c) == Count(a, c) + Count(b, c)
  {
    if a != [] {
      assert (a + b)[1..] == a[1..] + b;
      CountConcat(a[1..], b, c);
    } else {
      assert a + b == b;
    }
  }

  /** `s.index(c)` when `c` occurs in `s`, and `|s|` otherwise: the first position of `c`. */
  function IndexOf(s: string, c: char): (i: nat)
    ensures i <= |s|
    ensures i < |s| <==> c in s
    ensures i < |s| ==> s[i] == c
    ensures c !in s[..i]
  {
    if s == [] then 0
    else if s[0] == c then 0
    else
      var i := 1 + IndexOf(s[1..], c);
      assert s[..i] == [s[0]] + s[1..][..i - 1];
      i
  }

  /**
   * Exactly one occurrence: `s.count(c) == 1` holds iff some position holds `c`
   * and no other does; that position is the one `IndexOf` finds.
   */
  lemma CountOne(s: string, c: char)
    ensures Count(s, c) == 1 <==>
      (IndexOf(s, c) < |s| && c !in s[IndexOf(s, c) + 1..])
  {
    var i := IndexOf(s, c);
    if i < |s| {
      assert s == s[..i] + ([s[i]] + s[i + 1..]);
      CountConcat(s[..i], [s[i]] + s[i + 1..], c);
      CountConcat([s[i]], s[i + 1..], c);
      assert [s[i]][1..] == [];
    }
  }

  /** `c.isdigit()` for the ASCII digits. */
  predicate IsDigit(c: char) {
    '0' <= c <= '9'
  }

  /** `s.isdigit()`: true for a non-empty string of digits. */
  predicate IsDigits(s: string) {
    s != [] && All(s, IsDigit)
  }

  /** `sep.join(parts)`. */
  function Join(parts: seq<string>, sep: string): (r: string)
    ensures (forall i :: 0 <= i < |parts| ==> parts[i] != []) ==> (r == [] <==> parts == [])
  {
    if parts == [] then ""
    else if |parts| == 1 then parts[0]
    else parts[0] + sep + Join(parts[1..], sep)
  }

  /** `s.replace(pat, "")`: removes the non-overlapping occurrences of `pat`, scanning from the left. */
  function RemoveAll(s: string, pat: string): (r: string)
    requires pat != []
    ensures |r| <= |s|
    decreases |s|
  {
    if |s| < |pat| then s
    else if s[..|pat|] == pat then RemoveAll(s[|pat|..], pat)
    else [s[0]] + RemoveAll(s[1..], pat)
  }

  /** Nothing is removed from a string that does not contain the first character of the pattern. */
  lemma {:induction false} RemoveAllAbsent(s: string, pat: string)
    requires pat != [] && pat[0] !in s
    ensures RemoveAll(s, pat) == s
    decreases |s|
  {
    if |s| >= |pat| {
      assert s[..|pat|][0] == s[0];
      RemoveAllAbsent(s[1..], pat);
      assert s == [s[0]] + s[1..];
    }
  }

  /** Removing a single character distributes over concatenation. */
  lemma {:induction false} RemoveCharConcat(a: string, b: string, c: char)
    ensures RemoveAll(a + b, [c]) == RemoveAll(a, [c]) + RemoveAll(b, [c])
  {
    if a == [] {
      assert a + b == b;
    } else {
      assert (a + b)[1..] == a[1..] + b;
      assert (a + b)[..1] == [a[0]] && a[..1] == [a[0]];
      RemoveCharConcat(a[1..], b, c);
    }
  }
}
