/** The handful of Python `str` operations the client and the web route use:
    `strip()`, `rstrip("/")`, `lower()` and `startswith(...)`. */
module Text {

  /** Python's `str.isspace()` for one character: the ASCII controls TAB..CR,
      the separators 0x1C..0x1F, SPACE, NEL, NBSP and the Unicode space separators. */
  predicate IsSpace(c: char)
  {
    var n := c as int;
    (0x09 <= n <= 0x0D) || (0x1C <= n <= 0x20) || n == 0x85 || n == 0xA0 || n == 0x1680
    || (0x2000 <= n <= 0x200A) || n == 0x2028 || n == 0x2029 || n == 0x202F || n == 0x205F
    || n == 0x3000
  }

  predicate IsSlash(c: char) { c == '/' }

  /** Removes every trailing character that `drop` selects (Python `rstrip`). */
  function RStripBy(s: string, drop: char -> bool): (r: string)
    ensures |r| <= |s| && r == s[..|r|]
    ensures r == [] || !drop(r[|r| - 1])
    ensures forall i :: |r| <= i < |s| ==> drop(s[i])
  {
    if s != [] && drop(s[|s| - 1]) then RStripBy(s[..|s| - 1], drop) else s
  }

  /** `s.rstrip("/")`: every trailing slash removed, everything before kept. */
  function RStripSlash(s: string): (r: string)
    ensures |r| <= |s| && r == s[..|r|]
    ensures r == [] || r[|r| - 1] != '/'
    ensures forall i :: |r| <= i < |s| ==> s[i] == '/'
  {
    RStripBy(s, IsSlash)
  }

  /** The number of whitespace characters `s` starts with. */
  function LeadingSpaces(s: string): (n: nat)
    ensures n <= |s|
    ensures forall i :: 0 <= i < n ==> IsSpace(s[i])
    ensures n == |s| || !IsSpace(s[n])
  {
    if s != [] && IsSpace(s[0]) then 1 + LeadingSpaces(s[1..]) else 0
  }

  /** `s.strip()`: the slice of `s` that starts after its leading whitespace and
      ends before its trailing whitespace; it neither starts nor ends with whitespace. */
  function Strip(s: string): (r: string)
    ensures r == [] || (!IsSpace(r[0]) && !IsSpace(r[|r| - 1]))
    ensures LeadingSpaces(s) + |r| <= |s|
    ensures r == s[LeadingSpaces(s)..LeadingSpaces(s) + |r|]
    ensures forall i :: LeadingSpaces(s) + |r| <= i < |s| ==> IsSpace(s[i])
  {
    var k := LeadingSpaces(s);
    if k == |s| then [] else RStripBy(s[k..], IsSpace)
  }

  /** Python's `lower()` on one character, for the ASCII letters. */
  function LowerChar(c: char): char
  {
    if 'A' <= c <= 'Z' then (c as int + 32) as char else c
  }

  predicate IsUpper(c: char) { 'A' <= c <= 'Z' }

  /** `s.lower()`: same length, every ASCII capital replaced by its small letter. */
  function Lower(s: string): (r: string)
    ensures |r| == |s|
    ensures forall i :: 0 <= i < |s| ==> r[i] == LowerChar(s[i])
    ensures forall i :: 0 <= i < |r| ==> !IsUpper(r[i])
  {
    if s == [] then [] else [LowerChar(s[0])] + Lower(s[1..])
  }

  /** `s.startswith(p)`: `s` is at least as long as `p` and begins with it. */
  predicate StartsWith(s: string, p: string): (b: bool)
    ensures b <==> |p| <= |s| && s[..|p|] == p
  {
    p <= s
  }

  /** Every character of `w` is whitespace. */
  predicate AllSpace(w: string)
  {
    forall i :: 0 <= i < |w| ==> IsSpace(w[i])
  }

  /** Stripping twice is stripping once. */
  lemma RStripByIdempotent(s: string, drop: char -> bool)
    ensures RStripBy(RStripBy(s, drop), drop) == RStripBy(s, drop)
  {
  }

  /** A string with no trailing slash is left alone by `rstrip("/")`. */
  lemma RStripSlashNoTrailing(s: string)
    requires s == [] || s[|s| - 1] != '/'
    ensures RStripSlash(s) == s
  {
  }

  /** A string without surrounding whitespace is left alone by `strip()`. */
  lemma StripNoSurrounding(s: string)
    requires s == [] || (!IsSpace(s[0]) && !IsSpace(s[|s| - 1]))
    ensures Strip(s) == s
  {
  }

  /** `strip()` is idempotent. */
  lemma StripIdempotent(s: string)
    ensures Strip(Strip(s)) == Strip(s)
  {
    StripNoSurrounding(Strip(s));
  }

  /** `lower()` leaves a string without capitals unchanged. */
  lemma LowerNoUpper(s: string)
    requires forall i :: 0 <= i < |s| ==> !IsUpper(s[i])
    ensures Lower(s) == s
  {
  }

  /** Removing whitespace cannot create a capital letter. */
  lemma StripKeepsLower(s: string)
    requires forall i :: 0 <= i < |s| ==> !IsUpper(s[i])
    ensures forall i :: 0 <= i < |Strip(s)| ==> !IsUpper(Strip(s)[i])
  {
    var r, k := Strip(s), LeadingSpaces(s);
    forall i | 0 <= i < |r| ensures !IsUpper(r[i]) { assert r[i] == s[k + i]; }
  }

  /** `lower()` works character by character, so it distributes over concatenation. */
  lemma LowerAppend(a: string, b: string)
    ensures Lower(a + b) == Lower(a) + Lower(b)
  {
    var l, r := Lower(a + b), Lower(a) + Lower(b);
    assert |l| == |r|;
    forall i | 0 <= i < |l| ensures l[i] == r[i] {
      if i < |a| { assert (a + b)[i] == a[i]; } else { assert (a + b)[i] == b[i - |a|]; }
    }
  }

  /** Whitespace has no case, so `lower()` leaves it alone. */
  lemma LowerAllSpace(w: string)
    requires AllSpace(w)
    ensures Lower(w) == w
  {
    LowerNoUpper(w);
  }

  /** The leading whitespace of `s + t` is that of `s`, unless `s` is all
      whitespace, in which case the leading whitespace of `t` follows it. */
  lemma {:induction false} LeadingSpacesAppend(s: string, t: string)
    ensures LeadingSpaces(s + t) == if LeadingSpaces(s) < |s| then LeadingSpaces(s) else |s| + LeadingSpaces(t)
  {
    if s != [] {
      assert (s + t)[0] == s[0];
      assert (s + t)[1..] == s[1..] + t;
      if IsSpace(s[0]) {
        LeadingSpacesAppend(s[1..], t);
      }
    } else {
      assert s + t == t;
    }
  }

  /** Trailing whitespace appended to `s` is removed again by the right strip. */
  lemma {:induction false} RStripSpaceAppend(s: string, w: string)
    requires AllSpace(w)
    ensures RStripBy(s + w, IsSpace) == RStripBy(s, IsSpace)
  {
    if w != [] {
      assert (s + w)[..|s + w| - 1] == s + w[..|w| - 1];
      RStripSpaceAppend(s, w[..|w| - 1]);
    } else {
      assert s + w == s;
    }
  }

  /** Leading whitespace added to `s` is removed again by `strip()`. */
  lemma StripSpacePrefix(pre: string, s: string)
    requires AllSpace(pre)
    ensures Strip(pre + s) == Strip(s)
  {
    LeadingSpacesAppend(pre, s);
    assert LeadingSpaces(pre) == |pre|;
    var k := LeadingSpaces(s);
    assert (pre + s)[|pre| + k..] == s[k..];
  }

  /** Trailing whitespace added to `s` is removed again by `strip()`. */
  lemma StripSpaceSuffix(s: string, post: string)
    requires AllSpace(post)
    ensures Strip(s + post) == Strip(s)
  {
    LeadingSpacesAppend(s, post);
    var k := LeadingSpaces(s);
    if k == |s| {
      assert LeadingSpaces(post) == |post|;
    } else {
      assert (s + post)[k..] == s[k..] + post;
      RStripSpaceAppend(s[k..], post);
    }
  }

  /** `strip()` ignores whitespace added in front of or behind its argument. */
  lemma StripSurrounding(pre: string, s: string, post: string)
    requires AllSpace(pre) && AllSpace(post)
    ensures Strip(pre + s + post) == Strip(s)
  {
    assert pre + s + post == pre + (s + post);
    StripSpacePrefix(pre, s + post);
    StripSpaceSuffix(s, post);
  }
}
