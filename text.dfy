/**
 * String helpers standing for the Python and JavaScript string built-ins the
 * core relies on: lower-casing, substring search, `find`/`rfind`, `strip`,
 * `split("\n")`, and the code-point order `sorted` uses.
 */
module Text {

  /** Lower-casing of one character, on the ASCII letters. */
  function LowerChar(c: char): char
  {
    if 'A' <= c <= 'Z' then (c as int + 32) as char else c
  }

  /** `s.lower()`, restricted to ASCII letters. */
  function Lower(s: string): (r: string)
    ensures |r| == |s|
    ensures forall i :: 0 <= i < |s| ==> r[i] == LowerChar(s[i])
  {
    seq(|s|, i requires 0 <= i < |s| => LowerChar(s[i]))
  }

  /** `sub` occurs in `s` starting at index `k`. */
  predicate OccursAt(s: string, sub: string, k: int)
  {
    0 <= k && k + |sub| <= |s| && s[k..k + |sub|] == sub
  }

  /** `sub in s`: `sub` occurs as a contiguous piece of `s`. */
  predicate Contains(s: string, sub: string)
  {
    exists k | 0 <= k <= |s| - |sub| :: OccursAt(s, sub, k)
  }

  /** Case-insensitive containment: `sub.lower() in s.lower()`. */
  predicate ContainsIgnoringCase(s: string, sub: string)
  {
    Contains(Lower(s), Lower(sub))
  }

  predicate StartsWith(s: string, prefix: string)
  {
    |prefix| <= |s| && s[..|prefix|] == prefix
  }

  predicate EndsWith(s: string, suffix: string)
  {
    |suffix| <= |s| && s[|s| - |suffix|..] == suffix
  }

  /** `s.find(c)`: the least index holding `c`, or -1. */
  function Find(s: string, c: char): (r: int)
    ensures -1 <= r < |s|
    ensures r == -1 <==> c !in s
    ensures r >= 0 ==> s[r] == c && c !in s[..r]
  {
    if s == [] then -1
    else if s[0] == c then 0
    else
      var k := Find(s[1..], c);
      if k == -1 then -1
      else
        assert s[..k + 1] == [s[0]] + s[1..][..k];
        k + 1
  }

  /** `s.rfind(c)`: the greatest index holding `c`, or -1. */
  function RFind(s: string, c: char): (r: int)
    ensures -1 <= r < |s|
    ensures r == -1 <==> c !in s
    ensures r >= 0 ==> s[r] == c && c !in s[r + 1..]
  {
    if s == [] then -1
    else if s[|s| - 1] == c then |s| - 1
    else
      var k := RFind(s[..|s| - 1], c);
      assert s == s[..|s| - 1] + [s[|s| - 1]];
      assert k >= 0 ==> s[k + 1..] == s[..|s| - 1][k + 1..] + [s[|s| - 1]];
      k
  }

  /** The characters Python's `str.isspace()` accepts, which `str.strip()` removes. */
  predicate IsSpace(c: char)
  {
    || c == ' ' || '\t' <= c <= '\r' || '\U{1C}' <= c <= '\U{1F}'
    || c == '\U{85}' || c == '\U{A0}' || c == '\U{1680}'
    || '\U{2000}' <= c <= '\U{200A}' || c == '\U{2028}' || c == '\U{2029}'
    || c == '\U{202F}' || c == '\U{205F}' || c == '\U{3000}'
  }

  function StripStart(s: string): (r: string)
    ensures |r| <= |s| && r == s[|s| - |r|..]
    ensures r == [] || !IsSpace(r[0])
  {
    if s != [] && IsSpace(s[0]) then StripStart(s[1..]) else s
  }

  function StripEnd(s: string): (r: string)
    ensures |r| <= |s| && r == s[..|r|]
    ensures r == [] || !IsSpace(r[|r| - 1])
  {
    if s != [] && IsSpace(s[|s| - 1]) then StripEnd(s[..|s| - 1]) else s
  }

  /** Every character of `s` is whitespace. */
  predicate AllSpace(s: string)
  {
    s == [] || (IsSpace(s[0]) && AllSpace(s[1..]))
  }

  /** `s.strip()`: `s` without its leading and trailing whitespace. */
  function Strip(s: string): (r: string)
    ensures r == [] || (!IsSpace(r[0]) && !IsSpace(r[|r| - 1]))
    ensures Contains(s, r)
  {
    var t := StripStart(s);
    var r := StripEnd(t);
    assert s[|s| - |t|..][..|r|] == s[|s| - |t|..|s| - |t| + |r|];
    assert OccursAt(s, r, |s| - |t|);
    r
  }

  /**
   * `strip` removes whitespace and nothing else: the result is a prefix of
   * a suffix of `s`, what precedes the suffix is whitespace, and what
   * follows the prefix is whitespace. `StripSpans` turns this into a slice
   * with whitespace on either side.
   */
  lemma StripRemovesOnlySpaces(s: string)
    ensures var t := StripStart(s);
      && |t| <= |s| && t == s[|s| - |t|..] && AllSpace(s[..|s| - |t|])
      && |Strip(s)| <= |t| && Strip(s) == t[..|Strip(s)|] && AllSpace(t[|Strip(s)|..])
  {
    LeadingSpaces(s);
    StripKeepsPrefix(s);
  }

  /** The back half of `strip`: a prefix of the left-stripped text, followed by whitespace. */
  lemma StripKeepsPrefix(s: string)
    ensures var t := StripStart(s);
      |Strip(s)| <= |t| && Strip(s) == t[..|Strip(s)|] && AllSpace(t[|Strip(s)|..])
  {
    assert Strip(s) == StripEnd(StripStart(s));
    TrailingSpaces(StripStart(s));
  }

  /** `StripStart` removes only whitespace. */
  lemma {:induction false} LeadingSpaces(s: string)
    ensures AllSpace(s[..|s| - |StripStart(s)|])
  {
    if s != [] && IsSpace(s[0]) {
      var n := |s| - |StripStart(s)|;
      LeadingSpaces(s[1..]);
      assert s[..n][1..] == s[1..][..n - 1];
    }
  }

  lemma {:induction false} AllSpaceAppend(x: string, y: string)
    requires AllSpace(x) && AllSpace(y)
    ensures AllSpace(x + y)
  {
    if x != [] {
      assert (x + y)[1..] == x[1..] + y;
      AllSpaceAppend(x[1..], y);
    } else {
      assert x + y == y;
    }
  }

  /** `StripEnd` removes only whitespace. */
  lemma {:induction false} TrailingSpaces(s: string)
    ensures AllSpace(s[|StripEnd(s)|..])
  {
    if s != [] && IsSpace(s[|s| - 1]) {
      var n := |StripEnd(s)|;
      TrailingSpaces(s[..|s| - 1]);
      assert s[n..] == s[..|s| - 1][n..] + [s[|s| - 1]];
      AllSpaceAppend(s[..|s| - 1][n..], [s[|s| - 1]]);
    }
  }

  /** Whitespace cut off the front, then off the back, leaves a slice between whitespace. */
  lemma StripSpans(s: string, t: string, r: string)
    requires |t| <= |s| && t == s[|s| - |t|..] && AllSpace(s[..|s| - |t|])
    requires |r| <= |t| && r == t[..|r|] && AllSpace(t[|r|..])
    ensures var i := |s| - |t|;
      && i + |r| <= |s| && r == s[i..i + |r|]
      && AllSpace(s[..i]) && AllSpace(s[i + |r|..])
  {
    var i := |s| - |t|;
    assert r == s[i..i + |r|];
    assert t[|r|..] == s[i + |r|..];
  }

  /** Text without whitespace at its ends is its own strip. */
  lemma StripUnchanged(s: string)
    requires s == [] || (!IsSpace(s[0]) && !IsSpace(s[|s| - 1]))
    ensures Strip(s) == s
  {
    assert StripStart(s) == s;
    assert StripEnd(s) == s;
  }

  /** The number of occurrences of `c` in `s`. */
  function Count(s: string, c: char): nat
  {
    if s == [] then 0 else (if s[0] == c then 1 else 0) + Count(s[1..], c)
  }

  /** The inverse of `split("\n")`: the parts joined by newlines. */
  function JoinLines(parts: seq<string>): string
    requires |parts| >= 1
  {
    if |parts| == 1 then parts[0] else parts[0] + "\n" + JoinLines(parts[1..])
  }

  lemma {:induction false} JoinLinesPrepend(c: char, parts: seq<string>)
    requires |parts| >= 1
    ensures JoinLines([[c] + parts[0]] + parts[1..]) == [c] + JoinLines(parts)
  {
    var longer := [[c] + parts[0]] + parts[1..];
    if |parts| > 1 {
      assert longer[1..] == parts[1..];
      calc {
        JoinLines(longer);
        ([c] + parts[0]) + "\n" + JoinLines(parts[1..]);
        [c] + (parts[0] + "\n" + JoinLines(parts[1..]));
      }
    }
  }

  /**
   * `s.split("\n")`: one part more than there are newlines, no part holding a
   * newline, and joining the parts back gives `s`.
   */
  function Lines(s: string): (r: seq<string>)
    ensures |r| == Count(s, '\n') + 1
    ensures forall i :: 0 <= i < |r| ==> '\n' !in r[i]
    ensures JoinLines(r) == s
  {
    if s == [] then [""]
    else
      var rest := Lines(s[1..]);
      if s[0] == '\n' then
        assert s == "\n" + s[1..];
        [""] + rest
      else
        JoinLinesPrepend(s[0], rest);
        assert s == [s[0]] + s[1..];
        [[s[0]] + rest[0]] + rest[1..]
  }

  /** Python's `<=` on strings: lexicographic by code point, a prefix first. */
  predicate LexLe(a: string, b: string)
  {
    a == [] || (b != [] && (a[0] < b[0] || (a[0] == b[0] && LexLe(a[1..], b[1..]))))
  }

  lemma {:induction false} LexLeTotal(a: string, b: string)
    ensures LexLe(a, b) || LexLe(b, a)
  {
    if a != [] && b != [] && a[0] == b[0] {
      LexLeTotal(a[1..], b[1..]);
    }
  }

  lemma {:induction false} LexLeTransitive(a: string, b: string, c: string)
    requires LexLe(a, b) && LexLe(b, c)
    ensures LexLe(a, c)
  {
    if a != [] && a[0] == b[0] && b[0] == c[0] {
      LexLeTransitive(a[1..], b[1..], c[1..]);
    }
  }

  lemma {:induction false} LexLeAntisymmetric(a: string, b: string)
    requires LexLe(a, b) && LexLe(b, a)
    ensures a == b
  {
    if a != [] {
      LexLeAntisymmetric(a[1..], b[1..]);
      assert a == [a[0]] + a[1..] && b == [b[0]] + b[1..];
    }
  }
}
