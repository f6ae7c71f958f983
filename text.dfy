/**
 * String operations the source takes from Python's `str`: `k in s`, `.lower()`,
 * `str.isspace()` / the `\s` class, `sep.join(parts)`, `.replace('\n', '<br>')` and `str(int)`.
 * Lower-casing is modelled on ASCII letters only (Python lower-cases all of Unicode).
 */
module Text {

  /** `p` is a prefix of `s`. */
  predicate IsPrefix(p: string, s: string) {
    |p| <= |s| && s[..|p|] == p
  }

  /** Python's `k in s` for two strings: `k` occurs in `s` as a contiguous substring. */
  predicate Contains(s: string, k: string)
    decreases |s|
  {
    IsPrefix(k, s) || (|s| > 0 && Contains(s[1..], k))
  }

  /** `k` occurs in `a + k + c`, wherever the seams fall. */
  lemma {:induction false} ContainsMiddle(a: string, k: string, c: string)
    ensures Contains(a + k + c, k)
  {
    if a == [] {
      assert a + k + c == k + c;
      assert (k + c)[..|k|] == k;
    } else {
      assert (a + k + c)[1..] == a[1..] + k + c;
      ContainsMiddle(a[1..], k, c);
    }
  }

  /** An occurrence at a known position is an occurrence. */
  lemma {:induction false} ContainsAt(s: string, k: string, i: nat)
    requires i + |k| <= |s| && s[i..i + |k|] == k
    ensures Contains(s, k)
  {
    if i > 0 {
      assert s[1..][i - 1..i - 1 + |k|] == s[i..i + |k|];
      ContainsAt(s[1..], k, i - 1);
    }
  }

  /** An occurrence in `s` stays an occurrence when text is appended. */
  lemma {:induction false} ContainsAppend(s: string, k: string, t: string)
    requires Contains(s, k)
    ensures Contains(s + t, k)
  {
    if IsPrefix(k, s) {
      assert (s + t)[..|k|] == s[..|k|];
    } else {
      assert (s + t)[1..] == s[1..] + t;
      ContainsAppend(s[1..], k, t);
    }
  }

  /** An occurrence in `s` stays an occurrence when text is prepended. */
  lemma {:induction false} ContainsPrepend(a: string, s: string, k: string)
    requires Contains(s, k)
    ensures Contains(a + s, k)
  {
    if a != [] {
      assert (a + s)[1..] == a[1..] + s;
      ContainsPrepend(a[1..], s, k);
    } else {
      assert a + s == s;
    }
  }

  /** A character absent from `s` rules out every key holding it. */
  lemma {:induction false} NotContainsChar(s: string, k: string, c: char)
    requires c in k && c !in s
    ensures !Contains(s, k)
  {
    if |k| <= |s| {
      var j :| 0 <= j < |k| && k[j] == c;
      assert s[..|k|][j] != c;
    }
    if |s| > 0 {
      NotContainsChar(s[1..], k, c);
    }
  }

  /** Python's `c.lower()` on ASCII capitals; every other character is kept. */
  function LowerChar(c: char): char {
    if 'A' <= c <= 'Z' then (c as int + 32) as char else c
  }

  /** Python's `s.lower()`, ASCII approximation. */
  function Lower(s: string): (r: string)
    ensures |r| == |s|
    ensures forall i :: 0 <= i < |s| ==> r[i] == LowerChar(s[i])
  {
    if s == [] then [] else [LowerChar(s[0])] + Lower(s[1..])
  }

  /** A string whose characters lower-case one by one to those of `t` lower-cases to `t`. */
  lemma LowerPointwise(s: string, t: string)
    requires |s| == |t| && forall i :: 0 <= i < |s| ==> LowerChar(s[i]) == t[i]
    ensures Lower(s) == t
  {
  }

  /** Two strings that differ only in the case of ASCII letters. */
  predicate SameUpToCase(s: string, t: string) {
    |s| == |t| && forall i :: 0 <= i < |s| ==> LowerChar(s[i]) == LowerChar(t[i])
  }

  /** Lower-casing forgets exactly the case of letters. */
  lemma LowerSameUpToCase(s: string, t: string)
    requires SameUpToCase(s, t)
    ensures Lower(s) == Lower(t)
  {
  }

  /** Lower-casing commutes with concatenation. */
  lemma LowerConcat(a: string, b: string)
    ensures Lower(a + b) == Lower(a) + Lower(b)
  {
  }

  /** Python's `str.isspace()` for one character, which is also what `\s` matches in a
   *  `str` pattern: the ASCII separators, the information separators 0x1c-0x1f, and the
   *  Unicode space characters. */
  predicate IsSpace(c: char) {
    var n := c as int;
    n == 0x20 || (0x09 <= n <= 0x0d) || (0x1c <= n <= 0x1f) || n == 0x85 || n == 0xa0
    || n == 0x1680 || (0x2000 <= n <= 0x200a) || n == 0x2028 || n == 0x2029
    || n == 0x202f || n == 0x205f || n == 0x3000
  }

  /** Python's `sep.join(parts)`. */
  function Join(parts: seq<string>, sep: string): string {
    if |parts| == 0 then ""
    else if |parts| == 1 then parts[0]
    else parts[0] + sep + Join(parts[1..], sep)
  }

  /** Python's `s.split(' ')` (an explicit separator: empty fields are kept). */
  function SplitSpace(s: string): (r: seq<string>)
    ensures |r| >= 1
    decreases |s|
  {
    if s == [] then [""]
    else if s[0] == ' ' then [""] + SplitSpace(s[1..])
    else
      var rest := SplitSpace(s[1..]);
      [[s[0]] + rest[0]] + rest[1..]
  }

  /** Splitting a word with no space in it, followed by more text, keeps the word whole. */
  lemma {:induction false} SplitWordThenSpace(w: string, t: string)
    requires ' ' !in w
    ensures SplitSpace(w + " " + t) == [w] + SplitSpace(t)
  {
    if w == [] {
      assert w + " " + t == [' '] + t;
      assert (w + " " + t)[1..] == t;
    } else {
      assert (w + " " + t)[0] == w[0] && w[0] != ' ';
      assert (w + " " + t)[1..] == w[1..] + " " + t;
      SplitWordThenSpace(w[1..], t);
      assert [w[0]] + w[1..] == w;
    }
  }

  /** A word with no space in it splits into itself. */
  lemma {:induction false} SplitWord(w: string)
    requires ' ' !in w
    ensures SplitSpace(w) == [w]
  {
    if w != [] {
      assert w[1..] + [] == w[1..];
      SplitWord(w[1..]);
      assert [w[0]] + w[1..] == w;
    }
  }

  /** Joining with single spaces and splitting on single spaces are inverse, as long as
   *  no part holds a space itself. */
  lemma {:induction false} SplitJoin(parts: seq<string>)
    requires |parts| >= 1
    requires forall i :: 0 <= i < |parts| ==> ' ' !in parts[i]
    ensures SplitSpace(Join(parts, " ")) == parts
  {
    if |parts| == 1 {
      SplitWord(parts[0]);
    } else {
      SplitJoin(parts[1..]);
      SplitWordThenSpace(parts[0], Join(parts[1..], " "));
    }
  }

  /** Python's `s.replace('\n', '<br>')`. */
  function BreakLines(s: string): (r: string)
    ensures '\n' !in r
  {
    if s == [] then []
    else (if s[0] == '\n' then "<br>" else [s[0]]) + BreakLines(s[1..])
  }

  /** Text with no line break passes through `BreakLines` untouched, and every other
   *  line break becomes exactly four characters. */
  lemma {:induction false} BreakLinesLength(s: string)
    ensures |BreakLines(s)| == |s| + 3 * multiset(s)['\n']
    ensures '\n' !in s ==> BreakLines(s) == s
  {
    if s != [] {
      BreakLinesLength(s[1..]);
      assert s == [s[0]] + s[1..];
      assert multiset(s) == multiset{s[0]} + multiset(s[1..]);
    }
  }

  /** The decimal digits of a natural number, as Python's `str(n)` writes them. */
  function NatToString(n: nat): (r: string)
    ensures |r| >= 1
    ensures forall i :: 0 <= i < |r| ==> '0' <= r[i] <= '9'
  {
    if n < 10 then [DigitChar(n)] else NatToString(n / 10) + [DigitChar(n % 10)]
  }

  function DigitChar(d: nat): (c: char)
    requires d < 10
  {
    ('0' as int + d) as char
  }

  /** Python's `str(n)` for an int. */
  function IntToString(n: int): string {
    if n < 0 then "-" + NatToString(-n) else NatToString(n)
  }

  /** Concatenation regroups freely; the solver does not always find this on its own. */
  lemma AppendAssoc<T>(x: seq<T>, y: seq<T>, z: seq<T>)
    ensures x + (y + z) == x + y + z
  {
  }
}
