/**
 * The body clean-up of `EmailProcessor.process_email_body` (app/email_service.py):
 * `re.sub(r'\s+', ' ', body).strip()`. Python's `\s` on `str` patterns and the
 * argument-less `strip()` both use the `str.isspace` class, which `Text.IsSpace` gives.
 */
module Whitespace {
  import opened Text

  /** Drops the leading run of whitespace. */
  function DropSpace(s: string): (r: string)
    ensures |r| <= |s| && r == s[|s| - |r|..]
    ensures r == [] || !IsSpace(r[0])
    ensures forall i :: 0 <= i < |s| - |r| ==> IsSpace(s[i])
  {
    if s != [] && IsSpace(s[0]) then DropSpace(s[1..]) else s
  }

  /** Drops the trailing run of whitespace. */
  function DropTrailingSpace(s: string): (r: string)
    ensures |r| <= |s| && r == s[..|r|]
    ensures r == [] || !IsSpace(r[|r| - 1])
    ensures forall i :: |r| <= i < |s| ==> IsSpace(s[i])
  {
    if s != [] && IsSpace(s[|s| - 1]) then DropTrailingSpace(s[..|s| - 1]) else s
  }

  /** `re.sub(r'\s+', ' ', s)`: every maximal run of whitespace becomes one ' '. */
  function Collapse(s: string): (r: string)
    ensures s == [] <==> r == []
    ensures s != [] ==> r[0] == (if IsSpace(s[0]) then ' ' else s[0])
    decreases |s|
  {
    if s == [] then []
    else if IsSpace(s[0]) then " " + Collapse(DropSpace(s[1..]))
    else [s[0]] + Collapse(s[1..])
  }

  /** `s.strip()`. */
  function Strip(s: string): string {
    DropTrailingSpace(DropSpace(s))
  }

  /** The clean-up applied to every extracted body. */
  function Clean(s: string): string {
    Strip(Collapse(s))
  }

  /** Every whitespace character is a plain ' ' and is followed by a non-space. */
  predicate Spaced(s: string) {
    && (forall i :: 0 <= i < |s| && IsSpace(s[i]) ==> s[i] == ' ')
    && (forall i, j :: 0 <= i < |s| && 0 <= j < |s| && j == i + 1 ==> !(IsSpace(s[i]) && IsSpace(s[j])))
  }

  /** Single-spaced with no whitespace at either end: the shape of a cleaned body. */
  predicate Normal(s: string) {
    Spaced(s) && (s == [] || (!IsSpace(s[0]) && !IsSpace(s[|s| - 1])))
  }

  /** The non-whitespace characters of `s`, in order. */
  function NonSpace(s: string): string {
    if s == [] then [] else (if IsSpace(s[0]) then [] else [s[0]]) + NonSpace(s[1..])
  }

  lemma {:induction false} NonSpaceAppend(a: string, b: string)
    ensures NonSpace(a + b) == NonSpace(a) + NonSpace(b)
  {
    if a == [] {
      assert a + b == b;
    } else {
      assert (a + b)[1..] == a[1..] + b;
      NonSpaceAppend(a[1..], b);
    }
  }

  lemma {:induction false} NonSpaceOfSpaces(a: string)
    requires forall i :: 0 <= i < |a| ==> IsSpace(a[i])
    ensures NonSpace(a) == []
  {
    if a != [] {
      NonSpaceOfSpaces(a[1..]);
    }
  }

  /** Dropping leading whitespace loses no visible character. */
  lemma NonSpaceDropSpace(s: string)
    ensures NonSpace(DropSpace(s)) == NonSpace(s)
  {
    var d := DropSpace(s);
    var head := s[..|s| - |d|];
    assert s == head + d;
    forall i | 0 <= i < |head| ensures IsSpace(head[i]) {
      assert head[i] == s[i];
    }
    NonSpaceAppend(head, d);
    NonSpaceOfSpaces(head);
  }

  /** Collapsing leaves a single-spaced string with the same visible characters. */
  lemma {:induction false} CollapseSpaced(s: string)
    ensures Spaced(Collapse(s))
    ensures NonSpace(Collapse(s)) == NonSpace(s)
    decreases |s|
  {
    if s == [] {
    } else if IsSpace(s[0]) {
      var d := DropSpace(s[1..]);
      var c := Collapse(d);
      CollapseSpaced(d);
      assert c == [] || !IsSpace(c[0]);
      assert Collapse(s) == " " + c;
      assert (" " + c)[1..] == c;
      NonSpaceDropSpace(s[1..]);
    } else {
      var c := Collapse(s[1..]);
      CollapseSpaced(s[1..]);
      assert Collapse(s) == [s[0]] + c;
      assert ([s[0]] + c)[1..] == c;
    }
  }

  /** Leading whitespace that ends inside `a` is dropped inside `a`. */
  lemma {:induction false} DropSpaceAppend(a: string, t: string)
    requires a != [] && !IsSpace(a[|a| - 1])
    ensures DropSpace(a + t) == DropSpace(a) + t
  {
    if IsSpace(a[0]) {
      assert (a + t)[1..] == a[1..] + t;
      DropSpaceAppend(a[1..], t);
    }
  }

  /** Whitespace followed by text that starts visibly is dropped entirely. */
  lemma {:induction false} DropSpaceOfSpaces(w: string, b: string)
    requires forall i :: 0 <= i < |w| ==> IsSpace(w[i])
    requires b == [] || !IsSpace(b[0])
    ensures DropSpace(w + b) == b
  {
    if w == [] {
      assert w + b == b;
    } else {
      assert (w + b)[1..] == w[1..] + b;
      DropSpaceOfSpaces(w[1..], b);
    }
  }

  /** One step of `Collapse` on text that starts with whitespace. */
  lemma CollapseSpaceHead(s: string)
    requires s != [] && IsSpace(s[0])
    ensures Collapse(s) == " " + Collapse(DropSpace(s[1..]))
  {
  }

  /** One step of `Collapse` on text that starts with a visible character. */
  lemma CollapseCharHead(s: string)
    requires s != [] && !IsSpace(s[0])
    ensures Collapse(s) == [s[0]] + Collapse(s[1..])
  {
  }

  /** Text that ends visibly collapses on its own: no whitespace run crosses its end. */
  lemma {:induction false} CollapseAppend(a: string, t: string)
    requires a == [] || !IsSpace(a[|a| - 1])
    ensures Collapse(a + t) == Collapse(a) + Collapse(t)
    decreases |a|, 1
  {
    if a == [] {
      assert a + t == t;
    } else if IsSpace(a[0]) {
      CollapseAppendSpace(a, t);
    } else {
      CollapseAppendChar(a, t);
    }
  }

  /** `CollapseAppend` when `a` starts with a visible character, which is kept. */
  lemma {:induction false} CollapseAppendChar(a: string, t: string)
    requires a != [] && !IsSpace(a[0]) && !IsSpace(a[|a| - 1])
    ensures Collapse(a + t) == Collapse(a) + Collapse(t)
    decreases |a|, 0
  {
    var u := a[1..];
    var at := a + t;
    assert at[0] == a[0] && at[1..] == u + t;
    assert u == [] || u[|u| - 1] == a[|a| - 1];
    CollapseCharHead(at);
    CollapseCharHead(a);
    CollapseAppend(u, t);
    AppendAssoc([a[0]], Collapse(u), Collapse(t));
  }

  /** `CollapseAppend` when `a` starts with whitespace: its leading run stays inside it. */
  lemma {:induction false} CollapseAppendSpace(a: string, t: string)
    requires a != [] && IsSpace(a[0]) && !IsSpace(a[|a| - 1])
    ensures Collapse(a + t) == Collapse(a) + Collapse(t)
    decreases |a|, 0
  {
    var u := a[1..];
    var at := a + t;
    assert at[0] == a[0] && at[1..] == u + t;
    assert |u| >= 1 && u[|u| - 1] == a[|a| - 1];
    DropSpaceAppend(u, t);
    var d := DropSpace(u);
    assert d == [] || d[|d| - 1] == u[|u| - 1];
    CollapseSpaceHead(at);
    CollapseSpaceHead(a);
    CollapseAppend(d, t);
    AppendAssoc(" ", Collapse(d), Collapse(t));
  }

  /** A whitespace run before text that starts visibly collapses to one ' '. */
  lemma {:induction false} CollapseSpaceRun(w: string, b: string)
    requires w != [] && forall i :: 0 <= i < |w| ==> IsSpace(w[i])
    requires b == [] || !IsSpace(b[0])
    ensures Collapse(w + b) == " " + Collapse(b)
  {
    var wb := w + b;
    assert wb[0] == w[0] && wb[1..] == w[1..] + b;
    forall i | 0 <= i < |w[1..]| ensures IsSpace(w[1..][i]) {
      assert w[1..][i] == w[i + 1];
    }
    DropSpaceOfSpaces(w[1..], b);
  }

  /** Whitespace between two pieces of text becomes exactly one ' ', and each side
   *  collapses on its own: collapsing never joins two words and never splits one. */
  lemma {:induction false} CollapseSeparates(a: string, w: string, b: string)
    requires a == [] || !IsSpace(a[|a| - 1])
    requires w != [] && forall i :: 0 <= i < |w| ==> IsSpace(w[i])
    requires b == [] || !IsSpace(b[0])
    ensures Collapse(a + w + b) == Collapse(a) + " " + Collapse(b)
  {
    assert a + w + b == a + (w + b);
    CollapseAppend(a, w + b);
    CollapseSpaceRun(w, b);
  }

  lemma SpacedSlice(t: string, a: nat, b: nat)
    requires Spaced(t) && a <= b <= |t|
    ensures Spaced(t[a..b])
  {
    forall i | 0 <= i < b - a && IsSpace(t[a..b][i])
      ensures t[a..b][i] == ' ' && (i + 1 < b - a ==> !IsSpace(t[a..b][i + 1]))
    {
      assert t[a..b][i] == t[a + i];
    }
  }

  /** Dropping trailing whitespace loses no visible character. */
  lemma NonSpaceDropTrailingSpace(s: string)
    ensures NonSpace(DropTrailingSpace(s)) == NonSpace(s)
  {
    var r := DropTrailingSpace(s);
    var tail := s[|r|..];
    assert s == r + tail;
    forall i | 0 <= i < |tail| ensures IsSpace(tail[i]) {
      assert tail[i] == s[|r| + i];
    }
    NonSpaceAppend(r, tail);
    NonSpaceOfSpaces(tail);
  }

  /** Stripping drops only whitespace. */
  lemma NonSpaceStrip(t: string)
    ensures NonSpace(Strip(t)) == NonSpace(t)
  {
    NonSpaceDropSpace(t);
    NonSpaceDropTrailingSpace(DropSpace(t));
  }

  /** Stripping a single-spaced string leaves a normal one with the same visible
   *  characters. */
  lemma SpacedDropSpace(t: string)
    requires Spaced(t)
    ensures Spaced(DropSpace(t))
  {
    var d := DropSpace(t);
    assert t[|t| - |d|..|t|] == d;
    SpacedSlice(t, |t| - |d|, |t|);
  }

  lemma SpacedDropTrailingSpace(d: string)
    requires Spaced(d)
    ensures Spaced(DropTrailingSpace(d))
  {
    var r := DropTrailingSpace(d);
    assert d[0..|r|] == r;
    SpacedSlice(d, 0, |r|);
  }

  lemma StripSpaced(t: string)
    requires Spaced(t)
    ensures Normal(Strip(t))
    ensures NonSpace(Strip(t)) == NonSpace(t)
  {
    var d := DropSpace(t);
    var r := DropTrailingSpace(d);
    assert Strip(t) == r;
    SpacedDropSpace(t);
    SpacedDropTrailingSpace(d);
    if r != [] {
      assert r[0] == d[0];
    }
    NonSpaceStrip(t);
  }

  /** A cleaned body is single-spaced, has no whitespace at either end, and keeps every
   *  visible character of the original in its original order. */
  lemma CleanIsNormal(s: string)
    ensures Normal(Clean(s))
    ensures NonSpace(Clean(s)) == NonSpace(s)
  {
    CollapseSpaced(s);
    StripSpaced(Collapse(s));
  }

  lemma {:induction false} CollapseKeepsSpaced(s: string)
    requires Spaced(s)
    ensures Collapse(s) == s
    decreases |s|
  {
    if s != [] {
      var u := s[1..];
      assert s == [s[0]] + u;
      SpacedSlice(s, 1, |s|);
      assert s[1..|s|] == u;
      CollapseKeepsSpaced(u);
      if IsSpace(s[0]) {
        assert u == [] || !IsSpace(u[0]) by {
          if u != [] { assert u[0] == s[1]; }
        }
        assert DropSpace(u) == u;
        CollapseSpaceHead(s);
      } else {
        CollapseCharHead(s);
      }
    }
  }

  /** A body already in normal form is left as it is. */
  lemma CleanKeepsNormal(s: string)
    requires Normal(s)
    ensures Clean(s) == s
  {
    CollapseKeepsSpaced(s);
  }

  /** Cleaning twice is cleaning once. */
  lemma CleanIdempotent(s: string)
    ensures Clean(Clean(s)) == Clean(s)
  {
    CleanIsNormal(s);
    CleanKeepsNormal(Clean(s));
  }

  /** The strings the clean-up leaves unchanged are exactly the normal ones. */
  lemma CleanFixpoints(s: string)
    ensures Clean(s) == s <==> Normal(s)
  {
    CleanIsNormal(s);
    if Normal(s) {
      CleanKeepsNormal(s);
    }
  }
}
