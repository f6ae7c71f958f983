/**
 * Python's f-strings, as far as the prompts of the classifier and of the reply generator
 * use them. A template is literal text and replacement fields. Evaluation goes left to
 * right: each field's expression is evaluated and its value formatted with the field's
 * format spec at once, and the first field that raises ends the evaluation with that
 * exception. Braces written twice in the source (`{{`, `}}`) are literal text here.
 */
module FString {
  import opened Wrappers
  import opened Text

  /** The expression inside a replacement field. */
  datatype Expr =
    | Item(key: string)   // `d['key']`: a KeyError when the key is absent
    | Get(key: string)    // `d.get('key', '')`: the empty string when the key is absent
    | Str(s: string)      // a str needing no lookup: a string literal or an attribute

  datatype Piece = Lit(text: string) | Field(expr: Expr, spec: string)

  /** What evaluating a template raises: a KeyError, or the ValueError of a format spec that
   *  the value does not accept. */
  datatype FormatError = KeyError(key: string) | InvalidSpec(spec: string)

  predicate IsDigit(c: char) { '0' <= c <= '9' }

  /** The alignments a str accepts; `=` is refused for strings. */
  predicate IsAlign(c: char) { c == '<' || c == '>' || c == '^' }

  /** The number of leading decimal digits. */
  function DigitCount(s: string): (n: nat)
    ensures n <= |s|
    ensures forall i :: 0 <= i < n ==> IsDigit(s[i])
    ensures n < |s| ==> !IsDigit(s[n])
  {
    if s != [] && IsDigit(s[0]) then 1 + DigitCount(s[1..]) else 0
  }

  /** The value of a run of decimal digits. */
  function DecimalValue(s: string): nat
    requires forall i :: 0 <= i < |s| ==> IsDigit(s[i])
  {
    if s == [] then 0
    else
      assert IsDigit(s[|s| - 1]);
      10 * DecimalValue(s[..|s| - 1]) + (s[|s| - 1] as int - '0' as int)
  }

  /** A format spec as `str.__format__` reads it. */
  datatype StrSpec = StrSpec(fill: char, align: char, width: nat, precision: Option<nat>)

  /** The standard format-spec grammar `[[fill]align][sign][z][#][0][width][grouping][.precision][type]`
   *  as a str applies it. A sign, `z`, `#`, `=` alignment, a grouping option and any type
   *  but `s` raise for a str, which leaves `[[fill]align][0][width][.precision][s]`. A
   *  leading `0` without an explicit fill pads with zeros, and a `.` needs digits after it.
   *  Anything left over is an invalid format specifier. */
  function ParseStrSpec(spec: string): (r: Option<StrSpec>)
    ensures spec == [] ==> r == Some(StrSpec(' ', '<', 0, None))
    ensures r.Some? ==> IsAlign(r.value.align)
    ensures r.Some? && |spec| >= 1 && !IsAlign(spec[0]) && (|spec| < 2 || !IsAlign(spec[1])) ==>
              spec[0] == '.' || spec[0] == 's' || IsDigit(spec[0])
  {
    if |spec| >= 2 && IsAlign(spec[1]) then ParseWidth(Some(spec[0]), spec[1], spec[2..])
    else if |spec| >= 1 && IsAlign(spec[0]) then ParseWidth(None, spec[0], spec[1..])
    else ParseWidth(None, '<', spec)
  }

  /** The part of a spec after `[[fill]align]`: `[0][width][.precision][s]`. */
  function ParseWidth(fill: Option<char>, align: char, rest: string): (r: Option<StrSpec>)
    ensures rest == [] ==> r == Some(StrSpec(if fill.Some? then fill.value else ' ', align, 0, None))
    ensures r.Some? ==> r.value.align == align
    ensures r.Some? && rest != [] ==> rest[0] == '.' || rest[0] == 's' || IsDigit(rest[0])
  {
    var w := DigitCount(rest);
    var afterWidth := rest[w..];
    var padding := if fill.Some? then fill.value else if w > 0 && rest[0] == '0' then '0' else ' ';
    if afterWidth != [] && afterWidth[0] == '.' then
      var p := DigitCount(afterWidth[1..]);
      var tail := afterWidth[1 + p..];
      if p > 0 && (tail == [] || tail == "s") then
        Some(StrSpec(padding, align, DecimalValue(rest[..w]), Some(DecimalValue(afterWidth[1..1 + p]))))
      else None
    else if afterWidth == [] || afterWidth == "s" then
      Some(StrSpec(padding, align, DecimalValue(rest[..w]), None))
    else None
  }

  /** A spec whose first character starts none of the accepted parts, and whose second is
   *  no alignment, is an invalid format specifier. */
  lemma SpecRejected(spec: string)
    requires |spec| >= 2 && !IsAlign(spec[0]) && !IsAlign(spec[1])
    requires !IsDigit(spec[0]) && spec[0] != '.' && spec[0] != 's'
    ensures ParseStrSpec(spec).None?
  {
  }

  /** `n` copies of `c`. */
  function Repeat(c: char, n: nat): (r: string)
    ensures |r| == n && forall i :: 0 <= i < n ==> r[i] == c
  {
    seq(n, _ => c)
  }

  /** The text cut to the precision, when there is one. */
  function Truncated(s: string, precision: Option<nat>): (t: string)
    ensures precision.Some? && precision.value < |s| ==> t == s[..precision.value]
    ensures !(precision.Some? && precision.value < |s|) ==> t == s
  {
    if precision.Some? && precision.value < |s| then s[..precision.value] else s
  }

  /** `format(s, spec)` for a str: cut to the precision, then pad with the fill up to the
   *  width, after the text for `<`, before it for `>`, and on both sides for `^` with the
   *  smaller half before. */
  function FormatStr(s: string, f: StrSpec): (r: string)
    requires IsAlign(f.align)
    ensures var t := Truncated(s, f.precision);
      var pad := if |t| < f.width then f.width - |t| else 0;
      var before := if f.align == '<' then 0 else if f.align == '>' then pad else pad / 2;
      && |r| == |t| + pad
      && r[before..before + |t|] == t
      && (forall i :: 0 <= i < before ==> r[i] == f.fill)
      && (forall i :: before + |t| <= i < |r| ==> r[i] == f.fill)
  {
    var t := Truncated(s, f.precision);
    var pad := if |t| < f.width then f.width - |t| else 0;
    var before := if f.align == '<' then 0 else if f.align == '>' then pad else pad / 2;
    Repeat(f.fill, before) + t + Repeat(f.fill, pad - before)
  }

  /** Evaluating a field's expression. */
  function Eval<V>(e: Expr, env: map<string, V>, show: V -> string): Result<string, FormatError> {
    match e
    case Item(k) => if k in env then Success(show(env[k])) else Failure(KeyError(k))
    case Get(k) => Success(if k in env then show(env[k]) else "")
    case Str(s) => Success(s)
  }

  /** The exception a piece raises, if any: a missing subscripted key, else a spec the
   *  value refuses. */
  function PieceError<V>(p: Piece, env: map<string, V>): Option<FormatError> {
    match p
    case Lit(_) => None
    case Field(e, spec) =>
      if e.Item? && e.key !in env then Some(KeyError(e.key))
      else if ParseStrSpec(spec).None? then Some(InvalidSpec(spec))
      else None
  }

  /** One piece: literal text as it stands, a field evaluated and then formatted. The value
   *  is formatted as a str (`show` is `str()`); no field in the modelled prompts puts a
   *  spec on anything but a string literal. */
  function FormatPiece<V>(p: Piece, env: map<string, V>, show: V -> string): (r: Result<string, FormatError>)
    ensures r.Failure? <==> PieceError(p, env).Some?
    ensures r.Failure? ==> r.error == PieceError(p, env).value
    ensures p.Lit? ==> r == Success(p.text)
  {
    match p
    case Lit(t) => Success(t)
    case Field(e, spec) =>
      match Eval(e, env, show)
      case Failure(err) => Failure(err)
      case Success(v) =>
        match ParseStrSpec(spec)
        case None => Failure(InvalidSpec(spec))
        case Some(f) => Success(FormatStr(v, f))
  }

  /** The f-string's value, or the first exception. */
  function Render<V>(pieces: seq<Piece>, env: map<string, V>, show: V -> string): Result<string, FormatError> {
    if pieces == [] then Success("")
    else
      match FormatPiece(pieces[0], env, show)
      case Failure(e) => Failure(e)
      case Success(head) =>
        match Render(pieces[1..], env, show)
        case Failure(e) => Failure(e)
        case Success(tail) => Success(head + tail)
  }

  /** The first piece that raises decides: the f-string raises its exception. */
  lemma {:induction false} RenderFails<V>(pieces: seq<Piece>, env: map<string, V>, show: V -> string, i: nat)
    requires i < |pieces| && PieceError(pieces[i], env).Some?
    requires forall j :: 0 <= j < i ==> PieceError(pieces[j], env).None?
    ensures Render(pieces, env, show) == Failure(PieceError(pieces[i], env).value)
  {
    if i > 0 {
      RenderFails(pieces[1..], env, show, i - 1);
    }
  }

  /** An f-string made of two parts raises the first part's exception, else the second's,
   *  and otherwise its value is the two values one after the other. */
  lemma {:induction false} RenderConcat<V>(a: seq<Piece>, b: seq<Piece>, env: map<string, V>, show: V -> string)
    ensures Render(a + b, env, show) ==
      match Render(a, env, show)
      case Failure(e) => Failure(e)
      case Success(x) =>
        match Render(b, env, show)
        case Failure(e) => Failure(e)
        case Success(y) => Success(x + y)
  {
    if a == [] {
      assert a + b == b;
      if Render(b, env, show).Success? {
        assert "" + Render(b, env, show).value == Render(b, env, show).value;
      }
    } else {
      assert (a + b)[0] == a[0] && (a + b)[1..] == a[1..] + b;
      RenderConcat(a[1..], b, env, show);
      if FormatPiece(a[0], env, show).Success? && Render(a[1..], env, show).Success? && Render(b, env, show).Success? {
        AppendAssoc(FormatPiece(a[0], env, show).value, Render(a[1..], env, show).value, Render(b, env, show).value);
      }
    }
  }

  /** When no piece raises, neither does the f-string, and every piece of literal text
   *  appears in its value. */
  lemma {:induction false} RenderSucceeds<V>(pieces: seq<Piece>, env: map<string, V>, show: V -> string)
    requires forall i :: 0 <= i < |pieces| ==> PieceError(pieces[i], env).None?
    ensures Render(pieces, env, show).Success?
    ensures forall i :: 0 <= i < |pieces| && pieces[i].Lit? ==>
              Contains(Render(pieces, env, show).value, pieces[i].text)
  {
    if pieces != [] {
      RenderSucceeds(pieces[1..], env, show);
      var head := FormatPiece(pieces[0], env, show).value;
      var tail := Render(pieces[1..], env, show).value;
      assert Render(pieces, env, show).value == head + tail;
      forall i | 0 <= i < |pieces| && pieces[i].Lit?
        ensures Contains(head + tail, pieces[i].text)
      {
        if i == 0 {
          ContainsMiddle([], head, tail);
          assert [] + head + tail == head + tail;
        } else {
          assert pieces[1..][i - 1] == pieces[i];
          ContainsPrepend(head, tail, pieces[i].text);
        }
      }
    }
  }
}
