/** The Python conversions the parser applies to one series entry: `datetime.strptime`,
    `float(x)` and `int(x)`. What they do with a `str` is a text grammar owned by the
    Python runtime; the model takes those grammars as a parameter (`Library`) and spells
    out everything the builtins do with the other JSON value kinds. */
module Conversions {
  import opened Wrappers
  import opened Digits
  import opened Json
  import opened Timestamps

  /** `strptime(text, '%Y-%m-%d %H:%M:%S')`, `float(text)` and `int(text)`; `None` stands for the
      `ValueError` each raises on text it rejects. */
  datatype Library = Library(
    strptime: string -> Option<DateTime>,
    floatText: string -> Option<real>,
    intText: string -> Option<int>)

  /** Rounding toward zero, as `int(x)` does for a float. */
  function Truncate(x: real): (n: int)
    ensures x >= 0.0 ==> n as real <= x < n as real + 1.0
    ensures x < 0.0 ==> n as real - 1.0 < x <= n as real
  {
    if x >= 0.0 then x.Floor else -((-x).Floor)
  }

  /** `float(v)`: a `TypeError` for null, lists and objects (the one failure the parser does
      not catch), a `ValueError` for text the grammar rejects. Floats are modelled as exact reals. */
  function ToFloat(lib: Library, v: Value): (r: Outcome<real>)
    ensures r == Raise(TypeError) <==> v.Null? || v.Array? || v.Object?
    ensures r == Raise(ValueError) <==> v.Str? && lib.floatText(v.s).None?
    ensures v == Int(0) ==> r == Return(0.0)
  {
    match v
    case Null => Raise(TypeError)
    case Bool(b) => Return(if b then 1.0 else 0.0)
    case Int(i) => Return(i as real)
    case Float(x) => Return(x)
    case Str(s) =>
      if lib.floatText(s).Some? then Return(lib.floatText(s).value) else Raise(ValueError)
    case Array(_) => Raise(TypeError)
    case Object(_) => Raise(TypeError)
  }

  /** `int(v)`: as `ToFloat`, but a float is truncated toward zero and text goes through the
      integer grammar. */
  function ToInt(lib: Library, v: Value): (r: Outcome<int>)
    ensures r == Raise(TypeError) <==> v.Null? || v.Array? || v.Object?
    ensures r == Raise(ValueError) <==> v.Str? && lib.intText(v.s).None?
    ensures v == Int(0) ==> r == Return(0)
  {
    match v
    case Null => Raise(TypeError)
    case Bool(b) => Return(if b then 1 else 0)
    case Int(i) => Return(i)
    case Float(x) => Return(Truncate(x))
    case Str(s) =>
      if lib.intText(s).Some? then Return(lib.intText(s).value) else Raise(ValueError)
    case Array(_) => Raise(TypeError)
    case Object(_) => Raise(TypeError)
  }

  /** Optional sign followed by one or more digits: a subset of what `int(text)` accepts
      (no surrounding whitespace, no underscores). */
  function IntegerText(s: string): (r: Option<int>)
    ensures r.Some? ==> |s| > 0
  {
    if |s| > 0 && (s[0] == '-' || s[0] == '+') then
      var body := s[1..];
      if |body| > 0 && AllDigits(body) then
        var n: int := ValueOf(body);
        Some(if s[0] == '-' then -n else n)
      else None
    else if |s| > 0 && AllDigits(s) then Some(ValueOf(s))
    else None
  }

  /** Index of the first '.', or |s| when there is none. */
  function DotIndex(s: string): (i: nat)
    ensures i <= |s|
    ensures i < |s| ==> s[i] == '.'
    ensures forall j | 0 <= j < i :: s[j] != '.'
  {
    if |s| == 0 then 0 else if s[0] == '.' then 0 else 1 + DotIndex(s[1..])
  }

  /** The number `whole.frac` denotes when `frac` is written in `width` digits. */
  function Decimal(whole: nat, frac: nat, width: nat): real {
    whole as real + frac as real / Pow10(width) as real
  }

  /** Digits with at most one '.', at least one digit: a subset of what `float(text)` accepts
      (no sign, exponent, whitespace, `inf` or `nan`). */
  function DecimalText(s: string): (r: Option<real>)
    ensures r.Some? ==> |s| > 0
  {
    var i := DotIndex(s);
    var whole := s[..i];
    var frac := if i < |s| then s[i + 1..] else "";
    if |whole| + |frac| > 0 && AllDigits(whole) && AllDigits(frac) then
      Some(Decimal(ValueOf(whole), ValueOf(frac), |frac|))
    else None
  }

  /** Round trip: a digit string, unsigned or after a minus or plus sign, reads back as the number it spells. */
  lemma IntegerTextOfPadded(n: nat, width: nat)
    requires 0 < width && n < Pow10(width)
    ensures IntegerText(Padded(n, width)) == Some(n)
    ensures IntegerText("-" + Padded(n, width)) == Some(-(n as int))
    ensures IntegerText("+" + Padded(n, width)) == Some(n)
  {
    var s := Padded(n, width);
    ValueOfPadded(n, width);
    assert IsDigit(s[0]);
    assert ("-" + s)[1..] == s;
    assert ("+" + s)[1..] == s;
  }

  /** Round trip: `whole.frac` in digits reads back as whole plus frac scaled by its width. */
  lemma DecimalTextOfPadded(whole: nat, wholeWidth: nat, frac: nat, fracWidth: nat)
    requires 0 < wholeWidth && whole < Pow10(wholeWidth) && frac < Pow10(fracWidth)
    ensures DecimalText(Padded(whole, wholeWidth) + "." + Padded(frac, fracWidth))
            == Some(Decimal(whole, frac, fracWidth))
  {
    var w := Padded(whole, wholeWidth);
    var f := Padded(frac, fracWidth);
    var s := w + "." + f;
    assert s[..wholeWidth] == w && s[wholeWidth + 1..] == f;
    DotIndexAt(s, wholeWidth);
    ValueOfPadded(whole, wholeWidth);
    ValueOfPadded(frac, fracWidth);
    assert |w| + |f| > 0 && AllDigits(w) && AllDigits(f);
  }

  /** The first '.' is found where it is. */
  lemma DotIndexAt(s: string, k: nat)
    requires k < |s| && s[k] == '.' && AllDigits(s[..k])
    ensures DotIndex(s) == k
  {
  }

  /** Zero-padded timestamps and plain number texts: an instance of the library that accepts
      only texts the Python builtins accept too. */
  function Plain(): Library {
    Library(Canonical, DecimalText, IntegerText)
  }
}
