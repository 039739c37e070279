/** The JavaScript values that flow through the application's records (database
    rows, user metadata, form fields), with the two coercions the code relies on:
    truthiness (`a || b`) and `Number(v)`. Numbers are exact reals here. */
module JsValues {
  import opened Common

  datatype Value = Undefined | Null | Bool(b: bool) | Num(x: real) | Str(s: string)

  /** JavaScript truthiness. */
  predicate Truthy(v: Value) {
    match v
    case Undefined => false
    case Null => false
    case Bool(b) => b
    case Num(x) => x != 0.0
    case Str(s) => s != ""
  }

  /** `a || b`: the first operand when it is truthy, otherwise the second. */
  function Or(a: Value, b: Value): Value {
    if Truthy(a) then a else b
  }

  function Pow10(k: nat): (p: nat)
    ensures p >= 1
  {
    if k == 0 then 1 else 10 * Pow10(k - 1)
  }

  /** Index of the first '.' in `s`, if any. */
  function DotIndex(s: string): (r: Option<nat>)
    ensures r.Some? ==> r.value < |s| && s[r.value] == '.' && forall j :: 0 <= j < r.value ==> s[j] != '.'
    ensures r.None? ==> forall j :: 0 <= j < |s| ==> s[j] != '.'
  {
    if s == [] then None
    else if s[0] == '.' then Some(0)
    else match DotIndex(s[1..])
      case None => None
      case Some(k) => Some(k + 1)
  }

  /** An unsigned decimal numeral: digits, optionally a '.' and more digits, with at
      least one digit overall (so "12", "12.50", "1." and ".5" are numerals, "." is not). */
  function ParseUnsigned(s: string): Option<real> {
    match DotIndex(s)
    case None =>
      if s != [] && AllDigits(s) then Some(DigitsValue(s) as real) else None
    case Some(k) => WithFraction(s[..k], s[k + 1..])
  }

  /** The numeral `whole.frac`, when both parts are digit strings and not both empty. */
  function WithFraction(whole: string, frac: string): Option<real> {
    if AllDigits(whole) && AllDigits(frac) && |whole| + |frac| > 0 then
      Some(DigitsValue(whole) as real + DigitsValue(frac) as real / Pow10(|frac|) as real)
    else None
  }

  /** `Number(s)` for a string: the empty string is 0, a signed or unsigned decimal
      numeral is its value, and anything else is NaN (`None`). */
  function ParseNumeric(s: string): Option<real> {
    if s == "" then Some(0.0)
    else if s[0] == '-' then
      match ParseUnsigned(s[1..])
      case None => None
      case Some(x) => Some(-x)
    else if s[0] == '+' then ParseUnsigned(s[1..])
    else ParseUnsigned(s)
  }

  /** `Number(v)`; `None` stands for NaN. */
  function ToNumber(v: Value): Option<real> {
    match v
    case Undefined => None
    case Null => Some(0.0)
    case Bool(b) => Some(if b then 1.0 else 0.0)
    case Num(x) => Some(x)
    case Str(s) => ParseNumeric(s)
  }

  /** `Number(v) || 0`: the numeric value of `v`, and 0 when it is NaN. */
  function NumberOr0(v: Value): real {
    match ToNumber(v)
    case None => 0.0
    case Some(x) => x
  }

  /** A whole amount that the database returns as a numeral string reads back as itself,
      and so does its negation. */
  lemma NumberOr0Numeral(n: nat)
    ensures NumberOr0(Str(NatStr(n))) == n as real
    ensures NumberOr0(Str("-" + NatStr(n))) == -(n as real)
  {
    var s := NatStr(n);
    NatStrRoundTrip(n);
    assert DotIndex(s).None?;
    assert s[0] != '-' && s[0] != '+';
    assert ("-" + s)[1..] == s;
  }

  lemma {:induction false} DotIndexAfterDigits(w: string, rest: string)
    requires AllDigits(w)
    ensures DotIndex(w + "." + rest) == Some(|w|)
  {
    if w != [] {
      assert (w + "." + rest)[1..] == w[1..] + "." + rest;
      DotIndexAfterDigits(w[1..], rest);
    }
  }

  lemma ParseUnsignedFraction(w: string, frac: string)
    requires AllDigits(w)
    ensures ParseUnsigned(w + "." + frac) == WithFraction(w, frac)
  {
    var s := w + "." + frac;
    DotIndexAfterDigits(w, frac);
    assert s[..|w|] == w && s[|w| + 1..] == frac;
  }

  /** A numeral with a fractional part is read as whole part plus fraction. */
  lemma NumberOr0Decimal(whole: nat, frac: string)
    requires AllDigits(frac) && frac != []
    ensures NumberOr0(Str(NatStr(whole) + "." + frac))
         == whole as real + DigitsValue(frac) as real / Pow10(|frac|) as real
  {
    var w := NatStr(whole);
    var s := w + "." + frac;
    NatStrRoundTrip(whole);
    ParseUnsignedFraction(w, frac);
    assert s[0] == w[0];
    assert ParseNumeric(s) == WithFraction(w, frac);
  }

  /** Values that are not numerals count as 0. */
  lemma NumberOr0NonNumeric()
    ensures NumberOr0(Undefined) == 0.0
    ensures NumberOr0(Null) == 0.0
    ensures NumberOr0(Str("")) == 0.0
    ensures NumberOr0(Str("abc")) == 0.0
    ensures NumberOr0(Str(".")) == 0.0
  {
    assert DotIndex("abc").None?;
    assert !AllDigits("abc") by { assert !IsDigit("abc"[0]); }
    assert "."[..0] == [] && "."[1..] == [];
  }
}
