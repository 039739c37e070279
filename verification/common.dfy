/** Option and Result wrappers, and the decimal rendering of naturals that both the
    SQL placeholders (`$12`) and the financial-year labels (`2025-26`) are made of. */
module Common {

  datatype Option<+T> = None | Some(value: T)

  datatype Result<+T, +E> = Ok(value: T) | Err(error: E)

  /** Regrouping a concatenation, stated on its own so that proofs in a large context
      can use it without rediscovering it. */
  lemma ConcatAssoc<T>(a: seq<T>, b: seq<T>, c: seq<T>)
    ensures a + (b + c) == a + b + c
  {
  }

  /** A slice that equals `values` has `values[k]` at offset `k` and the prefix
      `values[..k]` in its first `k` positions. */
  lemma SliceAt<T>(s: seq<T>, lo: nat, values: seq<T>, k: nat)
    requires lo + |values| <= |s| && s[lo .. lo + |values|] == values
    requires k < |values|
    ensures s[lo + k] == values[k]
    ensures s[lo .. lo + k] == values[..k]
  {
    assert s[lo .. lo + |values|][k] == s[lo + k];
    assert s[lo .. lo + k] == s[lo .. lo + |values|][..k];
  }

  /** A prefix one longer is the shorter prefix and the next element. */
  lemma TakeSnoc<T>(s: seq<T>, i: nat)
    requires i < |s|
    ensures s[..i + 1] == s[..i] + [s[i]]
  {
  }

  /** The two halves of a concatenation, recovered as slices. */
  lemma ConcatSlices<T>(a: seq<T>, b: seq<T>)
    ensures (a + b)[0 .. |a|] == a
    ensures (a + b)[|a| .. |a| + |b|] == b
  {
  }

  /** The middle part of a three-way concatenation, recovered as a slice. */
  lemma MiddleSlice<T>(a: seq<T>, b: seq<T>, c: seq<T>)
    ensures (a + b + c)[|a| .. |a| + |b|] == b
  {
  }

  predicate IsDigit(c: char) {
    '0' <= c <= '9'
  }

  predicate AllDigits(s: string) {
    forall i :: 0 <= i < |s| ==> IsDigit(s[i])
  }

  /** The character of a single decimal digit. */
  function Digit(d: nat): (c: char)
    requires d < 10
    ensures IsDigit(c)
  {
    ['0', '1', '2', '3', '4', '5', '6', '7', '8', '9'][d]
  }

  function DigitValue(c: char): (d: nat)
    requires IsDigit(c)
    ensures d < 10
  {
    c as int - '0' as int
  }

  /** The value of a string of decimal digits, most significant first. */
  function DigitsValue(s: string): nat
    requires AllDigits(s)
  {
    if s == [] then 0 else 10 * DigitsValue(s[..|s| - 1]) + DigitValue(s[|s| - 1])
  }

  /** `String(n)` for a non-negative integer: its decimal digits without leading zeros. */
  function NatStr(n: nat): (s: string)
    ensures |s| >= 1 && AllDigits(s)
    ensures s[|s| - 1] == Digit(n % 10)
    ensures n < 10 <==> |s| == 1
  {
    if n < 10 then [Digit(n)] else NatStr(n / 10) + [Digit(n % 10)]
  }

  lemma DigitRoundTrip(d: nat)
    requires d < 10
    ensures DigitValue(Digit(d)) == d
  {
  }

  /** Reading back the digits of `NatStr(n)` gives `n`. */
  lemma {:induction false} NatStrRoundTrip(n: nat)
    ensures DigitsValue(NatStr(n)) == n
  {
    DigitRoundTrip(n % 10);
    if n >= 10 {
      NatStrRoundTrip(n / 10);
      var s := NatStr(n);
      assert s[..|s| - 1] == NatStr(n / 10);
    } else {
      assert NatStr(n)[..0] == [];
    }
  }

  /** Distinct naturals have distinct decimal renderings. */
  lemma NatStrInjective(a: nat, b: nat)
    requires NatStr(a) == NatStr(b)
    ensures a == b
  {
    NatStrRoundTrip(a);
    NatStrRoundTrip(b);
  }
}
