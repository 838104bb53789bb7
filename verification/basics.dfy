/** Vocabulary shared by every module: optional values, results, and the decimal
    text that `format!` produces. */
module Basics {

  datatype Option<+T> = None | Some(value: T) {
    function GetOr(default: T): T {
      match this
      case Some(v) => v
      case None => default
    }
  }

  datatype Result<+T, +E> = Ok(value: T) | Err(error: E)

  function Min(a: int, b: int): int {
    if a < b then a else b
  }

  function Max(a: int, b: int): int {
    if a < b then b else a
  }

  /** Integer division rounding toward zero, the source language's `/`. */
  function TruncDiv(a: int, b: int): int
    requires b > 0
  {
    if a >= 0 then a / b else -((-a) / b)
  }

  predicate Distinct<T(==)>(xs: seq<T>) {
    forall i, j | 0 <= i < j < |xs| :: xs[i] != xs[j]
  }

  // --- decimal text ---

  function DigitChar(d: nat): char
    requires d < 10
  {
    '0' + d as char
  }

  function Digits(n: nat): (s: string)
    ensures |s| > 0
  {
    if n < 10 then [DigitChar(n)] else Digits(n / 10) + [DigitChar(n % 10)]
  }

  /** `{:0width}`: leading zeros up to the width, never truncating. */
  function ZeroPad(width: nat, s: string): (r: string)
    ensures |r| == Max(width, |s|)
    decreases width - |s|
  {
    if |s| >= width then s else ZeroPad(width, ['0'] + s)
  }

  /** The number a decimal text denotes; characters are read by their distance from '0'. */
  function Numeral(s: string): int {
    if s == [] then 0 else 10 * Numeral(s[..|s| - 1]) + (s[|s| - 1] as int - '0' as int)
  }

  lemma {:induction false} NumeralOfDigits(n: nat)
    ensures Numeral(Digits(n)) == n
  {
    if n < 10 {
      assert Digits(n)[..0] == "";
    } else {
      NumeralOfDigits(n / 10);
      var s := Digits(n);
      assert s[..|s| - 1] == Digits(n / 10);
    }
  }

  lemma {:induction false} NumeralIgnoresLeadingZero(s: string)
    ensures Numeral(['0'] + s) == Numeral(s)
  {
    var t := ['0'] + s;
    if s == [] {
      assert t[..0] == "";
    } else {
      NumeralIgnoresLeadingZero(s[..|s| - 1]);
      assert t[..|t| - 1] == ['0'] + s[..|s| - 1];
    }
  }

  lemma {:induction false} NumeralIgnoresPadding(width: nat, s: string)
    ensures Numeral(ZeroPad(width, s)) == Numeral(s)
    decreases width - |s|
  {
    if |s| < width {
      NumeralIgnoresLeadingZero(s);
      NumeralIgnoresPadding(width, ['0'] + s);
    }
  }

  lemma PaddedDigitsDetermineNumber(width: nat, m: nat, n: nat)
    requires ZeroPad(width, Digits(m)) == ZeroPad(width, Digits(n))
    ensures m == n
  {
    NumeralOfDigits(m);
    NumeralOfDigits(n);
    NumeralIgnoresPadding(width, Digits(m));
    NumeralIgnoresPadding(width, Digits(n));
  }
}
