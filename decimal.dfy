/** Decimal digits of non-negative integers, and the three string built-ins the
    generator relies on: `Number.prototype.toString` (base 10),
    `String.prototype.padStart` and `parseInt` of a single digit character. */
module Decimal {

  function Pow10(k: nat): (p: nat)
    ensures p >= 1
  {
    if k == 0 then 1 else 10 * Pow10(k - 1)
  }

  /** The digit of `n` in column `k`, counting the units column as 0
      (`DigitOfQuotient` shows it is `(n / 10^k) % 10`). */
  function Digit(n: nat, k: nat): (d: nat)
    ensures d <= 9
    decreases k
  {
    if k == 0 then n % 10 else Digit(n / 10, k - 1)
  }

  predicate IsDigitChar(c: char) {
    '0' <= c <= '9'
  }

  /** `parseInt` applied to a one-character string holding a decimal digit. */
  function CharValue(c: char): (v: nat)
    requires IsDigitChar(c)
    ensures v <= 9
  {
    c as int - '0' as int
  }

  function DigitChar(d: nat): (c: char)
    requires d <= 9
    ensures IsDigitChar(c) && CharValue(c) == d
  {
    ('0' as int + d) as char
  }

  /** The number of characters of `n.toString()`. */
  function Width(n: nat): (w: nat)
    ensures w >= 1
  {
    if n < 10 then 1 else 1 + Width(n / 10)
  }

  /** The character `n.toString()` shows for column `k` of `n`. */
  function ColumnChar(n: nat, k: nat): (c: char)
    ensures IsDigitChar(c) && CharValue(c) == Digit(n, k)
  {
    DigitChar(Digit(n, k))
  }

  /** `n.toString()`: `Width(n)` characters, most significant digit first, so
      that position `i` shows column `Width(n) - 1 - i`. */
  function DecimalString(n: nat): (s: string)
    ensures |s| == Width(n)
    ensures forall i :: 0 <= i < |s| ==> s[i] == ColumnChar(n, |s| - 1 - i)
  {
    var w := Width(n);
    seq(w, i requires 0 <= i < w => ColumnChar(n, w - 1 - i))
  }

  /** The number a numeral denotes, most significant digit first. */
  function Value(s: string): nat
    requires forall i :: 0 <= i < |s| ==> IsDigitChar(s[i])
  {
    if s == [] then 0 else 10 * Value(s[..|s| - 1]) + CharValue(s[|s| - 1])
  }

  /** `n` copies of `c`. */
  function Repeat(c: char, n: nat): (r: string)
    ensures |r| == n && forall i :: 0 <= i < n ==> r[i] == c
  {
    if n == 0 then [] else [c] + Repeat(c, n - 1)
  }

  /** `s.padStart(width, c)` for a one-character fill string. */
  function PadStart(s: string, width: nat, c: char): (r: string)
    ensures |r| == if |s| >= width then |s| else width
    ensures forall i :: 0 <= i < |r| ==>
      r[i] == if i < |r| - |s| then c else s[i - (|r| - |s|)]
  {
    if |s| >= width then s else Repeat(c, width - |s|) + s
  }

  /** Euclidean division is determined by its quotient and remainder. */
  lemma DivModUnique(n: int, d: int, q: int, r: int)
    requires d > 0 && 0 <= r < d && n == d * q + r
    ensures n / d == q && n % d == r
  {
    var q0, r0 := n / d, n % d;
    assert d * (q - q0) == r0 - r;
    if q > q0 {
      MulAtLeast(d, q - q0);
    } else if q < q0 {
      MulAtLeast(d, q0 - q);
    }
  }

  lemma MulAtLeast(d: int, x: int)
    requires d > 0 && x >= 1
    ensures d * x >= d
  {
  }

  lemma DivTenFirst(n: nat, p: nat)
    requires p >= 1
    ensures n / (10 * p) == (n / 10) / p
  {
    var q, r := n / 10, n % 10;
    var x, y := q / p, q % p;
    assert n == 10 * p * x + (10 * y + r);
    DivModUnique(n, 10 * p, x, 10 * y + r);
  }

  /** The column digit is the units digit of `n / 10^k`. */
  lemma {:induction false} DigitOfQuotient(n: nat, k: nat)
    ensures Digit(n, k) == (n / Pow10(k)) % 10
    decreases k
  {
    if k > 0 {
      DigitOfQuotient(n / 10, k - 1);
      DivTenFirst(n, Pow10(k - 1));
    }
  }

  /** `10^m` has a single 1, in column `m`. */
  lemma {:induction false} PowerDigits(m: nat, k: nat)
    ensures Digit(Pow10(m), k) == if k == m then 1 else 0
    decreases m
  {
    if m == 0 {
      if k > 0 {
        ZeroDigits(k - 1);
      }
    } else if k > 0 {
      assert Pow10(m) / 10 == Pow10(m - 1);
      PowerDigits(m - 1, k - 1);
    }
  }

  /** Reading the numeral back gives the number: `toString` loses nothing. */
  lemma {:induction false} ValueOfDecimalString(n: nat)
    ensures Value(DecimalString(n)) == n
    decreases n
  {
    var s := DecimalString(n);
    if n >= 10 {
      var t := DecimalString(n / 10);
      assert s[..|s| - 1] == t by {
        forall i | 0 <= i < |t| ensures s[i] == t[i] {
          assert Digit(n, Width(n) - 1 - i) == Digit(n / 10, Width(n / 10) - 1 - i);
        }
      }
      ValueOfDecimalString(n / 10);
    }
  }

  /** The numeral of a positive number does not start with '0'. */
  lemma {:induction false} NoLeadingZero(n: nat)
    requires n > 0
    ensures DecimalString(n)[0] != '0'
    decreases n
  {
    if n >= 10 {
      NoLeadingZero(n / 10);
      assert Digit(n, Width(n) - 1) == Digit(n / 10, Width(n / 10) - 1);
    }
  }

  /** Every column left of the numeral holds the digit 0. */
  lemma {:induction false} DigitBeyondWidth(n: nat, k: nat)
    requires k >= Width(n)
    ensures Digit(n, k) == 0
    decreases n
  {
    if n >= 10 {
      DigitBeyondWidth(n / 10, k - 1);
    } else {
      ZeroDigits(k - 1);
    }
  }

  lemma ZeroDigits(k: nat)
    ensures Digit(0, k) == 0
  {
  }

  /** Left-padding `n.toString()` with '0' to `width` characters aligns column `k`
      with position `width - 1 - k`, beyond the numeral as well as within it. */
  lemma PaddedDigit(n: nat, width: nat, k: nat)
    requires |DecimalString(n)| <= width && k < width
    ensures var s := Padded(n, width);
      |s| == width && IsDigitChar(s[width - 1 - k]) && CharValue(s[width - 1 - k]) == Digit(n, k)
  {
    if k < |DecimalString(n)| {
      PaddedInside(n, width, k);
    } else {
      PaddedOutside(n, width, k);
    }
  }

  lemma PaddedInside(n: nat, width: nat, k: nat)
    requires k < |DecimalString(n)| <= width
    ensures |Padded(n, width)| == width
    ensures IsDigitChar(Padded(n, width)[width - 1 - k])
    ensures CharValue(Padded(n, width)[width - 1 - k]) == Digit(n, k)
  {
    PadStartKeeps(DecimalString(n), width, '0', k);
  }

  lemma PaddedOutside(n: nat, width: nat, k: nat)
    requires |DecimalString(n)| <= k < width
    ensures |Padded(n, width)| == width
    ensures Padded(n, width)[width - 1 - k] == '0'
    ensures Digit(n, k) == 0
  {
    DigitBeyondWidth(n, k);
  }

  /** Padding keeps the last characters of the padded string. */
  lemma PadStartKeeps(d: string, width: nat, c: char, k: nat)
    requires k < |d| <= width
    ensures PadStart(d, width, c)[width - 1 - k] == d[|d| - 1 - k]
  {
  }

  /** `n.toString().padStart(width, '0')`. */
  function Padded(n: nat, width: nat): string {
    PadStart(DecimalString(n), width, '0')
  }

  /** `PaddedDigit` for every position at once. */
  lemma PaddedDigits(n: nat, width: nat)
    requires |DecimalString(n)| <= width
    ensures |Padded(n, width)| == width
    ensures forall j :: 0 <= j < width ==>
      IsDigitChar(Padded(n, width)[j]) && CharValue(Padded(n, width)[j]) == Digit(n, width - 1 - j)
  {
    var s := Padded(n, width);
    forall j | 0 <= j < width
      ensures IsDigitChar(s[j]) && CharValue(s[j]) == Digit(n, width - 1 - j)
    {
      PaddedDigit(n, width, width - 1 - j);
    }
  }
}
