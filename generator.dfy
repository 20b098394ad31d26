/** The arithmetic problem generator of src/model/Generator.js: the operator map,
    the two digit-interaction tests, the retry-loop operand sampler and the
    problem-set builder.

    `Math.random()` is not a function of anything the model can see, so every
    sampler takes the stream of values it would return, `random`, each in
    [0, 1). A retry loop that has used up the stream without accepting a pair
    reports `None`: the program would still be retrying. */
module Generator {
  import opened Decimal

  datatype Option<T> = None | Some(value: T)

  // ---------------------------------------------------------------------------
  // The operator map
  // ---------------------------------------------------------------------------

  datatype Operator = Add | Subtract | Multiply | Divide

  /** The key under which the operator map stores the operator. */
  function Key(op: Operator): string {
    match op
    case Add => "+"
    case Subtract => "-"
    case Multiply => "\U{00D7}"
    case Divide => "\U{00F7}"
  }

  /** Looking a key up in the operator map: exactly the four keys are present. */
  function Lookup(key: string): (found: Option<Operator>)
    ensures found.Some? ==> Key(found.value) == key
    ensures found.None? ==> forall op: Operator :: Key(op) != key
  {
    if key == "+" then Some(Add)
    else if key == "-" then Some(Subtract)
    else if key == "\U{00D7}" then Some(Multiply)
    else if key == "\U{00F7}" then Some(Divide)
    else None
  }

  /** The `op` function of the operator map. Division is only ever applied to
      pairs the sampler accepted, so the quotient is an exact integer. */
  function Apply(op: Operator, a: int, b: int): (r: int)
    requires op == Divide ==> b != 0 && a % b == 0
    ensures op == Divide ==> r * b == a
  {
    match op
    case Add => a + b
    case Subtract => a - b
    case Multiply => a * b
    case Divide => a / b
  }

  // ---------------------------------------------------------------------------
  // Digit interaction: carrying and borrowing
  // ---------------------------------------------------------------------------

  /** The number of aligned columns once the shorter numeral is left-padded with zeros. */
  function Columns(a: nat, b: nat): nat {
    var m, n := |DecimalString(a)|, |DecimalString(b)|;
    if m >= n then m else n
  }

  /** Column `k` of `a + b` sums to ten or more. */
  predicate CarriesAt(a: nat, b: nat, k: nat) {
    Digit(a, k) + Digit(b, k) >= 10
  }

  /** The digit of `a` in column `k` is smaller than the digit of `b`. */
  predicate BorrowsAt(a: nat, b: nat, k: nat) {
    Digit(a, k) < Digit(b, k)
  }

  /** Some aligned column of `a + b` sums to ten or more. */
  predicate Carries(a: nat, b: nat) {
    exists k :: 0 <= k < Columns(a, b) && CarriesAt(a, b, k)
  }

  /** Some aligned digit of `a` is smaller than the digit of `b` below it
      (a per-column test; no borrow is propagated). */
  predicate Borrows(a: nat, b: nat) {
    exists k :: 0 <= k < Columns(a, b) && BorrowsAt(a, b, k)
  }

  /** Position `j` of `s` holds, as a digit character, the digit of `n` in
      column `|s| - 1 - j`: `s` is `n` written out right-aligned. */
  predicate ShowsColumns(s: string, n: nat) {
    forall j :: 0 <= j < |s| ==> IsDigitChar(s[j]) && CharValue(s[j]) == Digit(n, |s| - 1 - j)
  }

  /** The first two lines of both digit tests: each numeral left-padded with
      zeros to the length of the longer one. */
  method PadToSameLength(a: nat, b: nat) returns (aStr: string, bStr: string)
    ensures |aStr| == Columns(a, b) && |bStr| == Columns(a, b)
    ensures ShowsColumns(aStr, a) && ShowsColumns(bStr, b)
  {
    aStr := PadStart(DecimalString(a), |DecimalString(b)|, '0');
    FirstPadded(a, b);
    bStr := PadStart(DecimalString(b), |aStr|, '0');
    SecondPadded(a, b, |aStr|);
  }

  lemma FirstPadded(a: nat, b: nat)
    ensures var s := PadStart(DecimalString(a), |DecimalString(b)|, '0');
      |s| == Columns(a, b) && ShowsColumns(s, a)
  {
    assert PadStart(DecimalString(a), |DecimalString(b)|, '0') == Padded(a, Columns(a, b));
    PaddedDigits(a, Columns(a, b));
  }

  lemma SecondPadded(a: nat, b: nat, width: nat)
    requires width == Columns(a, b)
    ensures var s := PadStart(DecimalString(b), width, '0');
      |s| == width && ShowsColumns(s, b)
  {
    PaddedDigits(b, width);
  }

  /** `causesCarrying`: pad both numerals to one length and scan the columns
      from the right, stopping at the first whose digits sum to ten or more. */
  method CausesCarrying(a: nat, b: nat) returns (carries: bool)
    ensures carries == Carries(a, b)
  {
    var aStr, bStr := PadToSameLength(a, b);
    var i := |aStr| - 1;
    while i >= 0
      invariant -1 <= i < |aStr|
      invariant forall k :: 0 <= k < |aStr| - 1 - i ==> !CarriesAt(a, b, k)
    {
      if CharValue(aStr[i]) + CharValue(bStr[i]) >= 10 {
        assert CarriesAt(a, b, |aStr| - 1 - i);
        return true;
      }
      i := i - 1;
    }
    return false;
  }

  /** `causesBorrowing`: the same scan, stopping at the first column whose digit
      of `a` is smaller than that of `b`. */
  method CausesBorrowing(a: nat, b: nat) returns (borrows: bool)
    ensures borrows == Borrows(a, b)
  {
    var aStr, bStr := PadToSameLength(a, b);
    var i := |aStr| - 1;
    while i >= 0
      invariant -1 <= i < |aStr|
      invariant forall k :: 0 <= k < |aStr| - 1 - i ==> !BorrowsAt(a, b, k)
    {
      if CharValue(aStr[i]) < CharValue(bStr[i]) {
        assert BorrowsAt(a, b, |aStr| - 1 - i);
        return true;
      }
      i := i - 1;
    }
    return false;
  }

  /** Columns left of both numerals hold zero in both numbers. */
  lemma OutsideColumns(a: nat, b: nat, k: nat)
    requires k >= Columns(a, b)
    ensures Digit(a, k) == 0 && Digit(b, k) == 0
  {
    DigitBeyondWidth(a, k);
    DigitBeyondWidth(b, k);
  }

  /** Adding two numbers whose columns never reach ten can be done column by column. */
  lemma {:induction false} ColumnwiseSum(a: nat, b: nat)
    requires forall k: nat :: Digit(a, k) + Digit(b, k) < 10
    ensures forall k: nat :: Digit(a + b, k) == Digit(a, k) + Digit(b, k)
    decreases a + b
  {
    if a + b > 0 {
      forall k: nat ensures Digit(a / 10, k) + Digit(b / 10, k) < 10 {
        assert Digit(a, k + 1) + Digit(b, k + 1) < 10;
      }
      ColumnwiseSum(a / 10, b / 10);
      assert Digit(a, 0) + Digit(b, 0) < 10;
      DivModUnique(a + b, 10, a / 10 + b / 10, a % 10 + b % 10);
      forall k: nat ensures Digit(a + b, k) == Digit(a, k) + Digit(b, k) {
        if k > 0 {
          assert Digit(a / 10 + b / 10, k - 1) == Digit(a / 10, k - 1) + Digit(b / 10, k - 1);
        }
      }
    } else {
      forall k: nat ensures Digit(a + b, k) == Digit(a, k) + Digit(b, k) {
        ZeroDigits(k);
      }
    }
  }

  /** Subtracting a number whose every digit is at most the aligned digit of `a`
      can be done column by column, and never goes below zero. */
  lemma {:induction false} ColumnwiseDifference(a: nat, b: nat)
    requires forall k: nat :: Digit(b, k) <= Digit(a, k)
    ensures a >= b && forall k: nat :: Digit(a - b, k) == Digit(a, k) - Digit(b, k)
    decreases a + b
  {
    if a + b > 0 {
      forall k: nat ensures Digit(b / 10, k) <= Digit(a / 10, k) {
        assert Digit(b, k + 1) <= Digit(a, k + 1);
      }
      ColumnwiseDifference(a / 10, b / 10);
      assert Digit(b, 0) <= Digit(a, 0);
      DivModUnique(a - b, 10, a / 10 - b / 10, a % 10 - b % 10);
      forall k: nat ensures Digit(a - b, k) == Digit(a, k) - Digit(b, k) {
        if k > 0 {
          assert Digit(a / 10 - b / 10, k - 1) == Digit(a / 10, k - 1) - Digit(b / 10, k - 1);
        }
      }
    } else {
      forall k: nat ensures Digit(a - b, k) == Digit(a, k) - Digit(b, k) {
        ZeroDigits(k);
      }
    }
  }

  /** What `Carries` means: a pair carries exactly when the digits of the sum are
      not the column sums of the digits. */
  lemma CarryFreeIsColumnwise(a: nat, b: nat)
    ensures !Carries(a, b) <==> forall k: nat :: Digit(a + b, k) == Digit(a, k) + Digit(b, k)
  {
    if !Carries(a, b) {
      forall k: nat ensures Digit(a, k) + Digit(b, k) < 10 {
        if k >= Columns(a, b) {
          OutsideColumns(a, b, k);
        } else {
          assert !CarriesAt(a, b, k);
        }
      }
      ColumnwiseSum(a, b);
    } else {
      var k :| 0 <= k < Columns(a, b) && CarriesAt(a, b, k);
      assert Digit(a + b, k) != Digit(a, k) + Digit(b, k);
    }
  }

  /** What `Borrows` means: a pair is free of it exactly when `a >= b` and the
      digits of the difference are the column differences of the digits. So the
      per-column test finds every subtraction that needs a borrow somewhere. */
  lemma BorrowFreeIsColumnwise(a: nat, b: nat)
    ensures !Borrows(a, b) <==>
      a >= b && forall k: nat :: Digit(a - b, k) == Digit(a, k) - Digit(b, k)
  {
    if !Borrows(a, b) {
      forall k: nat ensures Digit(b, k) <= Digit(a, k) {
        if k >= Columns(a, b) {
          OutsideColumns(a, b, k);
        } else {
          assert !BorrowsAt(a, b, k);
        }
      }
      ColumnwiseDifference(a, b);
    } else if a >= b {
      var k :| 0 <= k < Columns(a, b) && BorrowsAt(a, b, k);
      assert Digit(a - b, k) != Digit(a, k) - Digit(b, k);
    }
  }

  /** The digit tests on a few hand-checked pairs: 19 + 1 and 28 + 15 carry in
      the units column, 10 + 1 and 21 + 34 do not; 32 - 15 borrows in the units
      column and 35 - 12 does not. */
  lemma CarryBorrowExamples()
    ensures Carries(19, 1) && !Carries(10, 1)
    ensures !Carries(21, 34) && Carries(28, 15)
    ensures Borrows(32, 15) && !Borrows(35, 12)
  {
    assert CarriesAt(19, 1, 0);
    assert CarriesAt(28, 15, 0);
    assert BorrowsAt(32, 15, 0);
    assert Width(1) == 1 && Width(10) == 2 && Columns(10, 1) == 2;
    assert !CarriesAt(10, 1, 0) && !CarriesAt(10, 1, 1);
    assert Width(21) == 2 && Width(34) == 2 && Columns(21, 34) == 2;
    assert !CarriesAt(21, 34, 0) && !CarriesAt(21, 34, 1);
    assert Width(35) == 2 && Width(12) == 2 && Columns(35, 12) == 2;
    assert !BorrowsAt(35, 12, 0) && !BorrowsAt(35, 12, 1);
  }

  // ---------------------------------------------------------------------------
  // The operand sampler
  // ---------------------------------------------------------------------------

  /** The settings the generator reads. `operator` is the key the user picked;
      nothing forces it to be one of the operator map's keys. */
  datatype Settings = Settings(numDigits: nat, operator: string, avoidCarrying: bool, avoidBorrowing: bool)

  /** What `getRandomOperands` returns: the two operands and the
      obeyed-constraint flag, `None` standing for `null`. */
  datatype Operands = Operands(num1: nat, num2: nat, obeyed: Option<bool>)

  /** A pair the sampler returned, with the number of passes of the retry loop
      it took; each pass uses up two random values. */
  datatype Drawn = Drawn(operands: Operands, passes: nat)

  /** `max`: the largest number of `digits` digits. */
  function MaxOperand(digits: nat): nat {
    Pow10(digits) - 1
  }

  /** `min`: the smallest number of `digits` digits, or 0 for one digit or none. */
  function MinOperand(digits: nat): (lo: nat)
    ensures lo <= MaxOperand(digits)
  {
    if digits > 1 then Pow10(digits - 1) else 0
  }

  /** Every value `Math.random()` returns lies in [0, 1). */
  predicate IsRandom(random: seq<real>) {
    forall i :: 0 <= i < |random| ==> 0.0 <= random[i] < 1.0
  }

  /** `Math.floor(r * (hi - lo + 1)) + lo` for one random value `r`. */
  function DrawOperand(r: real, lo: int, hi: int): (x: int)
    requires 0.0 <= r < 1.0 && lo <= hi
    ensures lo <= x <= hi
  {
    ScaledBelow(r, hi - lo + 1);
    (r * ((hi - lo + 1) as real)).Floor + lo
  }

  lemma ScaledBelow(r: real, w: int)
    requires 0.0 <= r < 1.0 && w >= 1
    ensures 0.0 <= r * (w as real) < w as real
  {
  }

  /** Every number of the range is drawn by some random value. */
  function DrawFor(x: int, lo: int, hi: int): (r: real)
    requires lo <= x <= hi
    ensures 0.0 <= r < 1.0 && DrawOperand(r, lo, hi) == x
  {
    var w := (hi - lo + 1) as real;
    var r := (x - lo) as real / w;
    assert r * w == (x - lo) as real;
    r
  }

  /** All draws lie in [min, max] for `digits` digits. */
  predicate InRange(digits: nat, draws: seq<nat>) {
    forall i :: 0 <= i < |draws| ==> MinOperand(digits) <= draws[i] <= MaxOperand(digits)
  }

  /** The operands the retry loop draws from the random values, in order. */
  function Draws(random: seq<real>, digits: nat): (draws: seq<nat>)
    requires IsRandom(random)
    ensures |draws| == |random|
  {
    if random == [] then []
    else Draws(random[..|random| - 1], digits) + [DrawOperand(random[|random| - 1], MinOperand(digits), MaxOperand(digits))]
  }

  /** Draw `i` is made from random value `i`. */
  lemma {:induction false} DrawAt(random: seq<real>, digits: nat, i: nat)
    requires IsRandom(random) && i < |random|
    ensures Draws(random, digits)[i] == DrawOperand(random[i], MinOperand(digits), MaxOperand(digits))
  {
    var init := random[..|random| - 1];
    if i < |init| {
      DrawAt(init, digits, i);
      assert init[i] == random[i];
    }
  }

  /** Every draw lies in [min, max]. */
  lemma DrawsInRange(random: seq<real>, digits: nat)
    requires IsRandom(random)
    ensures InRange(digits, Draws(random, digits))
  {
    forall i | 0 <= i < |random|
      ensures MinOperand(digits) <= Draws(random, digits)[i] <= MaxOperand(digits)
    {
      DrawAt(random, digits, i);
    }
  }

  /** The subtraction swap: the larger operand first. */
  function Order(s: Settings, a: nat, b: nat): (ab: (nat, nat))
    ensures s.operator == "-" ==> ab.0 >= ab.1
    ensures ab == (a, b) || ab == (b, a)
  {
    if s.operator == "-" && a < b then (b, a) else (a, b)
  }

  /** Whether the retry loop returns the candidate `(a, b)`. A key outside the
      operator map matches no branch, so every candidate is passed over. */
  predicate Accepts(s: Settings, a: nat, b: nat) {
    match Lookup(s.operator)
    case None => false
    case Some(Add) => !(s.avoidCarrying && Carries(a, b))
    case Some(Subtract) => !(s.avoidBorrowing && Borrows(a, b))
    case Some(Multiply) => true
    case Some(Divide) => b > 1 && a % b == 0 && a / b <= MaxOperand(s.numDigits) && a != b
  }

  /** The obeyed-constraint flag returned with an accepted pair. */
  function Flag(s: Settings, a: nat, b: nat): Option<bool> {
    if s.operator == "+" then (if s.avoidCarrying then Some(!Carries(a, b)) else None)
    else if s.operator == "-" then (if s.avoidBorrowing then Some(!Borrows(a, b)) else None)
    else None
  }

  /** The outcome of one pass on the draws `a` and `b`: the operands returned,
      or `None` where the loop goes round again. */
  function Verdict(s: Settings, a: nat, b: nat): Option<Operands> {
    var ab := Order(s, a, b);
    if Accepts(s, ab.0, ab.1) then Some(Operands(ab.0, ab.1, Flag(s, ab.0, ab.1))) else None
  }

  /** The retry loop of a call that starts reading the draws at `at`, from pass
      `pass` on: pass `j` draws `draws[at + 2 * j]` and `draws[at + 2 * j + 1]`,
      and the first accepted pass is returned with the number of passes made.
      `None` when the draws run out first. */
  function Retry(s: Settings, draws: seq<nat>, at: nat, pass: nat): (drawn: Option<Drawn>)
    ensures drawn.Some? ==> pass < drawn.value.passes && at + 2 * drawn.value.passes <= |draws|
    decreases |draws| - (at + 2 * pass)
  {
    if at + 2 * pass + 2 > |draws| then None
    else
      match Verdict(s, draws[at + 2 * pass], draws[at + 2 * pass + 1])
      case Some(o) => Some(Drawn(o, pass + 1))
      case None => Retry(s, draws, at, pass + 1)
  }

  /** One call of `getRandomOperands` that starts reading the draws at `at`.
      `None` when the draws run out before a pass is accepted, i.e. the program
      would still be in its retry loop. */
  function Sample(s: Settings, draws: seq<nat>, at: nat): (drawn: Option<Drawn>)
    ensures drawn.Some? ==> 1 <= drawn.value.passes && at + 2 * drawn.value.passes <= |draws|
  {
    Retry(s, draws, at, 0)
  }

  /** The outcome of pass `j` of a call that starts reading at `at`. */
  function Outcome(s: Settings, draws: seq<nat>, at: nat, j: nat): Option<Operands>
    requires at + 2 * j + 1 < |draws|
  {
    Verdict(s, draws[at + 2 * j], draws[at + 2 * j + 1])
  }

  /** From pass `pass` on, the loop returns the outcome of the first accepted
      pass, every pass between was rejected, and when it returns nothing every
      pass the draws allow was rejected. */
  lemma {:induction false} RetryIsFirstAccepted(s: Settings, draws: seq<nat>, at: nat, pass: nat)
    ensures match Retry(s, draws, at, pass)
      case None => forall j :: pass <= j && at + 2 * j + 1 < |draws| ==> Outcome(s, draws, at, j).None?
      case Some(d) =>
        && Outcome(s, draws, at, d.passes - 1) == Some(d.operands)
        && forall j :: pass <= j < d.passes - 1 ==> Outcome(s, draws, at, j).None?
    decreases |draws| - (at + 2 * pass)
  {
    if at + 2 * pass + 2 <= |draws| && Outcome(s, draws, at, pass).None? {
      RetryIsFirstAccepted(s, draws, at, pass + 1);
    }
  }

  /** The sampler returns the outcome of the first accepted pass and was
      rejected on every pass before it; when it returns nothing, every pass the
      draws allow was rejected. */
  lemma SampleIsFirstAccepted(s: Settings, draws: seq<nat>, at: nat)
    ensures match Sample(s, draws, at)
      case None => forall j :: 0 <= j && at + 2 * j + 1 < |draws| ==> Outcome(s, draws, at, j).None?
      case Some(d) =>
        && Outcome(s, draws, at, d.passes - 1) == Some(d.operands)
        && forall j :: 0 <= j < d.passes - 1 ==> Outcome(s, draws, at, j).None?
  {
    RetryIsFirstAccepted(s, draws, at, 0);
  }

  /** A returned pair passed the acceptance test, is in subtraction order and
      carries the flag the program computes for it. */
  lemma SampleAccepts(s: Settings, draws: seq<nat>, at: nat)
    ensures Sample(s, draws, at).Some? ==>
      var o := Sample(s, draws, at).value.operands;
      && Accepts(s, o.num1, o.num2)
      && (s.operator == "-" ==> o.num1 >= o.num2)
      && o.obeyed == Flag(s, o.num1, o.num2)
  {
    SampleIsFirstAccepted(s, draws, at);
  }

  /** Both returned operands lie in [min, max], after the subtraction swap too. */
  lemma SampleInRange(s: Settings, draws: seq<nat>, at: nat)
    requires InRange(s.numDigits, draws)
    ensures Sample(s, draws, at).Some? ==>
      var o := Sample(s, draws, at).value.operands;
      && MinOperand(s.numDigits) <= o.num1 <= MaxOperand(s.numDigits)
      && MinOperand(s.numDigits) <= o.num2 <= MaxOperand(s.numDigits)
  {
    SampleIsFirstAccepted(s, draws, at);
    if Sample(s, draws, at).Some? {
      var k := at + 2 * (Sample(s, draws, at).value.passes - 1);
      var ab := Order(s, draws[k], draws[k + 1]);
      assert ab == (draws[k], draws[k + 1]) || ab == (draws[k + 1], draws[k]);
    }
  }

  /** Addition: with `avoidCarrying` set the pair does not carry and the flag is
      `true`; without it the first pass is returned with a `null` flag. */
  lemma SampleAddition(s: Settings, draws: seq<nat>, at: nat)
    requires s.operator == "+"
    ensures Sample(s, draws, at).Some? && s.avoidCarrying ==>
      var o := Sample(s, draws, at).value.operands;
      !Carries(o.num1, o.num2) && o.obeyed == Some(true)
    ensures !s.avoidCarrying && at + 2 <= |draws| ==>
      Sample(s, draws, at) == Some(Drawn(Operands(draws[at], draws[at + 1], None), 1))
  {
    SampleAccepts(s, draws, at);
  }

  /** Subtraction: the larger draw comes first, so the difference is never
      negative. With `avoidBorrowing` set the pair does not borrow and the flag
      is `true`; without it the first pass is returned with a `null` flag. */
  lemma SampleSubtraction(s: Settings, draws: seq<nat>, at: nat)
    requires s.operator == "-"
    ensures Sample(s, draws, at).Some? ==>
      var o := Sample(s, draws, at).value.operands;
      && o.num1 >= o.num2
      && (s.avoidBorrowing ==> !Borrows(o.num1, o.num2) && o.obeyed == Some(true))
    ensures !s.avoidBorrowing && at + 2 <= |draws| ==>
      var a, b := draws[at], draws[at + 1];
      var hi, lo := if a >= b then a else b, if a >= b then b else a;
      Sample(s, draws, at) == Some(Drawn(Operands(hi, lo, None), 1))
  {
    SampleAccepts(s, draws, at);
  }

  /** Multiplication: the first pass is returned, with a `null` flag. */
  lemma SampleMultiplication(s: Settings, draws: seq<nat>, at: nat)
    requires s.operator == "\U{00D7}" && at + 2 <= |draws|
    ensures Sample(s, draws, at) == Some(Drawn(Operands(draws[at], draws[at + 1], None), 1))
  {
  }

  /** Division: the divisor exceeds 1 and divides the dividend exactly, the
      quotient is at most `max`, the operands differ, and the flag is `null`.
      So the quotient is never 1, and the bound on it never rejects a pair. */
  lemma SampleDivision(s: Settings, draws: seq<nat>, at: nat)
    requires s.operator == "\U{00F7}"
    ensures Sample(s, draws, at).Some? ==>
      var o := Sample(s, draws, at).value.operands;
      && o.num2 > 1 && o.num1 % o.num2 == 0 && o.num1 / o.num2 <= MaxOperand(s.numDigits)
      && o.num1 != o.num2 && o.obeyed == None
      && o.num1 / o.num2 != 1
  {
    SampleAccepts(s, draws, at);
    if Sample(s, draws, at).Some? {
      var o := Sample(s, draws, at).value.operands;
      if o.num1 / o.num2 == 1 {
        DivModUnique(o.num1, o.num2, 1, 0);
      }
    }
  }

  /** The bound `a / b <= max` of the division test holds for every pair of the
      range with `b > 1`. */
  lemma QuotientBoundRedundant(digits: nat, a: nat, b: nat)
    requires a <= MaxOperand(digits) && b > 1
    ensures a / b <= MaxOperand(digits)
  {
    var q := a / b;
    if q > a {
      MulAtLeast(q, b);
    }
  }

  /** The retry loop can return at all exactly when the operator is in the map
      and it is not division of zero-digit numbers (whose only draw is 0 ÷ 0). */
  predicate Feasible(s: Settings) {
    Lookup(s.operator).Some? && !(Lookup(s.operator) == Some(Divide) && s.numDigits == 0)
  }

  lemma {:induction false} SampleCanReturn(s: Settings)
    ensures Feasible(s) <==>
      exists random :: IsRandom(random) && Sample(s, Draws(random, s.numDigits), 0).Some?
  {
    if Feasible(s) {
      var ab := FeasiblePair(s);
      var lo, hi := MinOperand(s.numDigits), MaxOperand(s.numDigits);
      var random := [DrawFor(ab.0, lo, hi), DrawFor(ab.1, lo, hi)];
      assert random[..1] == [random[0]] && [random[0]][..0] == [];
      assert Draws(random, s.numDigits) == [ab.0, ab.1];
      assert Sample(s, Draws(random, s.numDigits), 0).Some?;
    }
    forall random | IsRandom(random) && Sample(s, Draws(random, s.numDigits), 0).Some?
      ensures Feasible(s)
    {
      var draws := Draws(random, s.numDigits);
      DrawsInRange(random, s.numDigits);
      SampleAccepts(s, draws, 0);
      SampleInRange(s, draws, 0);
    }
  }

  /** A pair of the range that the acceptance test passes, unswapped. */
  lemma FeasiblePair(s: Settings) returns (ab: (nat, nat))
    requires Feasible(s)
    ensures MinOperand(s.numDigits) <= ab.0 <= MaxOperand(s.numDigits)
    ensures MinOperand(s.numDigits) <= ab.1 <= MaxOperand(s.numDigits)
    ensures Verdict(s, ab.0, ab.1).Some?
  {
    var d := s.numDigits;
    var lo := MinOperand(d);
    match Lookup(s.operator).value
    case Add =>
      ab := (lo, lo);
      forall k | 0 <= k < Columns(lo, lo) ensures !CarriesAt(lo, lo, k) {
        if d > 1 {
          PowerDigits(d - 1, k);
        } else {
          ZeroDigits(k);
        }
      }
    case Subtract =>
      ab := (lo, lo);
    case Multiply =>
      ab := (lo, lo);
    case Divide =>
      if d == 1 {
        ab := (0, 2);
      } else {
        var p := Pow10(d - 1);
        assert p >= 10;
        DivModUnique(2 * p, p, 2, 0);
        ab := (2 * p, p);
      }
  }

  /** The body of the retry loop for the draws `a` and `b`: `None` where the
      loop goes round again, the operands where it returns. */
  method Pass(digits: nat, operator: string, avoidCarrying: bool, avoidBorrowing: bool,
              max: nat, a: nat, b: nat) returns (verdict: Option<Operands>)
    requires max == MaxOperand(digits)
    ensures verdict == Verdict(Settings(digits, operator, avoidCarrying, avoidBorrowing), a, b)
  {
    var a, b := a, b;
    if operator == "+" {
      if avoidCarrying {
        var carries := CausesCarrying(a, b);
        if carries {
          return None;
        }
      }
      var obeyed := None;
      if avoidCarrying {
        var carries := CausesCarrying(a, b);
        obeyed := Some(!carries);
      }
      return Some(Operands(a, b, obeyed));
    }

    if operator == "-" {
      if a < b {
        a, b := b, a;
      }
      if avoidBorrowing {
        var borrows := CausesBorrowing(a, b);
        if borrows {
          return None;
        }
      }
      var obeyed := None;
      if avoidBorrowing {
        var borrows := CausesBorrowing(a, b);
        obeyed := Some(!borrows);
      }
      return Some(Operands(a, b, obeyed));
    }

    if operator == "\U{00D7}" {
      return Some(Operands(a, b, None));
    }

    if operator == "\U{00F7}" {
      if b > 1 && a % b == 0 && a / b <= max && a != b {
        return Some(Operands(a, b, None));
      }
    }
    return None;
  }

  /** `getRandomOperands(digits, operator, avoidCarrying, avoidBorrowing)`,
      taking its `Math.random()` values from `random`, the first at `from`. */
  method GetRandomOperands(digits: nat, operator: string, avoidCarrying: bool, avoidBorrowing: bool,
                           random: seq<real>, from: nat) returns (drawn: Option<Drawn>)
    requires IsRandom(random) && from <= |random|
    ensures drawn == Sample(Settings(digits, operator, avoidCarrying, avoidBorrowing), Draws(random, digits), from)
  {
    ghost var s := Settings(digits, operator, avoidCarrying, avoidBorrowing);
    ghost var draws := Draws(random, digits);
    var max := Pow10(digits) - 1;
    var min := if digits > 1 then Pow10(digits - 1) else 0;
    var pass: nat := 0;
    while from + 2 * pass + 2 <= |random|
      invariant from + 2 * pass <= |random|
      invariant Retry(s, draws, from, pass) == Sample(s, draws, from)
      decreases |random| - 2 * pass
    {
      var a := DrawOperand(random[from + 2 * pass], min, max);
      var b := DrawOperand(random[from + 2 * pass + 1], min, max);
      DrawAt(random, digits, from + 2 * pass);
      DrawAt(random, digits, from + 2 * pass + 1);
      var verdict := Pass(digits, operator, avoidCarrying, avoidBorrowing, max, a, b);
      pass := pass + 1;
      if verdict.Some? {
        return Some(Drawn(verdict.value, pass));
      }
    }
    return None;
  }

  // ---------------------------------------------------------------------------
  // The problem-set builder
  // ---------------------------------------------------------------------------

  /** A problem record `{num1, num2, result, obeyedConstraint}`. */
  datatype Problem = Problem(num1: nat, num2: nat, result: int, obeyedConstraint: Option<bool>)

  /** The record built from an accepted pair: the operator map's `op` gives the result. */
  function MakeProblem(s: Settings, o: Operands): Problem
    requires Accepts(s, o.num1, o.num2)
  {
    Problem(o.num1, o.num2, Apply(Lookup(s.operator).value, o.num1, o.num2), o.obeyed)
  }

  /** The problems `generateProblemSet(count, s)` pushes while drawing from
      `draws`, the first call of the sampler reading at `at` and each further
      call where the one before stopped; fewer than `count` when the draws run
      out, i.e. the program would still be in the sampler's retry loop. */
  function Problems(count: nat, s: Settings, draws: seq<nat>, at: nat): (ps: seq<Problem>)
    ensures |ps| <= count
    decreases count
  {
    if count == 0 then []
    else
      SampleAccepts(s, draws, at);
      match Sample(s, draws, at)
      case None => []
      case Some(d) => [MakeProblem(s, d.operands)] + Problems(count - 1, s, draws, at + 2 * d.passes)
  }

  /** The loop invariant of the builder survives one push; stated on the loop's
      state before (`pos`, `left`, `before`) and after (`pos'`, `left'`, `after`). */
  lemma ProblemsPush(total: nat, s: Settings, draws: seq<nat>, pos: nat, left: nat, before: seq<Problem>,
                     drawn: Drawn, pos': nat, left': nat, after: seq<Problem>)
    requires Sample(s, draws, pos) == Some(drawn)
    requires Problems(total, s, draws, 0) == before + Problems(left, s, draws, pos)
    requires left == left' + 1 && pos' == pos + 2 * drawn.passes
    requires Accepts(s, drawn.operands.num1, drawn.operands.num2)
    requires after == before + [MakeProblem(s, drawn.operands)]
    ensures Problems(total, s, draws, 0) == after + Problems(left', s, draws, pos')
  {
    assert Problems(left, s, draws, pos) == [MakeProblem(s, drawn.operands)] + Problems(left', s, draws, pos');
    AppendFront(before, MakeProblem(s, drawn.operands), Problems(left', s, draws, pos'));
  }

  lemma AppendFront<T>(a: seq<T>, x: T, b: seq<T>)
    ensures (a + [x]) + b == a + ([x] + b)
  {
  }

  /** What every problem of the set satisfies. */
  predicate Sound(s: Settings, p: Problem) {
    && Lookup(s.operator).Some?
    && MinOperand(s.numDigits) <= p.num1 <= MaxOperand(s.numDigits)
    && MinOperand(s.numDigits) <= p.num2 <= MaxOperand(s.numDigits)
    && Accepts(s, p.num1, p.num2)
    && (s.operator == "-" ==> p.num1 >= p.num2)
    && p.result == Apply(Lookup(s.operator).value, p.num1, p.num2)
    && p.obeyedConstraint == Flag(s, p.num1, p.num2)
  }

  /** Every problem has both operands in range, passed the acceptance test, has
      the operator's result and carries the sampler's flag. */
  lemma {:induction false} ProblemsSound(count: nat, s: Settings, draws: seq<nat>, at: nat)
    requires InRange(s.numDigits, draws)
    ensures forall i :: 0 <= i < |Problems(count, s, draws, at)| ==> Sound(s, Problems(count, s, draws, at)[i])
    decreases count
  {
    if count > 0 && Sample(s, draws, at).Some? {
      var d := Sample(s, draws, at).value;
      var next := at + 2 * d.passes;
      ProblemsSound(count - 1, s, draws, next);
      SampleAccepts(s, draws, at);
      SampleInRange(s, draws, at);
      var p := MakeProblem(s, d.operands);
      assert Problems(count, s, draws, at) == [p] + Problems(count - 1, s, draws, next);
      ConsSound(s, p, Problems(count - 1, s, draws, next));
    }
  }

  lemma ConsSound(s: Settings, p: Problem, rest: seq<Problem>)
    requires Sound(s, p) && forall i :: 0 <= i < |rest| ==> Sound(s, rest[i])
    ensures forall i :: 0 <= i < |[p] + rest| ==> Sound(s, ([p] + rest)[i])
  {
    forall i | 0 <= i < |[p] + rest| ensures Sound(s, ([p] + rest)[i]) {
      if i > 0 {
        assert ([p] + rest)[i] == rest[i - 1];
      }
    }
  }

  /** The facts a card relies on: a subtraction answer is never negative, a
      division answer is an exact quotient, an addition chosen not to carry has
      the column sums as digits, and the warning mark (a `false` flag) never
      appears. */
  lemma SoundProblem(s: Settings, p: Problem)
    requires Sound(s, p)
    ensures s.operator == "-" ==> 0 <= p.result <= p.num1
    ensures s.operator == "\U{00F7}" ==> p.result * p.num2 == p.num1
    ensures s.operator == "+" && s.avoidCarrying ==>
      p.result == p.num1 + p.num2 &&
      forall k: nat :: Digit(p.num1 + p.num2, k) == Digit(p.num1, k) + Digit(p.num2, k)
    ensures p.obeyedConstraint != Some(false)
  {
    if s.operator == "+" && s.avoidCarrying {
      CarryFreeIsColumnwise(p.num1, p.num2);
    }
  }

  /** With no constraint to meet (multiplication, or addition or subtraction
      with its checkbox clear) every pass is accepted: given two draws per
      problem the set is complete, and problem `i` comes from the pair of draws
      `i` places on. */
  predicate Unconstrained(s: Settings) {
    || s.operator == "\U{00D7}"
    || (s.operator == "+" && !s.avoidCarrying)
    || (s.operator == "-" && !s.avoidBorrowing)
  }

  lemma {:induction false} ProblemsInDrawOrder(count: nat, s: Settings, draws: seq<nat>, at: nat)
    requires Unconstrained(s) && at + 2 * count <= |draws|
    ensures |Problems(count, s, draws, at)| == count
    ensures forall i :: 0 <= i < count ==>
      var p := Problems(count, s, draws, at)[i];
      (p.num1, p.num2) == Order(s, draws[at + 2 * i], draws[at + 2 * i + 1])
    decreases count
  {
    if count > 0 {
      var o := UnconstrainedPass(s, draws, at);
      ProblemsInDrawOrder(count - 1, s, draws, at + 2);
      var p := MakeProblem(s, o);
      assert Problems(count, s, draws, at) == [p] + Problems(count - 1, s, draws, at + 2);
      ConsInDrawOrder(s, p, Problems(count - 1, s, draws, at + 2), draws, at);
    }
  }

  /** Without a constraint the first pass is accepted. */
  lemma UnconstrainedPass(s: Settings, draws: seq<nat>, at: nat) returns (o: Operands)
    requires Unconstrained(s) && at + 2 <= |draws|
    ensures Sample(s, draws, at) == Some(Drawn(o, 1))
    ensures Accepts(s, o.num1, o.num2) && (o.num1, o.num2) == Order(s, draws[at], draws[at + 1])
  {
    var ab := Order(s, draws[at], draws[at + 1]);
    assert Accepts(s, ab.0, ab.1);
    o := Operands(ab.0, ab.1, Flag(s, ab.0, ab.1));
  }

  /** The pairing of problems with passes survives putting the problem of the
      first pass in front. */
  lemma ConsInDrawOrder(s: Settings, p: Problem, rest: seq<Problem>, draws: seq<nat>, at: nat)
    requires at + 2 * |rest| + 2 <= |draws|
    requires (p.num1, p.num2) == Order(s, draws[at], draws[at + 1])
    requires forall i :: 0 <= i < |rest| ==>
      (rest[i].num1, rest[i].num2) == Order(s, draws[at + 2 + 2 * i], draws[at + 2 + 2 * i + 1])
    ensures forall i :: 0 <= i < |rest| + 1 ==>
      var q := ([p] + rest)[i];
      (q.num1, q.num2) == Order(s, draws[at + 2 * i], draws[at + 2 * i + 1])
  {
    forall i | 0 <= i < |rest| + 1
      ensures (([p] + rest)[i].num1, ([p] + rest)[i].num2) == Order(s, draws[at + 2 * i], draws[at + 2 * i + 1])
    {
      if i > 0 {
        assert ([p] + rest)[i] == rest[i - 1];
        assert at + 2 + 2 * (i - 1) == at + 2 * i;
      }
    }
  }

  /** With an operator outside the map the retry loop never returns, so not
      even the first problem is built. */
  lemma UnknownOperatorBuildsNothing(count: nat, s: Settings, draws: seq<nat>, at: nat)
    requires Lookup(s.operator).None?
    ensures Sample(s, draws, at).None? && Problems(count, s, draws, at) == []
  {
    SampleAccepts(s, draws, at);
  }

  /** The number of times `for (let i = 0; i < n; i++)` goes round: none for
      a count of 0 or less. */
  function Times(n: int): nat {
    if n > 0 then n else 0
  }

  /** `generateProblemSet(count, settings)`, drawing from `random`. A count of
      0 or less gives no problems. `finished` is false when the random values
      ran out inside the sampler, where the program would still be in its retry
      loop; `problems` holds what was pushed before that. */
  method GenerateProblemSet(count: int, settings: Settings, random: seq<real>)
    returns (problems: seq<Problem>, finished: bool)
    requires IsRandom(random)
    ensures problems == Problems(Times(count), settings, Draws(random, settings.numDigits), 0)
    ensures finished <==> |problems| == Times(count)
  {
    ghost var draws := Draws(random, settings.numDigits);
    ghost var total := Times(count);
    assert Settings(settings.numDigits, settings.operator, settings.avoidCarrying, settings.avoidBorrowing) == settings;
    var opInfo := Lookup(settings.operator);
    problems := [];
    var pos: nat := 0;
    var i: nat := 0;
    while i < count
      invariant i <= total && pos <= |random| == |draws| && |problems| == i
      invariant Problems(total, settings, draws, 0) == problems + Problems(total - i, settings, draws, pos)
    {
      var drawn := GetRandomOperands(settings.numDigits, settings.operator,
                                     settings.avoidCarrying, settings.avoidBorrowing, random, pos);
      if drawn.None? {
        assert Problems(total - i, settings, draws, pos) == [];
        return problems, false;
      }
      SampleAccepts(settings, draws, pos);
      ghost var before, from, left := problems, pos, total - i;
      var o := drawn.value.operands;
      var result := Apply(opInfo.value, o.num1, o.num2);
      problems := problems + [Problem(o.num1, o.num2, result, o.obeyed)];
      pos := pos + 2 * drawn.value.passes;
      i := i + 1;
      ProblemsPush(total, settings, draws, from, left, before, drawn.value, pos, total - i, problems);
    }
    return problems, true;
  }
}
