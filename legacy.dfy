/** The page script script.js: its copy of the sampler, which reads the two
    constraint checkboxes itself, and the page state it keeps in globals: the
    problems of the last `generate()` and the practice-mode switch. Card
    rendering and the DOM are not part of this model. */
module Legacy {
  import opened Generator

  /** `document.getElementById(id)?.checked` used as a condition: `None` is a
      missing element, whose `undefined` counts as false, like a clear box. */
  function Checked(box: Option<bool>): bool {
    box == Some(true)
  }

  /** script.js's `getRandomOperands(digits, operator)`: the sampler of the
      model, with the checkbox states read where the module takes arguments. */
  method PageRandomOperands(digits: nat, operator: string, carryBox: Option<bool>, borrowBox: Option<bool>,
                            random: seq<real>, from: nat) returns (drawn: Option<Drawn>)
    requires IsRandom(random) && from <= |random|
    ensures drawn == Sample(PageSettings(digits, operator, carryBox, borrowBox), Draws(random, digits), from)
  {
    drawn := Generator.GetRandomOperands(digits, operator, Checked(carryBox), Checked(borrowBox), random, from);
  }

  /** The settings the page sampler works with. */
  function PageSettings(digits: nat, operator: string, carryBox: Option<bool>, borrowBox: Option<bool>): Settings {
    Settings(digits, operator, Checked(carryBox), Checked(borrowBox))
  }

  /** The page's operands lie in [min, max] with the module's bounds. */
  lemma PageInRange(digits: nat, operator: string, carryBox: Option<bool>, borrowBox: Option<bool>,
                    random: seq<real>, from: nat)
    requires IsRandom(random)
    ensures var drawn := Sample(PageSettings(digits, operator, carryBox, borrowBox), Draws(random, digits), from);
      drawn.Some? ==>
        && MinOperand(digits) <= drawn.value.operands.num1 <= MaxOperand(digits)
        && MinOperand(digits) <= drawn.value.operands.num2 <= MaxOperand(digits)
  {
    DrawsInRange(random, digits);
    SampleInRange(PageSettings(digits, operator, carryBox, borrowBox), Draws(random, digits), from);
  }

  /** Addition on the page: a checked carry box gives a carry-free pair flagged
      `true`; an unchecked or missing box gives the first pass with a `null` flag. */
  lemma PageAddition(digits: nat, carryBox: Option<bool>, borrowBox: Option<bool>, draws: seq<nat>, at: nat)
    ensures var drawn := Sample(PageSettings(digits, "+", carryBox, borrowBox), draws, at);
      drawn.Some? && carryBox == Some(true) ==>
        !Carries(drawn.value.operands.num1, drawn.value.operands.num2) && drawn.value.operands.obeyed == Some(true)
    ensures carryBox != Some(true) && at + 2 <= |draws| ==>
      Sample(PageSettings(digits, "+", carryBox, borrowBox), draws, at) ==
        Some(Drawn(Operands(draws[at], draws[at + 1], None), 1))
  {
    SampleAddition(PageSettings(digits, "+", carryBox, borrowBox), draws, at);
  }

  /** Subtraction on the page: the larger operand comes first; a checked borrow
      box gives a borrow-free pair flagged `true`; an unchecked or missing box
      gives the first pass, larger draw first, with a `null` flag. */
  lemma PageSubtraction(digits: nat, carryBox: Option<bool>, borrowBox: Option<bool>, draws: seq<nat>, at: nat)
    ensures var drawn := Sample(PageSettings(digits, "-", carryBox, borrowBox), draws, at);
      drawn.Some? ==>
        && drawn.value.operands.num1 >= drawn.value.operands.num2
        && (borrowBox == Some(true) ==>
              !Borrows(drawn.value.operands.num1, drawn.value.operands.num2) && drawn.value.operands.obeyed == Some(true))
    ensures borrowBox != Some(true) && at + 2 <= |draws| ==>
      var a, b := draws[at], draws[at + 1];
      Sample(PageSettings(digits, "-", carryBox, borrowBox), draws, at) ==
        Some(Drawn(Operands(if a >= b then a else b, if a >= b then b else a, None), 1))
  {
    SampleSubtraction(PageSettings(digits, "-", carryBox, borrowBox), draws, at);
  }

  /** Multiplication and division on the page ignore both boxes: multiplication
      takes the first pass, division the first pass whose divisor exceeds 1 and
      divides exactly with a quotient of at most `max` and differs from the
      dividend; both with a `null` flag. */
  lemma PageMultiplyDivide(digits: nat, carryBox: Option<bool>, borrowBox: Option<bool>, draws: seq<nat>, at: nat)
    ensures at + 2 <= |draws| ==>
      Sample(PageSettings(digits, "\U{00D7}", carryBox, borrowBox), draws, at) ==
        Some(Drawn(Operands(draws[at], draws[at + 1], None), 1))
    ensures var drawn := Sample(PageSettings(digits, "\U{00F7}", carryBox, borrowBox), draws, at);
      drawn.Some? ==>
        var o := drawn.value.operands;
        && o.num2 > 1 && o.num1 % o.num2 == 0 && o.num1 / o.num2 <= MaxOperand(digits)
        && o.num1 != o.num2 && o.obeyed == None
  {
    if at + 2 <= |draws| {
      SampleMultiplication(PageSettings(digits, "\U{00D7}", carryBox, borrowBox), draws, at);
    }
    SampleDivision(PageSettings(digits, "\U{00F7}", carryBox, borrowBox), draws, at);
  }

  /** The page's global state. */
  class Worksheet {
    var practiceMode: bool
    var currentProblems: seq<Problem>

    /** The state after the script is loaded. */
    constructor ()
      ensures !practiceMode && currentProblems == []
    {
      practiceMode := false;
      currentProblems := [];
    }

    /** The problem-building part of `generate()`. `saveSettings()` runs first
        and reads `el.type` of both checkbox elements, so a missing one throws
        (`thrown`) before anything below it and the old problems stay.
        Otherwise `currentProblems` is cleared and then gets one problem per
        card, `numRows * numCols` of them, as the module's builder would
        produce them. `finished` is false when the random values ran out inside
        the sampler, where the page would still be in its retry loop with the
        problems so far stored. */
    method Generate(numRows: int, numCols: int, numDigits: nat, operator: string,
                    carryBox: Option<bool>, borrowBox: Option<bool>, random: seq<real>)
      returns (thrown: bool, finished: bool)
      requires IsRandom(random)
      modifies this
      ensures thrown <==> carryBox.None? || borrowBox.None?
      ensures thrown ==> currentProblems == old(currentProblems) && !finished
      ensures !thrown ==>
        currentProblems ==
          Problems(Times(numRows * numCols), PageSettings(numDigits, operator, carryBox, borrowBox),
                   Draws(random, numDigits), 0)
      ensures !thrown ==> (finished <==> |currentProblems| == Times(numRows * numCols))
      ensures practiceMode == old(practiceMode)
    {
      if carryBox.None? || borrowBox.None? {
        return true, false;
      }
      thrown := false;
      ghost var s := PageSettings(numDigits, operator, carryBox, borrowBox);
      ghost var draws := Draws(random, numDigits);
      ghost var count := Times(numRows * numCols);
      var opInfo := Lookup(operator);
      var totalProblems := numRows * numCols;
      currentProblems := [];
      var pos: nat := 0;
      var i: nat := 0;
      ghost var left: nat := count;
      while i < totalProblems
        invariant i <= count && left == count - i && pos <= |random| == |draws|
        invariant |currentProblems| == i && practiceMode == old(practiceMode)
        invariant Problems(count, s, draws, 0) == currentProblems + Problems(left, s, draws, pos)
      {
        var drawn := PageRandomOperands(numDigits, operator, carryBox, borrowBox, random, pos);
        if drawn.None? {
          assert Problems(left, s, draws, pos) == [];
          return false, false;
        }
        SampleAccepts(s, draws, pos);
        ghost var before, from := currentProblems, pos;
        var o := drawn.value.operands;
        var result := Apply(opInfo.value, o.num1, o.num2);
        currentProblems := currentProblems + [Problem(o.num1, o.num2, result, o.obeyed)];
        pos := pos + 2 * drawn.value.passes;
        i := i + 1;
        left := left - 1;
        ProblemsPush(count, s, draws, from, left + 1, before, drawn.value, pos, left, currentProblems);
      }
      return false, true;
    }

    /** `togglePracticeMode()`: flips the mode and keeps the problems, which
        are drawn again in the other mode without being regenerated. */
    method TogglePracticeMode()
      modifies this
      ensures practiceMode == !old(practiceMode)
      ensures currentProblems == old(currentProblems)
    {
      practiceMode := !practiceMode;
    }
  }
}
