# Window-card problem generator, modelled in Dafny

The window-cards page prints a grid of arithmetic cards, one problem per card.
This project models the logic that picks those problems:

- the operator map: the four operator keys and the result each one gives;
- `causesCarrying` and `causesBorrowing`: the digit tests that pad both numerals to the same length and scan the aligned columns;
- `getRandomOperands`: it draws pairs of operands between `min` and `max` until one passes the operator's acceptance test, and returns it with the tri-state "obeyed constraint" flag;
- `generateProblemSet`: it pushes one problem record per card.

The logic appears twice. Once in the module `src/model/Generator.js`, and once in the page script `script.js`, where the sampler reads the two constraint checkboxes itself. The page script also keeps the last problem set and the practice-mode switch in globals.

The page script's operator map (script.js:9-14), `causesCarrying` (script.js:17-24) and `causesBorrowing` (script.js:27-34) are the module's code apart from indentation. They are modelled once, by `Generator.Lookup`, `Generator.Apply`, `Generator.CausesCarrying` and `Generator.CausesBorrowing`.

Files:

- `decimal.dfy` (module `Decimal`): digits of a natural number, and the three JavaScript built-ins the digit tests use on decimal numerals: `toString`, `padStart` with `'0'`, and `parseInt` of one digit. It proves that `toString` loses nothing and that padding lines column `k` up with position `width - 1 - k`.
- `generator.dfy` (module `Generator`): the module file.
  - The digit tests are loops over the padded strings, proved equal to column predicates over `Digit(n, k)`.
  - The sampler is the retry loop, proved equal to a function `Sample` that returns the first accepted pass.
  - The builder is the counted push loop, proved equal to a function `Problems`.
  - The lemmas about `Sample` and `Problems` carry the promises: range, acceptance, flags, draw order, soundness of each card, and when the loop can return at all.
- `legacy.dfy` (module `Legacy`): the page script. A checkbox is an `Option<bool>`, with `None` for a missing element. A class `Worksheet` holds `currentProblems` and `practiceMode`; its `Generate` clears and refills `currentProblems`, and `TogglePracticeMode` flips the switch.

`Math.random()` depends on nothing the model can see. So every sampler takes the values it would return as a finite sequence `random`, each in [0, 1), together with the position of the first value still unused. Each pass of the retry loop uses two values. Each value becomes an operand exactly as `Math.floor(r * (max - min + 1)) + min` does, computed over the reals. The JavaScript loop is `while (true)`. When the model's sequence runs out before a pair is accepted, the model reports `None`: the program would still be retrying at that point. The builders then stop and say they did not finish.

The code has no guard against a retry loop that can never accept a pair. For digit counts whose operands and results stay below 2^53 (up to 7 digits for multiplication, see "## Left out"), the model shows that this happens for exactly two settings: a key outside the operator map, and division with 0 digits, where the only draw is 0 ÷ 0 (`SampleCanReturn`). For those settings the model, like the code, never returns a pair. Wider settings are beyond the model: from 309 digits on, `Math.pow(10, digits)` is `Infinity`, each draw is `Infinity` or `NaN` (when `Math.random()` returns 0, `0 * Infinity` is `NaN`), and the division test can never pass either.

## Model

| member | source | states |
|---|---|---|
| Generator.Lookup | src/model/Generator.js:1-6 | the map has exactly the four keys `+`, `-`, `×`, `÷`; a found operator is stored under the key looked up, and a missing key names no operator |
| Generator.Apply | src/model/Generator.js:2-5 | the `op` of each entry; for division the result times the divisor gives back the dividend, so the quotient is exact |
| Generator.PadToSameLength | src/model/Generator.js:9-10 | both padded strings are as long as the longer numeral, and position `j` of each shows that number's digit in column `length - 1 - j` |
| Generator.CausesCarrying | src/model/Generator.js:8-15 | the loop answers true exactly when some aligned column has digit sum 10 or more (`Carries`) |
| Generator.CausesBorrowing | src/model/Generator.js:17-24 | the loop answers true exactly when some aligned column has the digit of `a` below the digit of `b`, column by column with no borrow carried over (`Borrows`) |
| Generator.CarryFreeIsColumnwise | src/model/Generator.js:8-15 | no carry exactly when every digit of `a + b` is the sum of the two digits in that column |
| Generator.BorrowFreeIsColumnwise | src/model/Generator.js:17-24 | no borrow exactly when `a >= b` and every digit of `a - b` is the difference of the two digits in that column, so the per-column test is the true no-borrow condition |
| Generator.CarryBorrowExamples | src/model/Generator.js:8-24 | concrete cases on both sides of each test, e.g. 19 + 1 carries and 10 + 1 does not, 32 − 15 borrows and 35 − 12 does not |
| Generator.MinOperand | src/model/Generator.js:27-28 | `min` is `10^(d-1)` when `d > 1`, otherwise 0, and never exceeds `max = 10^d - 1` |
| Generator.DrawOperand | src/model/Generator.js:32-33 | every value in [0, 1) gives a draw in `[min, max]` |
| Generator.DrawFor | src/model/Generator.js:32-33 | every number in `[min, max]` is the draw of some value in [0, 1) |
| Generator.DrawsInRange | src/model/Generator.js:32-33 | every operand drawn from the random values lies in `[min, max]` |
| Generator.Pass | src/model/Generator.js:35-52 | one pass of the loop body on draws `a`, `b` returns what `Verdict` says: the swap for subtraction, the operator's acceptance test and the flag, or go round again |
| Generator.GetRandomOperands | src/model/Generator.js:26-54 | the retry loop returns what `Sample` gives for the same settings and random values |
| Generator.SampleIsFirstAccepted | src/model/Generator.js:31-53 | the returned pair is the outcome of the first accepted pass and every earlier pass was rejected; no result means every pass the values allow was rejected |
| Generator.SampleAccepts | src/model/Generator.js:35-52 | a returned pair passed the acceptance test, is in subtraction order, and carries the flag the program computes for it |
| Generator.SampleInRange | src/model/Generator.js:27-41 | both returned operands lie in `[min, max]`, after the subtraction swap too |
| Generator.SampleAddition | src/model/Generator.js:35-38 | with `avoidCarrying`, the pair does not carry and the flag is `true`; without it, the first pass is returned unchanged with a `null` flag |
| Generator.SampleSubtraction | src/model/Generator.js:40-44 | `num1 >= num2`; with `avoidBorrowing`, the pair does not borrow and the flag is `true`; without it, the first pass is returned, larger draw first, with a `null` flag |
| Generator.SampleMultiplication | src/model/Generator.js:46-48 | the first pass is returned unchanged with a `null` flag |
| Generator.SampleDivision | src/model/Generator.js:50-52 | divisor above 1, an exact quotient of at most `max`, operands that differ, a `null` flag, and so a quotient other than 1 |
| Generator.QuotientBoundRedundant | src/model/Generator.js:51 | for operands in range with divisor above 1, `a / b <= max` always holds, so that part of the test never rejects a pair |
| Generator.SampleCanReturn | src/model/Generator.js:31-53 | some sequence of random values makes the loop return exactly when the operator is in the map and it is not division with 0 digits |
| Generator.FeasiblePair | src/model/Generator.js:35-52 | an acceptable pair for each operator: `(min, min)` for `+`, `-`, `×`; `(0, 2)` for 1-digit and `(2·10^(d-1), 10^(d-1))` for wider division |
| Generator.UnknownOperatorBuildsNothing | src/model/Generator.js:31-53 | a key outside the map is never accepted, so not even the first problem is built |
| Generator.GenerateProblemSet | src/model/Generator.js:56-68 | the pushed problems are `Problems(Times(count), settings, draws, 0)`, none for a count of 0 or less; it finishes exactly when it holds that many problems |
| Generator.ProblemsPush | src/model/Generator.js:61-65 | pushing the problem of the next accepted pair keeps the builder loop on course |
| Generator.ProblemsSound | src/model/Generator.js:56-68 | every problem has operands in range, passed the acceptance test, has `result == op(num1, num2)` and carries the sampler's flag |
| Generator.SoundProblem | src/model/Generator.js:61-65 | on every card a subtraction answer is between 0 and `num1`, a division answer is an exact quotient, a carry-free sum adds column by column, and the warning flag `false` never appears |
| Generator.ProblemsInDrawOrder | src/model/Generator.js:61-65 | with no constraint to meet and two random values per card, the set is complete and problem `i` comes from the `i`-th pair of draws, in insertion order |
| Decimal.ValueOfDecimalString | src/model/Generator.js:9 | reading `n.toString()` back as a decimal numeral gives `n` |
| Decimal.NoLeadingZero | src/model/Generator.js:9 | the numeral of a positive number does not start with `0` |
| Decimal.PaddedDigits | src/model/Generator.js:9-10 | after `padStart(width, '0')`, position `j` holds the digit of column `width - 1 - j`, including columns beyond the numeral, which are 0 |
| Legacy.PageRandomOperands | script.js:37-68 | the page sampler is `Sample` with each checkbox counted as set only when its element exists and is checked |
| Legacy.PageInRange | script.js:38-46 | the page sampler's operands lie in `[min, max]`, with the module's digit-count bounds |
| Legacy.PageAddition | script.js:40-51 | a checked carry box gives a carry-free pair flagged `true`; an unchecked or missing box gives the first pass unchanged with a `null` flag |
| Legacy.PageSubtraction | script.js:41-57 | `num1 >= num2` always; a checked borrow box gives a borrow-free pair flagged `true`; an unchecked or missing box gives the first pass, larger draw first, with a `null` flag |
| Legacy.PageMultiplyDivide | script.js:59-66 | whatever the boxes say, multiplication takes the first pass, and division returns only a divisor above 1 that divides exactly, with a quotient of at most `max` and operands that differ; both with a `null` flag |
| Legacy.Worksheet.constructor | script.js:1-2 | the page starts in worksheet mode with no problems |
| Legacy.Worksheet.Generate | script.js:183-222 | a missing checkbox element makes `saveSettings()` throw before `currentProblems` is touched, so the old problems stay; otherwise `currentProblems` is emptied and refilled with `Problems(numRows * numCols, …)`, none for a product of 0 or less, and it finishes exactly when all of them are there; the mode is untouched |
| Legacy.Worksheet.TogglePracticeMode | script.js:278-283 | the mode flips and the stored problems stay as they were |

## Left out

- Randomness: the distribution of `Math.random()` is not modelled. The retry loops do not run forever; instead the supply of random values is finite, and "ran out" stands for "still retrying". So termination with probability 1 is not claimed.
- Generator.GetRandomOperands: one stream of random values with a start position stands for the global generator. Between calls, the builders pass on the position where the previous call stopped.
- Generator.DrawOperand: exact real arithmetic stands for IEEE doubles. Rounding in `Math.random() * (max - min + 1)` for very wide ranges is not modelled, and neither are operands beyond 2^53.
- Generator.Apply: results are exact integers. JavaScript `*` rounds products above 2^53, which happens for multiplication from 8 digits on (99999999 × 99999999 is stored as 9999999800000000). Division is integer division: the JavaScript `/` is floating point, but it is only applied to exactly divisible pairs.
- Generator.GenerateProblemSet: the count is an integer; a `NaN` count (from `parseInt` of a non-number), for which the loop also runs zero times, is not modelled.
- Settings: the number of digits is a natural number. `parseInt` giving `NaN`, a negative number or a fraction is not modelled.
- Legacy.Worksheet.Generate: a missing checkbox element makes `generate()` throw in `saveSettings()` (script.js:81-82) before it touches `currentProblems`; the model reports this as `thrown` with the problems unchanged, and does not model the other effects before the throw (the title update). Rows and columns are integers; a `NaN` from `parseInt` is not modelled. The checkboxes are read once per call of the sampler and cannot change during `generate()`, so they are parameters.
- Rendering: the card markup, `formatNumber` (`toLocaleString`), `updateTitle`, `updateVisibility`, `renderProblems`, `toggleAnswers`, the layout arithmetic and CSS variables, and the button label in `togglePracticeMode`. These are presentation code.
- The practice-mode answer check (`input` event handler): it depends on `parseInt` coercion and DOM class changes.
- `saveSettings`/`loadSettings`, src/services/Storage.js, src/model/State.js, src/main.js and src/view/GridRenderer.js: these are persistence, event wiring and rendering, and are not part of this model.
