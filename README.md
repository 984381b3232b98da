# Division drill: generator and answer session

A Dafny model of the division drill of a children's arithmetic game
(`DivisionGame` in `src/App.tsx`). It has two parts.

- **Problem generator** (`generation.dfy`, module `Generation`). It models
  `generateProblem`. A level (1-7, with a fixed 10 ÷ 2 for any other value)
  and a sequence of random draws give a problem `{a, b, q, r}`: dividend,
  divisor, quotient and remainder. Each `rand(min, max)` call uses the next
  draw `d`, and `Rand(min, max, d)` picks a value in `[min, max]`. A draw in
  `[0, max - min]` stands for `min + d`. The rejection loops
  (`do … while`) run over the finite draw sequence. They return the first
  pass that leaves the loop, and `OutOfDraws` if the draws run out first.
  Every earlier pass is proved to have been rejected.
- **Answer session** (`session.dfy`, class `Session.DivisionGame`). It holds
  the score, the problem, the quotient and remainder digit strings, the
  focused field, the feedback and a count of `onCorrect` calls. It has one
  method per handler: number tap, backspace, reset, focus, check, next
  problem and retry. The digit-string updaters and their decimal reading are
  pure functions in `entry.dfy` (module `Entry`).

Levels 5 and 7 do not do what their comments promise; see "## Findings".
The generator keeps the code's behaviour, and the intended loop is modelled
beside it (`Generation.RedrawLoop`).

## Model

| member | source | states |
|---|---|---|
| Generation.Rand | src/App.tsx:83-84 | the value lies in `[min, max]`; a draw `d <= max - min` gives `min + d` |
| Generation.RandReachesEveryValue | src/App.tsx:84 | every value of `[min, max]` is produced by some draw |
| Generation.GenerateProblem | src/App.tsx:80-161 | every generated problem meets its level's promises (`ProblemOfLevel`). Level 1 draws `q` and then `b` and returns `q*b ÷ b`. Level 2 is the single pass `Level2Attempt` on the first two draws. Levels 3, 4 and 6 give the first pass with a non-zero remainder, and levels 5 and 7 the first pass that leaves the loop as written; each uses its own ranges, and running out means no pass qualified. Any other level gives 10 ÷ 2 without drawing. |
| Generation.Level2QuotientRange | src/App.tsx:100 | for `b` in 2..9, `floor(99 / b) >= 11`, so level 2's quotient range is never empty |
| Generation.Level2DividendRange | src/App.tsx:99-103 | level 2's `a = q*b` lies in 20..99, so the `a < 10` guard never holds |
| Generation.Level2Attempt | src/App.tsx:99-102 | one level 2 pass gives `b` in 2..9, `q` in 10..floor(99/b), `a = q*b` in 20..99, `r = 0` |
| Generation.Level2Loop | src/App.tsx:95-104 | the level 2 loop body runs exactly once; it runs out of draws only when fewer than two are given |
| Generation.Divisor | src/App.tsx:109 | a pass's divisor comes from its first draw and lies in the level's divisor range (also :118, :127, :139, :148) |
| Generation.Dividend | src/App.tsx:110 | a pass's dividend comes from its second draw and lies in the level's dividend range (also :119, :128, :140, :149) |
| Generation.RemainderAttempt | src/App.tsx:108-113 | one pass of levels 3, 4 and 6 gives `a = b*q + r` with `0 <= r < b`, and `a` and `b` in their ranges |
| Generation.RemainderLoop | src/App.tsx:106-144 | the result is the first pass with `r != 0`; every earlier pass had `r = 0`; running out means every pass had `r = 0` |
| Generation.GuardedExit | src/App.tsx:126-134 | a first pass with `a <= b` always leaves the loop; a later pass leaves it only with `a > b`; a pass with `a > b` leaves it exactly when the remainder is non-zero (same at :146-153) |
| Generation.GuardedAttempt | src/App.tsx:125-154 | an exiting pass of levels 5 and 7 has either `q`, `r` both unset with `a <= b` (first pass only), or `a > b`, `q >= 1`, `0 < r < b` and `a = b*q + r` |
| Generation.GuardedLoop | src/App.tsx:125-154 | the result is the first pass that leaves the loop under the `continue`-to-test semantics; every earlier pass did not leave it |
| Generation.IntendedAttemptIsDivision | src/App.tsx:129-133 | a pass meeting the intended exit gives `a = b*q + r`, `a > b`, `q >= 1` and `0 < r < b` |
| Generation.IntendedDiffersFromWritten | src/App.tsx:125-134 | the draws `[20, 0]` (10 ÷ 30) leave the level 5 loop as written but not the intended one |
| Generation.RedrawLoop | src/App.tsx:125-154 | the corrected loop returns the first pass with `a > b` and a non-zero remainder, so `q` and `r` are always set with `q >= 1` and `0 < r < b` |
| Generation.DivisionIdentity | src/App.tsx:86-158 | levels 1-4, 6 and the default branch satisfy `a = b*q + r` with `0 <= r < b` |
| Generation.RemainderForced | src/App.tsx:106-144 | levels 3, 4 and 6 always give `0 < r < b` |
| Generation.FirstShortDrawExits | src/App.tsx:125-135 | at level 5, a first pass drawing `b = 30`, `a = 10` leaves the loop with `q` and `r` unset |
| Generation.LaterShortDrawRepeats | src/App.tsx:125-135 | at level 5, a pass with `a <= b` after a pass with remainder 0 does not leave the loop |
| Generation.LaterLongDrawExits | src/App.tsx:125-135 | the pass after it, 15 ÷ 10, leaves the loop with `q = 1`, `r = 5` |
| Entry.DigitChar | src/App.tsx:191 | the character of a keypad digit is a digit whose value is that digit |
| Entry.Decimal | src/App.tsx:164-165 | the decimal value of a digit string is below `10^length` |
| Entry.ParseInt | src/App.tsx:164-165 | `parseInt` of a keypad string is `NaN` exactly for the empty string, otherwise a number below `10^length`; a leading zero is ignored ("07" reads as 7) |
| Entry.DecimalLeadingZero | src/App.tsx:164-165 | prefixing a `0` does not change a digit string's value |
| Entry.ParseShow | src/App.tsx:164-165 | `parseInt` of the keys of `n` gives back `n` |
| Entry.TapDigit | src/App.tsx:189-197 | a tap is refused at 5 characters; otherwise it appends one digit and the value becomes `10*old + digit`; an entry stays an entry |
| Entry.DropLast | src/App.tsx:204-206 | backspace removes exactly the last character and keeps the empty string empty; an entry stays an entry |
| Entry.DropLastValue | src/App.tsx:204-206 | backspace divides the field's decimal value by 10 |
| Entry.DropLastUndoesTap | src/App.tsx:187-208 | a backspace after an accepted tap restores the field |
| Session.Judge | src/App.tsx:163-168 | correct exactly when `q` and `r` are defined, the quotient entry is non-empty with value `q`, and the remainder entry's value, blank read as 0, is `r` |
| Session.StrictEquals | src/App.tsx:167-168 | `===` holds exactly when both sides are equal and defined: `NaN` and `undefined` never compare equal |
| Session.NeedsRemainder | src/App.tsx:210 | the remainder field is hidden only at levels whose problems always have remainder 0 |
| Session.UndefinedNeverCorrect | src/App.tsx:167-168 | a problem with `q` or `r` undefined is never judged correct |
| Session.RightAnswerCorrect | src/App.tsx:163-177 | entering the digits of `q` and `r` is judged correct; with `r = 0` a blank remainder is too |
| Session.AnswerFitsEntry | src/App.tsx:187-199 | for every level, a defined answer fits within the 5-character cap |
| Session.SampleProblems | src/App.tsx:163-177 | 28 ÷ 4 answered "7" or "07" is correct; 50 ÷ 7 answered "7" remainder "1" is correct and remainder "0" is not |
| Session.DivisionGame.constructor | src/App.tsx:72-78 | a new game has score 0, empty fields, quotient focused and no feedback |
| Session.DivisionGame.SubmitOffered | src/App.tsx:303 | the answer button is shown exactly when there is no feedback and the quotient field is non-empty; its quotient then parses to a number |
| Session.DivisionGame.HandleNumberClick | src/App.tsx:187-199 | only the focused field changes, by `TapDigit`; both fields stay at most 5 digits |
| Session.DivisionGame.HandleBackspace | src/App.tsx:202-208 | only the focused field changes, by `DropLast` |
| Session.DivisionGame.Reset | src/App.tsx:286 | both fields are emptied; problem, focus, feedback and score are unchanged |
| Session.DivisionGame.Focus | src/App.tsx:247-265 | the tapped box becomes focused; the remainder box exists only from level 3 |
| Session.DivisionGame.CheckAnswer | src/App.tsx:163-177 | feedback is `correct` iff `Judge` holds; on correct the score and the `onCorrect` count rise by exactly 1, on incorrect neither changes; the answer button disappears |
| Session.DivisionGame.NextProblem | src/App.tsx:179-185 | the new problem is installed, fields emptied, quotient focused, feedback cleared, score kept |
| Session.DivisionGame.Retry | src/App.tsx:331 | only the feedback is cleared; problem and entries are kept |

## Findings

| source | as written | input that shows it | evidently intended | confidence | as-written member | corrected member |
|---|---|---|---|---|---|---|
| src/App.tsx:125-154 | `r` starts unset (:81), and `if (a <= b) continue;` (:131, :150) jumps to `while (r === 0)`, which is false for `undefined`; a first pass with `a <= b` returns `q` and `r` undefined, and no answer is ever judged correct for that problem | level 5 with first draws b = 30, a = 10 | redraw until `a > b` and the remainder is non-zero, as the comment at :129-130 and the "with remainder" labels at :33 and :35 say | high, not executed | Generation.GuardedLoop, Generation.FirstShortDrawExits, Generation.IntendedDiffersFromWritten | Generation.RedrawLoop, Generation.IntendedAttemptIsDivision |

`GenerateProblem` and the session keep the as-written loop so that the
session's behaviour (`Session.UndefinedNeverCorrect`) matches the code.

## Left out

- Randomness: `Math.random` and the floating-point scaling in `rand` are replaced by integer draws. The draws' distribution is not modelled.
- GenerateProblem: the unbounded `do … while` loops stop with `OutOfDraws` when the draw sequence is exhausted. So the model says nothing about how likely a loop is to end.
- Session.DivisionGame.NextProblem and Session.DivisionGame.constructor take the new problem as a parameter instead of calling the generator. They require it to meet `ProblemOfLevel`, which is what `GenerateProblem` guarantees.
- `onCorrect`, `useDailyProgress` and `StampCalendar` (the daily progress store and calendar): `onCorrect` is a call counter. `src/hooks/useDailyProgress` and `src/features/division/StampCalendar` are not part of this model.
- The constant `operator: '÷'` field of the problem record is not kept.
- `parseInt` is modelled only on the digit strings the keypad can produce.
- React's deferred state updates are not modelled: each handler is one atomic transition.
- Rendering, styling, animations, icons, the back button, the home screen, the screen switching in `App` and `tailwind.config.js`.
