/** The answer-entry session of the division game (`DivisionGame`): the
    score, the current problem, the two entry fields, the focused field and
    the feedback shown, updated by the keypad and button handlers. */
module Session {

  import opened Wrappers
  import opened Entry
  import opened Generation

  datatype Field = Quotient | Remainder

  /** `null`, `'correct'` or `'incorrect'`. */
  datatype Feedback = NoFeedback | Correct | Incorrect

  /** The remainder field is shown from level 3 on (`needsRemainder`). The
      levels without it always have remainder 0, which is what the hidden,
      blank remainder field is read as. */
  predicate NeedsRemainder(level: int): (needs: bool)
    ensures !needs ==> forall p :: ProblemOfLevel(level, p) ==> p.r == Some(0)
  {
    level >= 3
  }

  /** JavaScript's `===` between a parsed entry and a problem field: false
      whenever either side is `NaN` or `undefined` (None). This is only the
      primitive comparison; what a correct answer means, in decimal values,
      is stated by Judge. */
  predicate StrictEquals(x: Option<int>, y: Option<int>): (eq: bool)
    ensures eq <==> x == y && x != None
  {
    x.Some? && y.Some? && x.value == y.value
  }

  /** The comparison of `checkAnswer`: the quotient entry must parse to q
      and the remainder entry, read as "0" when blank, must parse to r. */
  function Judge(p: Problem, quotientText: string, remainderText: string): (correct: bool)
    requires IsDigits(quotientText) && IsDigits(remainderText)
    ensures correct <==>
      && p.q.Some? && p.r.Some?
      && quotientText != []
      && Decimal(quotientText) == p.q.value
      && Decimal(remainderText) == p.r.value
  {
    var inputQ := ParseInt(quotientText);
    var inputR := ParseInt(if remainderText == [] then "0" else remainderText);
    StrictEquals(inputQ, p.q) && StrictEquals(inputR, p.r)
  }

  /** A problem whose quotient is undefined (levels 5 and 7) is never
      judged correct, whatever is entered. */
  lemma UndefinedNeverCorrect(p: Problem, quotientText: string, remainderText: string)
    requires IsDigits(quotientText) && IsDigits(remainderText)
    requires p.q.None? || p.r.None?
    ensures !Judge(p, quotientText, remainderText)
  {
  }

  /** Entering the digits of q and r is judged correct; when r is 0 the
      remainder field may also be left blank. */
  lemma RightAnswerCorrect(p: Problem)
    requires p.q.Some? && p.r.Some? && p.q.value >= 0 && p.r.value >= 0
    ensures Judge(p, Show(p.q.value), Show(p.r.value))
    ensures p.r.value == 0 ==> Judge(p, Show(p.q.value), [])
  {
  }

  /** Every problem of every level whose quotient is defined can be answered
      within the five-key cap of the entry fields. */
  lemma AnswerFitsEntry(lvl: int, p: Problem)
    requires ProblemOfLevel(lvl, p) && p.q.Some? && p.r.Some?
    ensures p.q.value >= 0 && p.r.value >= 0
    ensures IsEntry(Show(p.q.value)) && IsEntry(Show(p.r.value))
  {
    if lvl != 5 && lvl != 7 {
      DivisionIdentity(lvl, p);
    }
    var q, r := p.q.value, p.r.value;
    assert 0 <= r < p.b && 0 <= p.a <= 999;
    QuotientBounded(p.a, p.b, q, r);
    assert Pow10(5) == 100000;
    ShowFits(q, 5);
    ShowFits(r, 5);
  }

  /** From `a = b*q + r` with `0 <= r < b` and `a >= 0`: `0 <= q <= a`. */
  lemma QuotientBounded(a: int, b: int, q: int, r: int)
    requires a >= 0 && 0 <= r < b && a == b * q + r
    ensures 0 <= q <= a
  {
  }

  /** Two sample problems: 28 ÷ 4 at level 1 answered "7" or "07", and 50 ÷ 7
      at level 3 answered "7" remainder "1" (correct) or "0" (incorrect). */
  lemma SampleProblems()
    ensures ProblemOfLevel(1, Problem(28, 4, Some(7), Some(0)))
    ensures Judge(Problem(28, 4, Some(7), Some(0)), "7", "")
    ensures Judge(Problem(28, 4, Some(7), Some(0)), "07", "")
    ensures ProblemOfLevel(3, Problem(50, 7, Some(7), Some(1)))
    ensures Judge(Problem(50, 7, Some(7), Some(1)), "7", "1")
    ensures !Judge(Problem(50, 7, Some(7), Some(1)), "7", "0")
  {
  }

  class DivisionGame {
    const level: int
    var score: nat
    var problem: Problem
    var userAnswer: string
    var userRemainder: string
    var focusedInput: Field
    var feedback: Feedback
    /** How many times `onCorrect` has been called. */
    var correctCalls: nat

    ghost predicate Valid()
      reads this
    {
      && IsEntry(userAnswer) && IsEntry(userRemainder)
      && ProblemOfLevel(level, problem)
      && correctCalls == score
      && (!NeedsRemainder(level) ==> focusedInput == Quotient && userRemainder == [])
    }

    /** Mounting the game screen: `first` is the output of GenerateProblem
        for this level. */
    constructor (level: int, first: Problem)
      requires ProblemOfLevel(level, first)
      ensures Valid()
      ensures this.level == level && problem == first && score == 0
      ensures userAnswer == [] && userRemainder == []
      ensures focusedInput == Quotient && feedback == NoFeedback
    {
      this.level := level;
      score := 0;
      problem := first;
      userAnswer := [];
      userRemainder := [];
      focusedInput := Quotient;
      feedback := NoFeedback;
      correctCalls := 0;
    }

    /** The answer button is shown only while no feedback is shown and the
        quotient field is not empty; then the quotient parses to a number. */
    function SubmitOffered(): (offered: bool)
      reads this
      requires Valid()
      ensures offered <==> feedback == NoFeedback && userAnswer != []
      ensures offered ==> ParseInt(userAnswer).Some?
    {
      feedback == NoFeedback && userAnswer != []
    }

    /** `handleNumberClick(num)`: appends the digit to the focused field
        unless it already holds five characters. */
    method HandleNumberClick(num: nat)
      requires Valid() && num <= 9
      modifies this
      ensures Valid()
      ensures focusedInput == Quotient ==>
        userAnswer == TapDigit(old(userAnswer), num) && userRemainder == old(userRemainder)
      ensures focusedInput == Remainder ==>
        userRemainder == TapDigit(old(userRemainder), num) && userAnswer == old(userAnswer)
      ensures focusedInput == old(focusedInput) && problem == old(problem)
      ensures score == old(score) && correctCalls == old(correctCalls) && feedback == old(feedback)
    {
      if focusedInput == Quotient {
        userAnswer := TapDigit(userAnswer, num);
      } else {
        userRemainder := TapDigit(userRemainder, num);
      }
    }

    /** `handleBackspace`: removes the last character of the focused field. */
    method HandleBackspace()
      requires Valid()
      modifies this
      ensures Valid()
      ensures focusedInput == Quotient ==>
        userAnswer == DropLast(old(userAnswer)) && userRemainder == old(userRemainder)
      ensures focusedInput == Remainder ==>
        userRemainder == DropLast(old(userRemainder)) && userAnswer == old(userAnswer)
      ensures focusedInput == old(focusedInput) && problem == old(problem)
      ensures score == old(score) && correctCalls == old(correctCalls) && feedback == old(feedback)
    {
      if focusedInput == Quotient {
        userAnswer := DropLast(userAnswer);
      } else {
        userRemainder := DropLast(userRemainder);
      }
    }

    /** The reset button: empties both fields and nothing else. */
    method Reset()
      requires Valid()
      modifies this
      ensures Valid()
      ensures userAnswer == [] && userRemainder == []
      ensures focusedInput == old(focusedInput) && problem == old(problem)
      ensures score == old(score) && correctCalls == old(correctCalls) && feedback == old(feedback)
    {
      userAnswer := [];
      userRemainder := [];
    }

    /** Tapping an entry box focuses it; the remainder box exists only from
        level 3 on. */
    method Focus(field: Field)
      requires Valid()
      requires field == Remainder ==> NeedsRemainder(level)
      modifies this
      ensures Valid()
      ensures focusedInput == field
      ensures userAnswer == old(userAnswer) && userRemainder == old(userRemainder)
      ensures problem == old(problem) && feedback == old(feedback)
      ensures score == old(score) && correctCalls == old(correctCalls)
    {
      focusedInput := field;
    }

    /** `checkAnswer`, reached through the answer button: a correct answer
        shows `'correct'`, adds exactly 1 to the score and calls `onCorrect`
        once; any other answer shows `'incorrect'` and changes neither. */
    method CheckAnswer()
      requires Valid() && SubmitOffered()
      modifies this
      ensures Valid()
      ensures feedback == (if Judge(problem, userAnswer, userRemainder) then Correct else Incorrect)
      ensures feedback == Correct ==> score == old(score) + 1 && correctCalls == old(correctCalls) + 1
      ensures feedback == Incorrect ==> score == old(score) && correctCalls == old(correctCalls)
      ensures !SubmitOffered()
      ensures userAnswer == old(userAnswer) && userRemainder == old(userRemainder)
      ensures focusedInput == old(focusedInput) && problem == old(problem)
    {
      var inputQ := ParseInt(userAnswer);
      var inputR := ParseInt(if userRemainder == [] then "0" else userRemainder);
      if StrictEquals(inputQ, problem.q) && StrictEquals(inputR, problem.r) {
        feedback := Correct;
        score := score + 1;
        correctCalls := correctCalls + 1;
      } else {
        feedback := Incorrect;
      }
    }

    /** `nextProblem`, offered after a correct answer: `next` is the output of
        GenerateProblem for this level; the fields are emptied, the quotient
        focused and the feedback cleared; the score is kept. */
    method NextProblem(next: Problem)
      requires Valid() && feedback == Correct
      requires ProblemOfLevel(level, next)
      modifies this
      ensures Valid()
      ensures problem == next && userAnswer == [] && userRemainder == []
      ensures focusedInput == Quotient && feedback == NoFeedback
      ensures score == old(score) && correctCalls == old(correctCalls)
    {
      problem := next;
      userAnswer := [];
      userRemainder := [];
      focusedInput := Quotient;
      feedback := NoFeedback;
    }

    /** The retry button, offered after an incorrect answer: clears the
        feedback and keeps the problem and both entries, so the answer button
        is offered again unless the quotient was erased meanwhile. */
    method Retry()
      requires Valid() && feedback == Incorrect
      modifies this
      ensures Valid()
      ensures feedback == NoFeedback
      ensures userAnswer == old(userAnswer) && userRemainder == old(userRemainder)
      ensures focusedInput == old(focusedInput) && problem == old(problem)
      ensures score == old(score) && correctCalls == old(correctCalls)
      ensures SubmitOffered() <==> userAnswer != []
    {
      feedback := NoFeedback;
    }
  }
}
