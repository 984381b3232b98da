/** The problem generator of the division game (`generateProblem`): a level
    and a stream of random draws determine a problem `{a, b, q, r}`
    (dividend, divisor, quotient, remainder).

    Randomness is an input. Each call of `rand(min, max)` consumes the next
    draw `d` of a finite sequence; a draw in `[0, max - min]` stands for the
    value `min + d`. The source's `do … while` rejection loops are unbounded;
    here they stop with `OutOfDraws` when the sequence is exhausted. */
module Generation {

  import opened Wrappers

  /** The record the generator returns. `q` and `r` are `None` when the
      source leaves them `undefined` (levels 5 and 7, see GuardedLoop). */
  datatype Problem = Problem(a: int, b: int, q: Option<int>, r: Option<int>)

  /** The outcome of a generation: the problem and how many draws it used. */
  datatype Outcome = Generated(problem: Problem, used: nat) | OutOfDraws

  /** `rand(min, max)`: an integer in `[min, max]` chosen by the draw `d`. */
  function Rand(min: int, max: int, d: nat): (v: int)
    requires min <= max
    ensures min <= v <= max
    ensures d <= max - min ==> v == min + d
  {
    min + d % (max - min + 1)
  }

  /** Every value of the range is drawn by some draw. */
  lemma RandReachesEveryValue(min: int, max: int, v: int)
    requires min <= v <= max
    ensures Rand(min, max, v - min) == v
  {
  }

  /** The Euclidean-division identity `a = b*q + r`, `0 <= r < b`. */
  predicate Euclidean(p: Problem) {
    p.q.Some? && p.r.Some? && p.a == p.b * p.q.value + p.r.value && 0 <= p.r.value < p.b
  }

  /** What every problem of a level satisfies (the promises of the level
      comments in the source and of its draws' ranges). */
  predicate ProblemOfLevel(lvl: int, p: Problem) {
    match lvl
    case 1 =>
      p.q.Some? && 1 <= p.q.value <= 9 && 1 <= p.b <= 9 && p.a == p.q.value * p.b && p.r == Some(0)
    case 2 =>
      p.q.Some? && 2 <= p.b <= 9 && 10 <= p.q.value <= 99 / p.b && p.a == p.q.value * p.b
      && p.r == Some(0) && 20 <= p.a <= 99
    case 3 => Euclidean(p) && p.r.value != 0 && 2 <= p.b <= 9 && 10 <= p.a <= 99
    case 4 => Euclidean(p) && p.r.value != 0 && 2 <= p.b <= 9 && 100 <= p.a <= 999
    case 5 => GuardedOutcome(p) && 10 <= p.b <= 98 && 10 <= p.a <= 99
    case 6 => Euclidean(p) && p.r.value != 0 && 10 <= p.b <= 99 && 100 <= p.a <= 999
    case 7 => GuardedOutcome(p) && 100 <= p.b <= 998 && 100 <= p.a <= 999
    case _ => p == Problem(10, 2, Some(5), Some(0))
  }

  /** Levels 5 and 7: either q and r are both unset and `a <= b`, or both
      are set, `a > b`, `q >= 1` and the remainder is non-zero. */
  predicate GuardedOutcome(p: Problem) {
    && (p.q.None? <==> p.r.None?)
    && (p.q.None? ==> p.a <= p.b)
    && (p.q.Some? ==> Euclidean(p) && p.a > p.b && p.q.value >= 1 && p.r.value != 0)
  }

  /** Level 2 draws `q` from `[10, floor(99 / b)]`: never an empty range. */
  lemma Level2QuotientRange(b: int)
    requires 2 <= b <= 9
    ensures 11 <= 99 / b
  {
  }

  /** Level 2: `a = q*b` lies in `[20, 99]`, so the `a < 10` guard never
      repeats the loop. */
  lemma Level2DividendRange(b: int, q: int)
    requires 2 <= b <= 9 && 10 <= q <= 99 / b
    ensures 20 <= q * b <= 99
  {
  }

  // ---------------------------------------------------------------------
  // One pass of a rejection loop: two draws, divisor first.

  /** The ranges of the two draws of one pass: divisor `b`, then dividend `a`. */
  datatype Ranges = Ranges(bLo: int, bHi: int, aLo: int, aHi: int) {
    predicate Valid() {
      0 < bLo <= bHi && 0 <= aLo <= aHi
    }
  }

  /** The divisor drawn by pass k (draw 2k). */
  function Divisor(rg: Ranges, draws: seq<nat>, k: nat): (b: int)
    requires rg.Valid() && 2 * k + 1 < |draws|
    ensures rg.bLo <= b <= rg.bHi
  {
    Rand(rg.bLo, rg.bHi, draws[2 * k])
  }

  /** The dividend drawn by pass k (draw 2k + 1). */
  function Dividend(rg: Ranges, draws: seq<nat>, k: nat): (a: int)
    requires rg.Valid() && 2 * k + 1 < |draws|
    ensures rg.aLo <= a <= rg.aHi
  {
    Rand(rg.aLo, rg.aHi, draws[2 * k + 1])
  }

  /** The problem pass k of levels 3, 4 and 6 computes:
      `q = Math.floor(a / b)`, `r = a % b` (both operands positive). */
  function RemainderAttempt(rg: Ranges, draws: seq<nat>, k: nat): (p: Problem)
    requires rg.Valid() && 2 * k + 1 < |draws|
    ensures Euclidean(p)
    ensures rg.bLo <= p.b <= rg.bHi && rg.aLo <= p.a <= rg.aHi
  {
    var b := Divisor(rg, draws, k);
    var a := Dividend(rg, draws, k);
    Problem(a, b, Some(a / b), Some(a % b))
  }

  /** Whether pass k of levels 5 and 7 leaves the loop. On pass 0 a draw
      with `a <= b` skips to the test `r === 0` with r still undefined, which
      is false; on a later pass r still holds the 0 that kept the loop
      going, so such a draw loops again. */
  predicate GuardedExit(rg: Ranges, draws: seq<nat>, k: nat): (exits: bool)
    requires rg.Valid() && 2 * k + 1 < |draws|
    ensures k > 0 && exits ==> Dividend(rg, draws, k) > Divisor(rg, draws, k)
    ensures exits && Dividend(rg, draws, k) > Divisor(rg, draws, k) ==>
      Dividend(rg, draws, k) % Divisor(rg, draws, k) != 0
    ensures k == 0 && Dividend(rg, draws, k) <= Divisor(rg, draws, k) ==> exits
    ensures (Dividend(rg, draws, k) > Divisor(rg, draws, k)
             && Dividend(rg, draws, k) % Divisor(rg, draws, k) != 0) ==> exits
  {
    var b := Divisor(rg, draws, k);
    var a := Dividend(rg, draws, k);
    if a <= b then k == 0 else a % b != 0
  }

  /** The problem levels 5 and 7 return when pass k leaves the loop. */
  function GuardedAttempt(rg: Ranges, draws: seq<nat>, k: nat): (p: Problem)
    requires rg.Valid() && 2 * k + 1 < |draws|
    requires GuardedExit(rg, draws, k)
    ensures GuardedOutcome(p)
    ensures rg.bLo <= p.b <= rg.bHi && rg.aLo <= p.a <= rg.aHi
    ensures p.q.None? <==> k == 0 && p.a <= p.b
  {
    var b := Divisor(rg, draws, k);
    var a := Dividend(rg, draws, k);
    if a <= b then Problem(a, b, None, None) else Problem(a, b, Some(a / b), Some(a % b))
  }

  /** The problem the single pass of level 2 computes. */
  function Level2Attempt(d0: nat, d1: nat): (p: Problem)
    ensures ProblemOfLevel(2, p)
  {
    var b := Rand(2, 9, d0);
    Level2QuotientRange(b);
    var q := Rand(10, 99 / b, d1);
    Level2DividendRange(b, q);
    Problem(q * b, b, Some(q), Some(0))
  }

  // ---------------------------------------------------------------------
  // What the rejection loops return.

  /** Levels 3, 4 and 6: the result is the first pass whose remainder is
      non-zero, every earlier pass having remainder 0; running out of draws
      means every complete pass had remainder 0. */
  predicate RemainderResult(rg: Ranges, draws: seq<nat>, res: Outcome)
    requires rg.Valid()
  {
    && (res.Generated? ==>
      && res.used % 2 == 0 && 2 <= res.used <= |draws|
      && res.problem == RemainderAttempt(rg, draws, res.used / 2 - 1)
      && res.problem.r.value != 0
      && forall j :: 0 <= j < res.used / 2 - 1 ==> RemainderAttempt(rg, draws, j).r == Some(0))
    && (res.OutOfDraws? ==>
      forall j :: 0 <= j < |draws| / 2 ==> RemainderAttempt(rg, draws, j).r == Some(0))
  }

  /** Levels 5 and 7: the result is the first pass that leaves the loop
      (GuardedExit), no earlier pass having left it; running out of draws
      means no complete pass left it. */
  predicate GuardedResult(rg: Ranges, draws: seq<nat>, res: Outcome)
    requires rg.Valid()
  {
    && (res.Generated? ==>
      && res.used % 2 == 0 && 2 <= res.used <= |draws|
      && GuardedExit(rg, draws, res.used / 2 - 1)
      && res.problem == GuardedAttempt(rg, draws, res.used / 2 - 1)
      && forall j :: 0 <= j < res.used / 2 - 1 ==> !GuardedExit(rg, draws, j))
    && (res.OutOfDraws? ==>
      forall j :: 0 <= j < |draws| / 2 ==> !GuardedExit(rg, draws, j))
  }

  // ---------------------------------------------------------------------
  // The loops.

  /** Level 2's `do … while (a < 10)`: the body runs exactly once. */
  method Level2Loop(draws: seq<nat>) returns (res: Outcome)
    ensures res.OutOfDraws? <==> |draws| < 2
    ensures res.Generated? ==> res.used == 2 && res.problem == Level2Attempt(draws[0], draws[1])
  {
    var a, b, q, r := 0, 0, 0, 0;
    var pos := 0;
    var again := true;
    while again
      invariant pos <= |draws|
      invariant again ==> pos == 0
      invariant !again ==> pos == 2 && Problem(a, b, Some(q), Some(r)) == Level2Attempt(draws[0], draws[1])
      decreases |draws| - pos
    {
      if |draws| - pos < 2 {
        return OutOfDraws;
      }
      b := Rand(2, 9, draws[pos]);
      Level2QuotientRange(b);
      q := Rand(10, 99 / b, draws[pos + 1]);
      a := q * b;
      r := 0;
      pos := pos + 2;
      Level2DividendRange(b, q);
      again := a < 10;
    }
    res := Generated(Problem(a, b, Some(q), Some(r)), pos);
  }

  /** Levels 3, 4 and 6: `do { b = rand(..); a = rand(..); q = a / b;
      r = a % b } while (r === 0)`. The result is the first pass whose
      remainder is non-zero; every earlier pass had remainder 0. */
  method RemainderLoop(rg: Ranges, draws: seq<nat>) returns (res: Outcome)
    requires rg.Valid()
    ensures RemainderResult(rg, draws, res)
  {
    var a, b, q, r := 0, 0, 0, 0;
    var pos := 0;
    var again := true;
    while again
      invariant pos % 2 == 0 && pos <= |draws|
      invariant again ==> forall j :: 0 <= j < pos / 2 ==> RemainderAttempt(rg, draws, j).r == Some(0)
      invariant !again ==>
        && 2 <= pos
        && Problem(a, b, Some(q), Some(r)) == RemainderAttempt(rg, draws, pos / 2 - 1)
        && r != 0
        && forall j :: 0 <= j < pos / 2 - 1 ==> RemainderAttempt(rg, draws, j).r == Some(0)
      decreases |draws| - pos
    {
      if |draws| - pos < 2 {
        return OutOfDraws;
      }
      b := Rand(rg.bLo, rg.bHi, draws[pos]);
      a := Rand(rg.aLo, rg.aHi, draws[pos + 1]);
      q := a / b;
      r := a % b;
      pos := pos + 2;
      again := r == 0;
    }
    res := Generated(Problem(a, b, Some(q), Some(r)), pos);
  }

  /** Levels 5 and 7: as RemainderLoop, but `if (a <= b) continue;` skips
      the computation of q and r and jumps to the test `r === 0`. The result
      is the first pass that leaves the loop (GuardedExit); every earlier
      pass did not. */
  method GuardedLoop(rg: Ranges, draws: seq<nat>) returns (res: Outcome)
    requires rg.Valid()
    ensures GuardedResult(rg, draws, res)
  {
    var a, b := 0, 0;
    var q: Option<int>, r: Option<int> := None, None;
    var pos := 0;
    var again := true;
    while again
      invariant pos % 2 == 0 && pos <= |draws|
      invariant again ==>
        && (forall j :: 0 <= j < pos / 2 ==> !GuardedExit(rg, draws, j))
        && (pos == 0 ==> q == None && r == None)
        && (pos > 0 ==> r == Some(0))
      invariant !again ==>
        && 2 <= pos
        && GuardedExit(rg, draws, pos / 2 - 1)
        && Problem(a, b, q, r) == GuardedAttempt(rg, draws, pos / 2 - 1)
        && forall j :: 0 <= j < pos / 2 - 1 ==> !GuardedExit(rg, draws, j)
      decreases |draws| - pos
    {
      if |draws| - pos < 2 {
        return OutOfDraws;
      }
      b := Rand(rg.bLo, rg.bHi, draws[pos]);
      a := Rand(rg.aLo, rg.aHi, draws[pos + 1]);
      pos := pos + 2;
      if a > b {
        q := Some(a / b);
        r := Some(a % b);
      }
      again := r == Some(0);
    }
    res := Generated(Problem(a, b, q, r), pos);
  }

  // ---------------------------------------------------------------------
  // The evidently intended loop of levels 5 and 7: redraw until `a > b`
  // and the remainder is non-zero, whatever the pass.

  /** The intended exit test of levels 5 and 7. */
  predicate IntendedExit(rg: Ranges, draws: seq<nat>, k: nat)
    requires rg.Valid() && 2 * k + 1 < |draws|
  {
    Dividend(rg, draws, k) > Divisor(rg, draws, k)
    && Dividend(rg, draws, k) % Divisor(rg, draws, k) != 0
  }

  /** A pass meeting the intended test gives what the comment at the level
      promises: `a > b`, `q >= 1` and a non-zero remainder. */
  lemma IntendedAttemptIsDivision(rg: Ranges, draws: seq<nat>, k: nat)
    requires rg.Valid() && 2 * k + 1 < |draws|
    requires IntendedExit(rg, draws, k)
    ensures var p := RemainderAttempt(rg, draws, k);
      Euclidean(p) && p.a > p.b && p.q.value >= 1 && 0 < p.r.value < p.b
  {
  }

  /** The draws [20, 0] at level 5 (10 ÷ 30 on the first pass) leave the
      loop as written but not the intended one. */
  lemma IntendedDiffersFromWritten()
    ensures GuardedExit(Ranges(10, 98, 10, 99), [20, 0], 0)
    ensures !IntendedExit(Ranges(10, 98, 10, 99), [20, 0], 0)
  {
    var rg := Ranges(10, 98, 10, 99);
    assert Divisor(rg, [20, 0], 0) == 30;
    assert Dividend(rg, [20, 0], 0) == 10;
  }

  /** The corrected loop of levels 5 and 7: the result is the first pass
      meeting IntendedExit, so q and r are always set, with `a > b`,
      `q >= 1` and `0 < r < b`. */
  method RedrawLoop(rg: Ranges, draws: seq<nat>) returns (res: Outcome)
    requires rg.Valid()
    ensures res.Generated? ==>
      && res.used % 2 == 0 && 2 <= res.used <= |draws|
      && IntendedExit(rg, draws, res.used / 2 - 1)
      && res.problem == RemainderAttempt(rg, draws, res.used / 2 - 1)
      && Euclidean(res.problem) && res.problem.a > res.problem.b
      && res.problem.q.value >= 1 && res.problem.r.value != 0
      && forall j :: 0 <= j < res.used / 2 - 1 ==> !IntendedExit(rg, draws, j)
    ensures res.OutOfDraws? ==>
      forall j :: 0 <= j < |draws| / 2 ==> !IntendedExit(rg, draws, j)
  {
    var a, b := 0, 0;
    var pos := 0;
    var again := true;
    while again
      invariant pos % 2 == 0 && pos <= |draws|
      invariant again ==> forall j :: 0 <= j < pos / 2 ==> !IntendedExit(rg, draws, j)
      invariant !again ==>
        && 2 <= pos
        && IntendedExit(rg, draws, pos / 2 - 1)
        && a == Dividend(rg, draws, pos / 2 - 1) && b == Divisor(rg, draws, pos / 2 - 1)
        && forall j :: 0 <= j < pos / 2 - 1 ==> !IntendedExit(rg, draws, j)
      decreases |draws| - pos
    {
      if |draws| - pos < 2 {
        return OutOfDraws;
      }
      b := Rand(rg.bLo, rg.bHi, draws[pos]);
      a := Rand(rg.aLo, rg.aHi, draws[pos + 1]);
      pos := pos + 2;
      again := a <= b || a % b == 0;
    }
    IntendedAttemptIsDivision(rg, draws, pos / 2 - 1);
    res := Generated(Problem(a, b, Some(a / b), Some(a % b)), pos);
  }

  /** `generateProblem(lvl)`: dispatch on the level; an unknown level gives
      the fixed problem 10 ÷ 2. */
  method GenerateProblem(lvl: int, draws: seq<nat>) returns (res: Outcome)
    ensures res.Generated? ==> res.used <= |draws| && ProblemOfLevel(lvl, res.problem)
    ensures lvl == 1 || lvl == 2 ==> (res.OutOfDraws? <==> |draws| < 2)
    ensures lvl == 1 || lvl == 2 ==> res.Generated? ==> res.used == 2
    ensures !(1 <= lvl <= 7) ==> res.Generated? && res.used == 0
    ensures lvl == 1 && res.Generated? ==>
      var q, b := Rand(1, 9, draws[0]), Rand(1, 9, draws[1]);
      res.problem == Problem(q * b, b, Some(q), Some(0))
    ensures lvl == 2 && res.Generated? ==> res.problem == Level2Attempt(draws[0], draws[1])
    ensures lvl == 3 ==> RemainderResult(Ranges(2, 9, 10, 99), draws, res)
    ensures lvl == 4 ==> RemainderResult(Ranges(2, 9, 100, 999), draws, res)
    ensures lvl == 5 ==> GuardedResult(Ranges(10, 98, 10, 99), draws, res)
    ensures lvl == 6 ==> RemainderResult(Ranges(10, 99, 100, 999), draws, res)
    ensures lvl == 7 ==> GuardedResult(Ranges(100, 998, 100, 999), draws, res)
  {
    match lvl
    case 1 =>
      if |draws| < 2 {
        res := OutOfDraws;
      } else {
        var q := Rand(1, 9, draws[0]);
        var b := Rand(1, 9, draws[1]);
        res := Generated(Problem(q * b, b, Some(q), Some(0)), 2);
      }
    case 2 =>
      res := Level2Loop(draws);
    case 3 =>
      res := RemainderLoop(Ranges(2, 9, 10, 99), draws);
    case 4 =>
      res := RemainderLoop(Ranges(2, 9, 100, 999), draws);
    case 5 =>
      res := GuardedLoop(Ranges(10, 98, 10, 99), draws);
    case 6 =>
      res := RemainderLoop(Ranges(10, 99, 100, 999), draws);
    case 7 =>
      res := GuardedLoop(Ranges(100, 998, 100, 999), draws);
    case _ =>
      res := Generated(Problem(10, 2, Some(5), Some(0)), 0);
  }

  /** Levels 1-4, 6 and the default problem satisfy the Euclidean-division
      identity. */
  lemma DivisionIdentity(lvl: int, p: Problem)
    requires ProblemOfLevel(lvl, p)
    requires lvl != 5 && lvl != 7
    ensures Euclidean(p)
  {
  }

  /** Levels 3, 4 and 6 always have a remainder: `0 < r < b`. */
  lemma RemainderForced(lvl: int, p: Problem)
    requires ProblemOfLevel(lvl, p)
    requires lvl == 3 || lvl == 4 || lvl == 6
    ensures p.r.Some? && 0 < p.r.value < p.b
  {
  }
  /** The `continue` quirk of level 5 on concrete draws, first case: a
      first pass drawing b = 30, a = 10 returns with q and r unset. */
  lemma FirstShortDrawExits()
    ensures GuardedExit(Ranges(10, 98, 10, 99), [20, 0], 0)
    ensures GuardedAttempt(Ranges(10, 98, 10, 99), [20, 0], 0) == Problem(10, 30, None, None)
  {
    var rg := Ranges(10, 98, 10, 99);
    assert Divisor(rg, [20, 0], 0) == 30;
    assert Dividend(rg, [20, 0], 0) == 10;
  }

  /** Second case: after a pass 60 / 20 with remainder 0, a pass drawing
      b = 50, a = 10 repeats the loop ... */
  lemma LaterShortDrawRepeats()
    ensures !GuardedExit(Ranges(10, 98, 10, 99), [10, 50, 40, 0, 0, 5], 0)
    ensures !GuardedExit(Ranges(10, 98, 10, 99), [10, 50, 40, 0, 0, 5], 1)
  {
    var rg, d := Ranges(10, 98, 10, 99), [10, 50, 40, 0, 0, 5];
    assert !GuardedExit(rg, d, 0) by {
      assert Divisor(rg, d, 0) == 20 && Dividend(rg, d, 0) == 60;
    }
    assert Divisor(rg, d, 1) == 50 && Dividend(rg, d, 1) == 10;
  }

  /** ... and the following pass 15 / 10 ends it with q = 1, r = 5. */
  lemma LaterLongDrawExits()
    ensures GuardedExit(Ranges(10, 98, 10, 99), [10, 50, 40, 0, 0, 5], 2)
    ensures GuardedAttempt(Ranges(10, 98, 10, 99), [10, 50, 40, 0, 0, 5], 2)
      == Problem(15, 10, Some(1), Some(5))
  {
    var rg, d := Ranges(10, 98, 10, 99), [10, 50, 40, 0, 0, 5];
    assert Divisor(rg, d, 2) == 10 && Dividend(rg, d, 2) == 15;
  }
}
