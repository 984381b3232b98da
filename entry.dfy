/** The digit strings typed on the keypad of the division game: the quotient
    and remainder entries, the per-field updaters of the number and
    backspace buttons, and the decimal reading that `parseInt` gives them. */
module Entry {

  import opened Wrappers

  /** Number of characters an entry may hold (`prev.length >= 5`). */
  const MaxLength: nat := 5

  predicate IsDigit(c: char) {
    '0' <= c <= '9'
  }

  predicate IsDigits(s: string) {
    forall i :: 0 <= i < |s| ==> IsDigit(s[i])
  }

  /** What an entry field can hold: at most MaxLength decimal digits. */
  predicate IsEntry(s: string) {
    |s| <= MaxLength && IsDigits(s)
  }

  function Pow10(k: nat): (p: nat)
    ensures p >= 1
  {
    if k == 0 then 1 else 10 * Pow10(k - 1)
  }

  /** The character `num.toString()` gives for a keypad digit. */
  function DigitChar(d: nat): (c: char)
    requires d <= 9
    ensures IsDigit(c) && DigitValue(c) == d
  {
    ('0' as int + d) as char
  }

  function DigitValue(c: char): (d: nat)
    requires IsDigit(c)
    ensures d <= 9
  {
    c as int - '0' as int
  }

  /** Decimal value of a digit string, most significant digit first; the
      empty string reads as 0. */
  function Decimal(s: string): (n: nat)
    requires IsDigits(s)
    ensures n < Pow10(|s|)
  {
    if s == [] then 0 else 10 * Decimal(s[..|s| - 1]) + DigitValue(s[|s| - 1])
  }

  /** `parseInt` on the strings the keypad can produce: `NaN` (None) for the
      empty string, the decimal value otherwise (leading zeros ignored). */
  function ParseInt(s: string): (v: Option<int>)
    requires IsDigits(s)
    ensures v.None? <==> s == []
    ensures v.Some? ==> 0 <= v.value < Pow10(|s|) && v.value == Decimal(s)
    ensures s != [] && s[0] == '0' ==> v == Some(Decimal(s[1..]))
  {
    if s == [] then None
    else if s[0] == '0' then
      assert s == "0" + s[1..];
      DecimalLeadingZero(s[1..]);
      Some(Decimal(s))
    else Some(Decimal(s))
  }

  /** A leading zero does not change the value: "07" reads as 7. */
  lemma {:induction false} DecimalLeadingZero(t: string)
    requires IsDigits(t)
    ensures Decimal("0" + t) == Decimal(t)
  {
    var s := "0" + t;
    if t == [] {
      assert s[..|s| - 1] == [];
    } else {
      assert s[..|s| - 1] == "0" + t[..|t| - 1];
      DecimalLeadingZero(t[..|t| - 1]);
    }
  }

  /** The updater of a number tap: `prev.length >= 5 ? prev : prev + num`. */
  function TapDigit(prev: string, num: nat): (next: string)
    requires num <= 9
    ensures |prev| >= MaxLength ==> next == prev
    ensures |prev| < MaxLength ==> |next| == |prev| + 1 && next[..|prev|] == prev
    ensures IsEntry(prev) ==> IsEntry(next)
    ensures IsDigits(prev) && |prev| < MaxLength ==> Decimal(next) == 10 * Decimal(prev) + num
  {
    if |prev| >= MaxLength then prev else prev + [DigitChar(num)]
  }

  /** The updater of the backspace button: `prev.slice(0, -1)`. */
  function DropLast(prev: string): (next: string)
    ensures prev == [] ==> next == []
    ensures prev != [] ==> next + [prev[|prev| - 1]] == prev
    ensures IsEntry(prev) ==> IsEntry(next)
    ensures IsDigits(prev) ==> IsDigits(next)
  {
    if prev == [] then [] else prev[..|prev| - 1]
  }

  /** Backspace divides the value of the field by ten. */
  lemma DropLastValue(prev: string)
    requires IsDigits(prev)
    ensures Decimal(DropLast(prev)) == Decimal(prev) / 10
  {
  }

  /** Backspace undoes a tap that was not refused by the length cap. */
  lemma DropLastUndoesTap(prev: string, num: nat)
    requires num <= 9 && |prev| < MaxLength
    ensures DropLast(TapDigit(prev, num)) == prev
  {
  }

  /** The keys a child taps to enter the number n: its decimal digits. */
  function Show(n: nat): (s: string)
    ensures s != [] && IsDigits(s) && Decimal(s) == n
  {
    if n < 10 then [DigitChar(n)]
    else
      var s := Show(n / 10) + [DigitChar(n % 10)];
      assert s[..|s| - 1] == Show(n / 10);
      s
  }

  /** Reading back the keys of n gives n. */
  lemma ParseShow(n: nat)
    ensures ParseInt(Show(n)) == Some(n)
  {
  }

  /** A number below 10^k takes at most k keys. */
  lemma {:induction false} ShowFits(n: nat, k: nat)
    requires 1 <= k && n < Pow10(k)
    ensures |Show(n)| <= k
  {
    if n >= 10 {
      assert k >= 2;
      ShowFits(n / 10, k - 1);
    }
  }
}
