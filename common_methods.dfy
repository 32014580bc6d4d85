/**
 * The card-number check, the CVV check and the masking of strings used by the payment API.
 * The card check is modelled as the code computes it, which is not textbook Luhn: each
 * character counts as its code minus 48 whatever it is, the transformed values are written out
 * as decimal text whose characters are summed again, the remainder is C#'s truncating `%`,
 * and the right-hand side is `10 - last` without reduction modulo 10.
 */
module CommonMethods {
  import opened Wrappers
  import opened Strings

  // ---------------------------------------------------------------------------------------
  // Arithmetic and text conversions the card check goes through
  // ---------------------------------------------------------------------------------------

  /** `c - 48` in C#: the digit value of '0'..'9', and some other number for any other char. */
  function CharValue(c: char): int {
    c as int - 48
  }

  predicate IsDigit(c: char) {
    '0' <= c <= '9'
  }

  /** C#'s `%` on int, which truncates toward zero: the remainder takes the sign of `a`. */
  function CsRemainder(a: int, m: int): (r: int)
    requires m > 0
    ensures a >= 0 ==> r == a % m
    ensures -m < r < m
    ensures a >= 0 ==> r >= 0
  {
    if a >= 0 then a % m else -((-a) % m)
  }

  /** The digits of a natural number in decimal, without leading zeros. */
  function NatText(n: nat): (r: string)
    ensures |r| >= 1
    ensures forall i | 0 <= i < |r| :: IsDigit(r[i])
    decreases n
  {
    var d := [(48 + n % 10) as char];
    if n < 10 then d else NatText(n / 10) + d
  }

  /** int.ToString(): the decimal text of an integer, with a leading '-' when it is negative. */
  function IntText(n: int): string {
    if n < 0 then "-" + NatText(-n) else NatText(n)
  }

  /** The sum over the characters of `t` of (c - 48), as `calculatedNumbers.Sum(e => e - 48)`. */
  function TextSum(t: string): int {
    if t == [] then 0 else TextSum(t[..|t| - 1]) + CharValue(t[|t| - 1])
  }

  function Reversed(s: string): (r: string)
    ensures |r| == |s|
    ensures forall i | 0 <= i < |s| :: r[i] == s[|s| - 1 - i]
  {
    if s == [] then [] else Reversed(s[1..]) + [s[0]]
  }

  /** The value the loop appends for the value `v` at 1-based `position`: odd positions are doubled, minus 9 above 9. */
  function Transform(v: int, position: nat): int {
    if position % 2 == 1 then
      if v * 2 > 9 then v * 2 - 9 else v * 2
    else v
  }

  /** `calculatedNumbers` after the loop has visited every character of `rev`. */
  function CalculatedText(rev: string): string {
    if rev == [] then ""
    else CalculatedText(rev[..|rev| - 1]) + IntText(Transform(CharValue(rev[|rev| - 1]), |rev|))
  }

  lemma CalculatedTextStep(rev: string, i: nat)
    requires i < |rev|
    ensures CalculatedText(rev[..i + 1]) == CalculatedText(rev[..i]) + IntText(Transform(CharValue(rev[i]), i + 1))
  {
    assert rev[..i + 1][..i] == rev[..i];
  }

  /** What IsCardNumberValid returns, as the code computes it. */
  predicate CardNumberValid(card: Option<string>) {
    if IsNullOrWhiteSpace(card) then false
    else
      var s := card.value;
      var sum := TextSum(CalculatedText(Reversed(s[..|s| - 1])));
      CsRemainder(sum, 10) == 10 - CharValue(s[|s| - 1])
  }

  // ---------------------------------------------------------------------------------------
  // The operations
  // ---------------------------------------------------------------------------------------

  /** IsCardNumberValid: drop the check digit, reverse, transform, sum the text, compare. */
  method IsCardNumberValid(creditCardNumber: Option<string>) returns (valid: bool)
    ensures valid == CardNumberValid(creditCardNumber)
    ensures IsNullOrWhiteSpace(creditCardNumber) ==> !valid
  {
    if IsNullOrWhiteSpace(creditCardNumber) {
      return false;
    }
    var s := creditCardNumber.value;
    var noLastDigit := s[..|s| - 1];
    var reversedNumbers := Reversed(noLastDigit);
    var calculatedNumbers := "";
    for i := 0 to |reversedNumbers|
      invariant calculatedNumbers == CalculatedText(reversedNumbers[..i])
    {
      CalculatedTextStep(reversedNumbers, i);
      var position := i + 1;
      var intNumber := CharValue(reversedNumbers[i]);
      if position % 2 == 1 {
        var numberMultipliedBy2 := intNumber * 2;
        if numberMultipliedBy2 > 9 {
          calculatedNumbers := calculatedNumbers + IntText(numberMultipliedBy2 - 9);
          continue;
        }
        calculatedNumbers := calculatedNumbers + IntText(numberMultipliedBy2);
        continue;
      }
      calculatedNumbers := calculatedNumbers + IntText(intNumber);
    }
    assert reversedNumbers[..|reversedNumbers|] == reversedNumbers;
    var sum := TextSum(calculatedNumbers);
    valid := CsRemainder(sum, 10) == 10 - CharValue(s[|s| - 1]);
  }

  /** IsCvvValid: three or four characters, each in '0'..'9'. A null CVV dereferences, so the argument is a string. */
  predicate IsCvvValid(cvv: string)
    ensures IsCvvValid(cvv) <==> (|cvv| == 3 || |cvv| == 4) && forall i | 0 <= i < |cvv| :: IsDigit(cvv[i])
  {
    3 <= |cvv| <= 4 && forall i | 0 <= i < |cvv| :: 0 <= CharValue(cvv[i]) <= 9
  }

  /** `n` asterisks. */
  function Stars(n: nat): (r: string)
    ensures |r| == n && forall i | 0 <= i < n :: r[i] == '*'
  {
    seq(n, _ => '*')
  }

  /** The masked form of a string: every character but the last `keep` becomes '*'. */
  function Mask(s: Option<string>, keep: nat): (r: Option<string>)
    ensures s.None? <==> r.None?
    ensures s.Some? && |s.value| <= keep ==> r == s
    ensures s.Some? ==> |r.value| == |s.value|
    ensures s.Some? && |s.value| > keep ==>
              (forall i | 0 <= i < |s.value| - keep :: r.value[i] == '*')
              && r.value[|s.value| - keep..] == s.value[|s.value| - keep..]
  {
    match s
    case None => None
    case Some(t) =>
      if |t| <= keep then s
      else Some(Stars(|t| - keep) + t[|t| - keep..])
  }

  /** MaskString: builds the stars in a loop, then replaces the head of the string with them. */
  method MaskString(s: Option<string>, numberOfEndCharsToDisplay: int) returns (r: Option<string>)
    requires numberOfEndCharsToDisplay >= 0
    ensures r == Mask(s, numberOfEndCharsToDisplay)
  {
    if s.None? {
      return None;
    }
    var t := s.value;
    if |t| <= numberOfEndCharsToDisplay {
      return s;
    }
    var stars := "";
    for i := 0 to |t| - numberOfEndCharsToDisplay
      invariant stars == Stars(i)
    {
      stars := stars + "*";
    }
    t := t[|stars|..];            // Remove(0, stars.Length)
    t := stars + t;               // Insert(0, stars)
    r := Some(t);
  }

  // ---------------------------------------------------------------------------------------
  // Properties of the card check
  // ---------------------------------------------------------------------------------------

  /** Textbook Luhn sum of the first `n` characters of the reversed payload: transformed digit values added directly. */
  function LuhnSum(rev: string, n: nat): int
    requires n <= |rev|
  {
    if n == 0 then 0 else LuhnSum(rev, n - 1) + Transform(CharValue(rev[n - 1]), n)
  }

  /** The sum of the decimal digits of `n`. */
  function DigitSum(n: nat): nat
    decreases n
  {
    if n < 10 then n else DigitSum(n / 10) + n % 10
  }

  /** What the decimal text of `v` adds up to: a leading '-' counts as '-' - 48, which is -3. */
  function TextValue(v: int): int {
    if v < 0 then -3 + DigitSum(-v) else DigitSum(v)
  }

  lemma {:induction false} NatTextSum(n: nat)
    ensures TextSum(NatText(n)) == DigitSum(n)
    decreases n
  {
    var d := [(48 + n % 10) as char];
    assert TextSum(d) == n % 10 by { assert d[..0] == []; }
    if n >= 10 {
      NatTextSum(n / 10);
      TextSumAppend(NatText(n / 10), d);
    }
  }

  /** Summing the characters of `v.ToString()` gives the digit sum of `v`, with -3 for a minus sign. */
  lemma IntTextSum(v: int)
    ensures TextSum(IntText(v)) == TextValue(v)
  {
    if v < 0 {
      NatTextSum(-v);
      TextSumAppend("-", NatText(-v));
      assert TextSum("-") == -3 by { assert "-"[..0] == []; }
    } else {
      NatTextSum(v);
    }
  }

  /** What the character at index `k` of the reversed payload adds to the sum, once written out as text. */
  function Contribution(rev: string, k: nat): int
    requires k < |rev|
  {
    TextValue(Transform(CharValue(rev[k]), k + 1))
  }

  /** The contributions of the first `n` characters. */
  function ContributionSum(rev: string, n: nat): int
    requires n <= |rev|
  {
    if n == 0 then 0 else ContributionSum(rev, n - 1) + Contribution(rev, n - 1)
  }

  lemma {:induction false} TextSumAppend(a: string, b: string)
    ensures TextSum(a + b) == TextSum(a) + TextSum(b)
    decreases |b|
  {
    if b == [] {
      assert a + b == a;
    } else {
      assert (a + b)[..|a + b| - 1] == a + b[..|b| - 1];
      TextSumAppend(a, b[..|b| - 1]);
    }
  }

  /** The summed text of `calculatedNumbers` is the sum of the per-character contributions. */
  lemma {:induction false} CalculatedTextSum(rev: string, n: nat)
    requires n <= |rev|
    ensures TextSum(CalculatedText(rev[..n])) == ContributionSum(rev, n)
  {
    if n > 0 {
      CalculatedTextSum(rev, n - 1);
      CalculatedTextSumStep(rev, n - 1);
    }
  }

  /** Appending the text of one more value adds that character's contribution. */
  lemma CalculatedTextSumStep(rev: string, i: nat)
    requires i < |rev|
    ensures TextSum(CalculatedText(rev[..i + 1])) == TextSum(CalculatedText(rev[..i])) + Contribution(rev, i)
  {
    CalculatedTextStep(rev, i);
    TextSumAppend(CalculatedText(rev[..i]), IntText(Transform(CharValue(rev[i]), i + 1)));
    IntTextSum(Transform(CharValue(rev[i]), i + 1));
  }

  /** On digits the detour through decimal text changes nothing: it is the textbook Luhn sum. */
  lemma {:induction false} DigitsTextSum(rev: string, n: nat)
    requires n <= |rev|
    requires forall i | 0 <= i < |rev| :: IsDigit(rev[i])
    ensures ContributionSum(rev, n) == LuhnSum(rev, n)
    ensures LuhnSum(rev, n) >= 0
  {
    if n > 0 {
      DigitsTextSum(rev, n - 1);
      var v := Transform(CharValue(rev[n - 1]), n);
      assert 0 <= v <= 9;
    }
  }

  lemma DigitNotWhiteSpace(s: string)
    requires |s| >= 1 && forall i | 0 <= i < |s| :: IsDigit(s[i])
    ensures !IsNullOrWhiteSpace(Some(s))
  {
    assert !IsWhiteSpace(s[0]);
  }

  /** The textbook Luhn sum of everything but the last character, read from the right. */
  function LuhnSumOfPayload(s: string): int
    requires |s| >= 1
  {
    LuhnSum(Reversed(s[..|s| - 1]), |s| - 1)
  }

  /**
   * For an all-digit string the check is: the Luhn sum of the reversed payload, modulo 10,
   * equals 10 minus the last digit.
   */
  lemma CardNumberValidOnDigits(s: string)
    requires |s| >= 1 && forall i | 0 <= i < |s| :: IsDigit(s[i])
    ensures CardNumberValid(Some(s)) <==> LuhnSumOfPayload(s) % 10 == 10 - CharValue(s[|s| - 1])
  {
    DigitNotWhiteSpace(s);
    PayloadTextSum(s);
    CardCheckBySum(s, LuhnSumOfPayload(s));
  }

  /** On an all-digit number the summed text of the reversed payload is its (non-negative) Luhn sum. */
  lemma PayloadTextSum(s: string)
    requires |s| >= 1 && forall i | 0 <= i < |s| :: IsDigit(s[i])
    ensures TextSum(CalculatedText(Reversed(s[..|s| - 1]))) == LuhnSumOfPayload(s)
    ensures LuhnSumOfPayload(s) >= 0
  {
    var rev := Reversed(s[..|s| - 1]);
    ReversedPayloadDigits(s, rev);
    DigitsTextSum(rev, |rev|);
    WholeCalculatedTextSum(rev);
  }

  lemma ReversedPayloadDigits(s: string, rev: string)
    requires |s| >= 1 && forall i | 0 <= i < |s| :: IsDigit(s[i])
    requires rev == Reversed(s[..|s| - 1])
    ensures forall i | 0 <= i < |rev| :: IsDigit(rev[i])
  {
  }

  /** `CalculatedTextSum` over the whole reversed payload. */
  lemma WholeCalculatedTextSum(rev: string)
    ensures TextSum(CalculatedText(rev)) == ContributionSum(rev, |rev|)
  {
    CalculatedTextSum(rev, |rev|);
    assert rev[..|rev|] == rev;
  }

  /** Once the summed text is known, the check compares its C# remainder with 10 minus the last character. */
  lemma CardCheckBySum(s: string, total: int)
    requires |s| >= 1 && !IsNullOrWhiteSpace(Some(s))
    requires TextSum(CalculatedText(Reversed(s[..|s| - 1]))) == total
    ensures CardNumberValid(Some(s)) <==> CsRemainder(total, 10) == 10 - CharValue(s[|s| - 1])
  {
  }

  /**
   * Against textbook Luhn (payload sum plus check digit divisible by 10) the code differs in
   * exactly one case: a last digit of 0 is always rejected.
   */
  lemma CardNumberValidVersusLuhn(s: string)
    requires |s| >= 1 && forall i | 0 <= i < |s| :: IsDigit(s[i])
    ensures CardNumberValid(Some(s)) <==>
              CharValue(s[|s| - 1]) != 0 && (LuhnSumOfPayload(s) + CharValue(s[|s| - 1])) % 10 == 0
  {
    CardNumberValidOnDigits(s);
    LuhnSumOfPayloadNonNegative(s);
    var sum, d := LuhnSumOfPayload(s), CharValue(s[|s| - 1]);
    assert IsDigit(s[|s| - 1]);
    CheckDigitArithmetic(sum, d);
  }

  lemma LuhnSumOfPayloadNonNegative(s: string)
    requires |s| >= 1 && forall i | 0 <= i < |s| :: IsDigit(s[i])
    ensures LuhnSumOfPayload(s) >= 0
  {
    PayloadTextSum(s);
  }

  lemma CheckDigitArithmetic(sum: int, d: int)
    requires sum >= 0 && 0 <= d <= 9
    ensures sum % 10 == 10 - d <==> d != 0 && (sum + d) % 10 == 0
  {
    var q := sum / 10;
    assert sum == 10 * q + sum % 10;
    if d != 0 && (sum + d) % 10 == 0 {
      var q' := (sum + d) / 10;
      assert sum + d == 10 * q';
      assert sum == 10 * (q' - 1) + (10 - d);
    }
  }

  /** Null, empty and all-whitespace numbers are rejected. */
  lemma CardNumberBlankRejected(card: Option<string>)
    requires IsNullOrWhiteSpace(card)
    ensures !CardNumberValid(card)
  {
  }

  /** A number whose last character is '0' is always rejected: a C# remainder by 10 never equals 10. */
  lemma CardNumberEndingInZeroRejected(s: string)
    requires |s| >= 1 && s[|s| - 1] == '0'
    ensures !CardNumberValid(Some(s))
  {
  }

  /** Non-digits are not refused as such: the ':' alone, whose value is 10, makes the right-hand side 0 and passes. */
  lemma ColonAloneAccepted()
    ensures CardNumberValid(Some(":"))
    ensures CardNumberValid(Some("0:"))
  {
    assert !IsWhiteSpace(':');
    assert Reversed("") == "";
    assert Reversed("0") == "0";
    assert CalculatedText("0") == "0" by {
      assert "0"[..0] == "";
      assert IntText(Transform(0, 1)) == "0";
    }
    assert TextSum("0") == 0 by { assert "0"[..0] == ""; }
  }
}
