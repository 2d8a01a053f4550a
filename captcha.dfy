/**
 * The text CAPTCHA widget (src/components/TextCaptcha.tsx): a six-character
 * code drawn from a 32-symbol alphabet, the upper-cased input the user types,
 * and the red-border error flag. `Math.random` is replaced by the sequence of
 * alphabet indices it would have produced.
 */
module Captcha {
  import opened Wrappers
  import opened Text

  /** Digits 2-9 and the capital letters without I and O. */
  const Alphabet := "23456789ABCDEFGHJKLMNPQRSTUVWXYZ"
  const CodeLength := 6

  /** One draw of `Math.floor(Math.random() * chars.length)`. */
  type Draw = i: int | 0 <= i < 32

  /** A well-formed challenge: six symbols of the alphabet. */
  ghost predicate IsCode(s: string) {
    |s| == CodeLength && forall i :: 0 <= i < |s| ==> s[i] in Alphabet
  }

  /** The code the given draws select. */
  function CodeOf(draws: seq<Draw>): string
    requires |draws| == CodeLength
  {
    seq(CodeLength, i requires 0 <= i < CodeLength => Alphabet[draws[i]])
  }

  /** `generateCaptcha`: append one drawn symbol six times. */
  method GenerateCaptcha(draws: seq<Draw>) returns (code: string)
    requires |draws| == CodeLength
    ensures code == CodeOf(draws)
    ensures IsCode(code)
  {
    code := "";
    for i := 0 to CodeLength
      invariant |code| == i
      invariant forall k :: 0 <= k < i ==> code[k] == Alphabet[draws[k]]
    {
      code := code + [Alphabet[draws[i]]];
    }
  }

  lemma {:induction false} IncreasingIsDistinct(s: string, i: nat, j: nat)
    requires forall k :: 0 <= k < |s| - 1 ==> s[k] < s[k + 1]
    requires i < j < |s|
    ensures s[i] < s[j]
    decreases j - i
  {
    if i + 1 < j {
      IncreasingIsDistinct(s, i + 1, j);
    }
  }

  lemma AlphabetIncreasing()
    ensures |Alphabet| == 32
    ensures forall k :: 0 <= k < |Alphabet| - 1 ==> Alphabet[k] < Alphabet[k + 1]
  {
  }

  /** Every symbol lies between the first one, '2', and the last one, 'Z'. */
  lemma AlphabetBounds(i: nat)
    requires i < |Alphabet|
    ensures '2' <= Alphabet[i] <= 'Z'
  {
    AlphabetIncreasing();
    if 0 < i { IncreasingIsDistinct(Alphabet, 0, i); }
    if i < 31 { IncreasingIsDistinct(Alphabet, i, 31); }
  }

  /** The symbols up to 'H' come before position 16, those from 'J' on after it. */
  lemma AlphabetSkipsI(i: nat)
    requires i < |Alphabet|
    ensures i <= 15 ==> Alphabet[i] <= 'H'
    ensures i >= 16 ==> Alphabet[i] >= 'J'
  {
    AlphabetIncreasing();
    if i < 15 { IncreasingIsDistinct(Alphabet, i, 15); }
    if 16 < i { IncreasingIsDistinct(Alphabet, 16, i); }
  }

  /** The symbols up to 'N' come before position 21, those from 'P' on after it. */
  lemma AlphabetSkipsO(i: nat)
    requires i < |Alphabet|
    ensures i <= 20 ==> Alphabet[i] <= 'N'
    ensures i >= 21 ==> Alphabet[i] >= 'P'
  {
    AlphabetIncreasing();
    if i < 20 { IncreasingIsDistinct(Alphabet, i, 20); }
    if 21 < i { IncreasingIsDistinct(Alphabet, 21, i); }
  }

  /**
   * The alphabet has 32 distinct symbols, none of them white space, none
   * changed by upper-casing, and none of the look-alikes 0, 1, I and O.
   */
  lemma AlphabetFacts()
    ensures |Alphabet| == 32
    ensures forall i, j :: 0 <= i < j < |Alphabet| ==> Alphabet[i] != Alphabet[j]
    ensures forall c :: c in Alphabet ==> UpperChar(c) == c && !IsSpace(c)
    ensures '0' !in Alphabet && '1' !in Alphabet && 'I' !in Alphabet && 'O' !in Alphabet
  {
    AlphabetIncreasing();
    forall i, j | 0 <= i < j < |Alphabet| ensures Alphabet[i] != Alphabet[j] {
      IncreasingIsDistinct(Alphabet, i, j);
    }
    forall i | 0 <= i < |Alphabet|
      ensures UpperChar(Alphabet[i]) == Alphabet[i] && !IsSpace(Alphabet[i])
      ensures Alphabet[i] != '0' && Alphabet[i] != '1' && Alphabet[i] != 'I' && Alphabet[i] != 'O'
    {
      AlphabetBounds(i);
      AlphabetSkipsI(i);
      AlphabetSkipsO(i);
    }
  }

  /** `userInput.toUpperCase() === captcha`. */
  predicate Matches(userInput: string, captcha: string) {
    Upper(userInput) == captcha
  }

  /** The code itself, re-entered in any mix of letter cases, verifies. */
  lemma AnyCaseVerifies(code: string, typed: string)
    requires IsCode(code) && |typed| == |code|
    requires forall i :: 0 <= i < |code| ==> typed[i] == code[i] || typed[i] == LowerChar(code[i])
    ensures Matches(typed, code)
  {
    AlphabetFacts();
    forall i | 0 <= i < |code| ensures UpperChar(typed[i]) == code[i] {
      assert code[i] in Alphabet;
    }
  }

  /** Changing one character of a matching entry to one with another upper case breaks the match. */
  lemma OneChangeFails(code: string, typed: string, i: nat, c: char)
    requires Matches(typed, code) && i < |typed|
    requires UpperChar(c) != UpperChar(typed[i])
    ensures !Matches(typed[i := c], code)
  {
    assert Upper(typed[i := c])[i] != Upper(typed)[i];
  }

  /** The widget's state. */
  class TextCaptcha {
    var captcha: string
    var userInput: string
    var error: bool

    /** The code is well formed and the input is stored upper-cased. */
    ghost predicate Valid()
      reads this
    {
      IsCode(captcha) && Upper(userInput) == userInput
    }

    /** First render: a fresh code, nothing typed, no error. */
    constructor (draws: seq<Draw>)
      requires |draws| == CodeLength
      ensures Valid()
      ensures captcha == CodeOf(draws) && userInput == "" && !error
    {
      captcha := CodeOf(draws);
      userInput := "";
      error := false;
    }

    /** `validateCaptcha`: compare, set the error flag, and report the verdict to `onVerify`. */
    method Validate() returns (isValid: bool)
      requires Valid()
      modifies this`error
      ensures Valid()
      ensures isValid <==> Matches(userInput, captcha)
      ensures error == !isValid
    {
      isValid := Upper(userInput) == captcha;
      error := !isValid;
    }

    /**
     * `refreshCaptcha`: a new code, the input cleared, the error flag reset,
     * and `false` reported to `onVerify`.
     */
    method Refresh(draws: seq<Draw>) returns (reported: bool)
      requires Valid() && |draws| == CodeLength
      modifies this
      ensures Valid()
      ensures captcha == CodeOf(draws) && userInput == "" && !error
      ensures !reported
    {
      captcha := GenerateCaptcha(draws);
      userInput := "";
      error := false;
      reported := false;
    }

    /**
     * The input's `onChange` with the effect on `userInput` that follows it:
     * the typed text is stored upper-cased and, when the stored value changed
     * and is not empty, validated and the verdict reported (`Some`); otherwise
     * nothing is reported (`None`) and the error flag stays.
     */
    method TypeInput(typed: string) returns (reported: Option<bool>)
      requires Valid()
      modifies this
      ensures Valid()
      ensures captcha == old(captcha) && userInput == Upper(typed)
      ensures reported ==
        if userInput != old(userInput) && userInput != "" then Some(Matches(typed, captcha)) else None
      ensures reported.Some? ==> error == !reported.value
      ensures reported.None? ==> error == old(error)
    {
      var previous := userInput;
      userInput := Upper(typed);
      UpperIdempotent(typed);
      if userInput != previous && |userInput| > 0 {
        var isValid := Validate();
        reported := Some(isValid);
      } else {
        reported := None;
      }
    }
  }
}
