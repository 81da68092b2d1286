/**
 * The part of JavaScript's `Number(text)` conversion that the page input
 * relies on, restricted to an optional sign followed by decimal digits.
 * `None` stands for NaN, the value every comparison is false against.
 */
module JsNumber {
  import opened Wrappers

  predicate IsDigit(c: char) {
    '0' <= c <= '9'
  }

  predicate AllDigits(s: string) {
    forall i :: 0 <= i < |s| ==> IsDigit(s[i])
  }

  function DigitValue(c: char): (d: nat)
    requires IsDigit(c)
    ensures d < 10
  {
    (c as int) - ('0' as int)
  }

  function DigitChar(d: nat): (c: char)
    requires d < 10
    ensures IsDigit(c) && DigitValue(c) == d
  {
    ((('0' as int) + d) as char)
  }

  lemma DigitCharOfValue(c: char)
    requires IsDigit(c)
    ensures DigitChar(DigitValue(c)) == c
  {
  }

  /** The value of a string of decimal digits, most significant digit first. */
  function DigitsValue(s: string): nat
    requires AllDigits(s)
  {
    if s == [] then 0 else DigitsValue(s[..|s| - 1]) * 10 + DigitValue(s[|s| - 1])
  }

  /** `Number(text)` for an optionally signed decimal string; an empty string is 0. */
  function NumberOf(s: string): (r: Option<int>)
    ensures s == "" ==> r == Some(0)
    ensures r.Some? && s != "" ==>
      AllDigits(s) || (|s| > 1 && (s[0] == '+' || s[0] == '-') && AllDigits(s[1..]))
    ensures r.Some? && r.value > 0 ==> s != "" && s[0] != '-'
  {
    if s == "" then Some(0)
    else if AllDigits(s) then Some(DigitsValue(s))
    else if s[0] == '+' && |s| > 1 && AllDigits(s[1..]) then Some(DigitsValue(s[1..]))
    else if s[0] == '-' && |s| > 1 && AllDigits(s[1..]) then Some(0 - DigitsValue(s[1..]) as int)
    else None
  }

  /** `String(n)` for a natural number: its decimal digits without leading zeros. */
  function ShowNat(n: nat): (s: string)
    ensures |s| >= 1 && AllDigits(s)
    ensures |s| > 1 ==> s[0] != '0'
    decreases n
  {
    (if n < 10 then [] else ShowNat(n / 10)) + [DigitChar(n % 10)]
  }

  /** A digit string as `String` prints it: non-empty, no leading zero unless it is "0". */
  predicate Canonical(s: string) {
    |s| >= 1 && AllDigits(s) && (|s| > 1 ==> s[0] != '0')
  }

  lemma {:induction false} DigitsOfShowNat(n: nat)
    ensures DigitsValue(ShowNat(n)) == n
    decreases n
  {
    var s := ShowNat(n);
    var d := DigitChar(n % 10);
    if n < 10 {
      assert s == [d];
      assert s[..0] == [];
    } else {
      assert s == ShowNat(n / 10) + [d];
      assert s[..|s| - 1] == ShowNat(n / 10);
      DigitsOfShowNat(n / 10);
    }
  }

  /** Printing a page number and reading it back yields the same number. */
  lemma NumberOfShowNat(n: nat)
    ensures NumberOf(ShowNat(n)) == Some(n)
  {
    DigitsOfShowNat(n);
  }

  lemma NumberOfMinus(s: string)
    requires |s| > 1 && s[0] == '-' && AllDigits(s[1..])
    ensures NumberOf(s) == Some(0 - DigitsValue(s[1..]) as int)
  {
    assert !IsDigit(s[0]);
  }

  /** A minus sign in front of a printed number negates it. */
  lemma NumberOfNegated(n: nat)
    ensures NumberOf("-" + ShowNat(n)) == Some(0 - n as int)
  {
    var s := "-" + ShowNat(n);
    assert s[1..] == ShowNat(n);
    NumberOfMinus(s);
    DigitsOfShowNat(n);
  }

  lemma {:induction false} CanonicalPositive(s: string)
    requires AllDigits(s) && |s| >= 1 && s[0] != '0'
    ensures DigitsValue(s) >= 1
    decreases |s|
  {
    if |s| > 1 {
      var p := s[..|s| - 1];
      assert p[0] == s[0];
      CanonicalPositive(p);
    }
  }

  /** Reading a canonical digit string and printing the value gives the string back. */
  lemma {:induction false} ShowNatOfDigits(s: string)
    requires Canonical(s)
    ensures ShowNat(DigitsValue(s)) == s
    decreases |s|
  {
    var last := s[|s| - 1];
    DigitCharOfValue(last);
    var p := s[..|s| - 1];
    var v := DigitsValue(s);
    if |s| == 1 {
      assert p == [];
      assert s == [last];
    } else {
      assert p[0] == s[0];
      CanonicalPositive(p);
      ShowNatOfDigits(p);
      assert v / 10 == DigitsValue(p) && v % 10 == DigitValue(last);
      assert s == p + [last];
    }
  }

  /** Two canonical strings that denote the same number are the same string. */
  lemma CanonicalInjective(s: string, t: string)
    requires Canonical(s) && Canonical(t)
    requires DigitsValue(s) == DigitsValue(t)
    ensures s == t
  {
    ShowNatOfDigits(s);
    ShowNatOfDigits(t);
  }

  /** Text with a character other than a digit after its first position is NaN. */
  lemma NonDigitIsNaN(s: string, i: nat)
    requires 0 < i < |s| && !IsDigit(s[i])
    ensures NumberOf(s) == None
  {
    assert !IsDigit(s[1..][i - 1]);
  }

  /** Text whose first character is neither a digit nor a sign is NaN. */
  lemma NoLeadingDigitIsNaN(s: string)
    requires |s| >= 1 && !IsDigit(s[0]) && s[0] != '+' && s[0] != '-'
    ensures NumberOf(s) == None
  {
  }
}
