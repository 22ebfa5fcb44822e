/**
 * The calculator form: each control hands the parent a copy of the parameters
 * with one field replaced. The number fields read their text with `parseInt`
 * and fall back to 0 when no number can be read.
 */
module CalculatorForm {
  import opened Types
  import opened ListOps

  predicate IsDigit(c: char)
  {
    '0' <= c <= '9'
  }

  function DigitValue(c: char): (v: nat)
    requires IsDigit(c)
    ensures v < 10
  {
    (c as int) - ('0' as int)
  }

  function DigitChar(v: nat): (c: char)
    requires v < 10
    ensures IsDigit(c) && DigitValue(c) == v
  {
    (('0' as int) + v) as char
  }

  predicate AllDigits(s: string)
  {
    forall i :: 0 <= i < |s| ==> IsDigit(s[i])
  }

  /** The longest run of decimal digits at the start of `s`. */
  function DigitPrefix(s: string): (d: string)
    ensures |d| <= |s| && d == s[..|d|]
    ensures AllDigits(d)
    ensures |d| == |s| || !IsDigit(s[|d|])
    decreases |s|
  {
    if s == [] || !IsDigit(s[0]) then []
    else [s[0]] + DigitPrefix(s[1..])
  }

  /** The number a string of decimal digits spells, most significant digit first. */
  function DigitsValue(d: string): (v: nat)
    requires AllDigits(d)
    decreases |d|
  {
    if d == [] then 0 else DigitsValue(d[..|d| - 1]) * 10 + DigitValue(d[|d| - 1])
  }

  /**
   * `parseInt(text)`: an optional sign, then the leading decimal digits; `None`
   * (JavaScript's NaN) when no digit follows the sign.
   */
  function ParseInt(text: string): (r: Option<int>)
    ensures r.None? <==> DigitPrefix(SignFree(text)) == []
    ensures r.Some? ==> r.value == Sign(text) * DigitsValue(DigitPrefix(SignFree(text)))
  {
    var digits := DigitPrefix(SignFree(text));
    if digits == [] then None else Some(Sign(text) * DigitsValue(digits))
  }

  predicate HasSign(text: string)
  {
    |text| > 0 && (text[0] == '-' || text[0] == '+')
  }

  function SignFree(text: string): (s: string)
    ensures HasSign(text) ==> s == text[1..]
    ensures !HasSign(text) ==> s == text
  {
    if HasSign(text) then text[1..] else text
  }

  function Sign(text: string): (k: int)
    ensures k == 1 || k == -1
    ensures k == -1 <==> |text| > 0 && text[0] == '-'
  {
    if |text| > 0 && text[0] == '-' then -1 else 1
  }

  /** `parseInt(text) || 0`: the number read, or 0 when there is none. */
  function Coerce(text: string): (n: int)
    ensures ParseInt(text).None? ==> n == 0
    ensures ParseInt(text).Some? ==> n == ParseInt(text).value
  {
    match ParseInt(text)
    case None => 0
    case Some(v) => v
  }

  /** How the field shows a whole number: decimal digits, with a minus sign when negative. */
  function Show(n: int): (s: string)
    ensures |s| > 0
  {
    if n < 0 then "-" + ShowNat(-n) else ShowNat(n)
  }

  function ShowNat(n: nat): (s: string)
    ensures |s| > 0 && AllDigits(s)
    decreases n
  {
    if n < 10 then [DigitChar(n)] else ShowNat(n / 10) + [DigitChar(n % 10)]
  }

  lemma {:induction false} ShowNatValue(n: nat)
    ensures DigitsValue(ShowNat(n)) == n
    decreases n
  {
    var s := ShowNat(n);
    if n >= 10 {
      ShowNatValue(n / 10);
      assert s[..|s| - 1] == ShowNat(n / 10);
    }
  }

  lemma {:induction false} DigitPrefixOfDigits(s: string)
    requires AllDigits(s)
    ensures DigitPrefix(s) == s
    decreases |s|
  {
    if s != [] {
      DigitPrefixOfDigits(s[1..]);
    }
  }

  /** Reading back the number a field shows gives that number. */
  lemma ParseShowRoundTrip(n: int)
    ensures ParseInt(Show(n)) == Some(n)
    ensures Coerce(Show(n)) == n
  {
    var digits := ShowNat(if n < 0 then -n else n);
    DigitPrefixOfDigits(digits);
    ShowNatValue(if n < 0 then -n else n);
    if n < 0 {
      assert SignFree(Show(n)) == digits;
    } else {
      assert !HasSign(Show(n));
    }
  }

  /** Reading stops at the first character that is not a digit. */
  lemma {:induction false} ParseStopsAtNonDigit(d: string, c: char, rest: string)
    requires AllDigits(d) && !IsDigit(c)
    ensures DigitPrefix(d + [c] + rest) == d
    decreases |d|
  {
    if d == [] {
      assert (d + [c] + rest)[0] == c;
    } else {
      assert (d + [c] + rest)[1..] == d[1..] + [c] + rest;
      ParseStopsAtNonDigit(d[1..], c, rest);
    }
  }

  /** A decimal is cut to its whole part and an exponent is ignored. */
  lemma ParseExamples()
    ensures Coerce("1.5") == 1
    ensures Coerce("1e5") == 1
    ensures Coerce("-5") == -5
    ensures Coerce("") == 0
    ensures Coerce("abc") == 0
    ensures Coerce("-") == 0
  {
    ParseStopsAtNonDigit("1", '.', "5");
    assert "1.5" == "1" + ['.'] + "5";
    ParseStopsAtNonDigit("1", 'e', "5");
    assert "1e5" == "1" + ['e'] + "5";
    assert SignFree("-5") == "5";
    assert DigitPrefix("5") == "5";
    assert DigitsValue("5") == 5;
    assert DigitsValue("1") == 1;
  }

  /** The word/token switch. */
  function OnUseTokens(params: CalculationParams, checked: bool): (p: CalculationParams)
    ensures p.useTokens == checked
    ensures p.(useTokens := params.useTokens) == params
  {
    params.(useTokens := checked)
  }

  /** The input size field. */
  function OnInputSize(params: CalculationParams, text: string): (p: CalculationParams)
    ensures p.inputSize == Coerce(text) as real
    ensures p.(inputSize := params.inputSize) == params
  {
    params.(inputSize := Coerce(text) as real)
  }

  /** The output size field. */
  function OnOutputSize(params: CalculationParams, text: string): (p: CalculationParams)
    ensures p.outputSize == Coerce(text) as real
    ensures p.(outputSize := params.outputSize) == params
  {
    params.(outputSize := Coerce(text) as real)
  }

  /** The request count field. */
  function OnRequests(params: CalculationParams, text: string): (p: CalculationParams)
    ensures p.requests == Coerce(text) as real
    ensures p.(requests := params.requests) == params
  {
    params.(requests := Coerce(text) as real)
  }

  /** The currency selector. */
  function OnCurrency(params: CalculationParams, c: Currency): (p: CalculationParams)
    ensures p.currency == c
    ensures p.(currency := params.currency) == params
  {
    params.(currency := c)
  }

  /** Typing back the whole number a field shows leaves the parameters as they were. */
  lemma RetypingShownValueChangesNothing(params: CalculationParams, n: int)
    requires params.inputSize == n as real
    ensures OnInputSize(params, Show(n)) == params
  {
    ParseShowRoundTrip(n);
  }

  /** A provider button: drops a selected provider, appends an unselected one. */
  function OnProviderClick(selected: seq<Provider>, p: Provider): (r: seq<Provider>)
    ensures p in r <==> p !in selected
    ensures forall q :: q != p ==> (q in r <==> q in selected)
    ensures p !in selected ==> r == selected + [p]
    ensures p in selected ==> IsSubsequence(r, selected) && multiset(r) == multiset(selected)[p := 0]
  {
    Toggle(selected, p)
  }

  /** Two clicks on one provider button restore the selection. */
  lemma ProviderClickTwice(selected: seq<Provider>, p: Provider)
    ensures forall q :: q in OnProviderClick(OnProviderClick(selected, p), p) <==> q in selected
    ensures p !in selected ==> OnProviderClick(OnProviderClick(selected, p), p) == selected
  {
    ToggleTwice(selected, p);
  }
}
