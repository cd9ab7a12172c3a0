/**
  Transaction amounts. The bot reads the amount token with `float(...)`; this
  model keeps amounts as whole kopecks (hundredths of a rouble) and reads the
  plain decimal form of that token: an optional sign, the roubles, and
  optionally a point followed by one or two digits of kopecks.
*/
module Amounts {
  import opened Wrappers
  import opened Text

  /** Index of the first '.' in `s`, or |s| when there is none. */
  function PointIndex(s: string): (i: nat)
    ensures i <= |s| && (i == |s| || s[i] == '.')
    ensures forall k :: 0 <= k < i ==> s[k] != '.'
  {
    if s == [] || s[0] == '.' then 0 else 1 + PointIndex(s[1..])
  }

  /** The kopecks written by an unsigned decimal such as `300`, `12.5` or `0.07`. */
  function ParseUnsigned(s: string): (r: Option<nat>)
  {
    var i := PointIndex(s);
    var whole := s[..i];
    if whole == [] || !AllDigits(whole) then None
    else if i == |s| then Some(100 * DigitsValue(whole))
    else
      var frac := s[i + 1..];
      if |frac| == 1 && IsDigit(frac[0]) then Some(100 * DigitsValue(whole) + 10 * DigitValue(frac[0]))
      else if |frac| == 2 && IsDigit(frac[0]) && IsDigit(frac[1]) then Some(100 * DigitsValue(whole) + TwoDigits(frac, 0))
      else None
  }

  /** The amount token of a transaction command, in kopecks, or None when it is no number. */
  function ParseAmount(s: string): (r: Option<int>)
    ensures r.Some? ==> s != [] && (r.value < 0 ==> s[0] == '-')
  {
    var signed := s != [] && (s[0] == '-' || s[0] == '+');
    var body := if signed then s[1..] else s;
    match ParseUnsigned(body)
    case None => None
    case Some(k) => Some(if signed && s[0] == '-' then -(k as int) else k)
  }

  /** The canonical text of an amount: sign, roubles, point, two digits of kopecks. */
  function AmountText(k: int): (s: string)
    ensures s != [] && forall i :: 0 <= i < |s| ==> !IsSpace(s[i])
  {
    var m := if k < 0 then -k else k;
    (if k < 0 then "-" else "") + Numeral(m / 100) + "." + Pad2(m % 100)
  }

  /** A token of digits alone is a whole number of roubles. */
  lemma {:induction false} WholeRoubles(s: string)
    requires s != [] && AllDigits(s)
    ensures ParseAmount(s) == Some(100 * DigitsValue(s))
  {
    assert s[..|s|] == s;
  }

  lemma {:induction false} PointAfterNumeral(n: nat, rest: string)
    ensures PointIndex(Numeral(n) + "." + rest) == |Numeral(n)|
  {
    var digits := Numeral(n);
    var s := digits + "." + rest;
    var i := PointIndex(s);
    assert s[|digits|] == '.';
    assert forall j :: 0 <= j < |digits| ==> s[j] == digits[j];
  }

  /** Every amount is read back from its canonical text. */
  lemma {:induction false} ParseAmountText(k: int)
    ensures ParseAmount(AmountText(k)) == Some(k)
  {
    var m := if k < 0 then -k else k;
    var body := Numeral(m / 100) + "." + Pad2(m % 100);
    UnsignedText(m);
    assert body[0] == Numeral(m / 100)[0];
    if k < 0 {
      assert AmountText(k) == "-" + body;
      NegativeText(body, m);
    } else {
      assert AmountText(k) == body;
      PlainText(body, m);
    }
  }

  lemma NegativeText(body: string, m: nat)
    requires ParseUnsigned(body) == Some(m)
    ensures ParseAmount("-" + body) == Some(-(m as int))
  {
    assert ("-" + body)[1..] == body;
  }

  lemma PlainText(body: string, m: nat)
    requires ParseUnsigned(body) == Some(m) && body != [] && IsDigit(body[0])
    ensures ParseAmount(body) == Some(m)
  {
  }

  lemma {:induction false} UnsignedText(m: nat)
    ensures ParseUnsigned(Numeral(m / 100) + "." + Pad2(m % 100)) == Some(m)
  {
    var digits, cents := Numeral(m / 100), Pad2(m % 100);
    var body := digits + "." + cents;
    PointAfterNumeral(m / 100, cents);
    assert body[..|digits|] == digits;
    assert body[|digits| + 1..] == cents;
    NumeralValue(m / 100);
  }
}
