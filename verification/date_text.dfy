/**
  The date literals the custom-period dialogue accepts: `YYYY-MM-DD`, read as
  `datetime.strptime(text, "%Y-%m-%d").date()` reads them, a text that is not
  such a date being a parse failure.
*/
module DateText {
  import opened Wrappers
  import opened Calendar
  import opened Text

  function FourDigits(s: string, i: nat): int
    requires i + 4 <= |s| && forall k :: i <= k < i + 4 ==> IsDigit(s[k])
  {
    100 * TwoDigits(s, i) + TwoDigits(s, i + 2)
  }

  /** The shape `DDDD-DD-DD`, digits and dashes. */
  predicate IsDateShape(s: string) {
    && |s| == 10 && s[4] == '-' && s[7] == '-'
    && (forall k :: 0 <= k < 4 ==> IsDigit(s[k]))
    && IsDigit(s[5]) && IsDigit(s[6]) && IsDigit(s[8]) && IsDigit(s[9])
  }

  /** The date a `YYYY-MM-DD` text names, or None when it names none. */
  function ParseDate(s: string): (r: Option<Date>)
    ensures r.Some? ==> IsValid(r.value)
  {
    if !IsDateShape(s) then None
    else
      var d := Date(FourDigits(s, 0), TwoDigits(s, 5), TwoDigits(s, 8));
      if IsValid(d) then Some(d) else None
  }

  /** A valid date written as `YYYY-MM-DD` (Python's `date.isoformat()`). */
  function FormatDate(d: Date): (s: string)
    requires IsValid(d)
    ensures IsDateShape(s)
  {
    Pad2(d.year / 100) + Pad2(d.year % 100) + "-" + Pad2(d.month) + "-" + Pad2(d.day)
  }

  /** Every valid date is read back from its own `YYYY-MM-DD` text. */
  lemma ParseFormat(d: Date)
    requires IsValid(d)
    ensures ParseDate(FormatDate(d)) == Some(d)
  {
    var s := FormatDate(d);
    var hi, lo := Pad2(d.year / 100), Pad2(d.year % 100);
    assert s[0..2] == hi && s[2..4] == lo;
    assert TwoDigits(s, 0) == d.year / 100 && TwoDigits(s, 2) == d.year % 100;
    assert Pad2(d.month) == s[5..7] && Pad2(d.day) == s[8..10];
    assert TwoDigits(s, 5) == d.month && TwoDigits(s, 8) == d.day;
  }

  /** A text that parses is the canonical text of the date it names. */
  lemma FormatParse(s: string)
    requires ParseDate(s).Some?
    ensures FormatDate(ParseDate(s).value) == s
  {
    var d := ParseDate(s).value;
    PadTwoDigits(s, 0);
    PadTwoDigits(s, 2);
    PadTwoDigits(s, 5);
    PadTwoDigits(s, 8);
    assert d.year / 100 == TwoDigits(s, 0) && d.year % 100 == TwoDigits(s, 2);
    assert s == s[0..2] + s[2..4] + "-" + s[5..7] + "-" + s[8..10];
  }
}
