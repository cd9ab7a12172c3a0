/**
  Period selection of the report dialogue: the labels of the period keyboard,
  and the date bounds each preset resolves to for a given `today`. Bounds are
  day numbers; a report keeps transactions with `start <= date < end`.
*/
module Periods {
  import opened Wrappers
  import opened Calendar
  import opened Ledger

  datatype Preset = Today | ThisWeek | ThisMonth | ThisYear | WholeTime

  /** What a (stripped, lower-cased) answer to the period prompt asks for. */
  datatype Choice = Back | Custom | Pick(preset: Preset) | Unrecognised

  function PresetLabel(p: Preset): string {
    match p
    case Today => "текущий день"
    case ThisWeek => "текущая неделя"
    case ThisMonth => "текущий месяц"
    case ThisYear => "текущий год"
    case WholeTime => "все время"
  }

  /** The exact-match comparison of the answer against the period labels. */
  function ChoiceOf(answer: string): (c: Choice)
    ensures c == Back <==> answer == "назад"
    ensures c == Custom <==> answer == "произвольный период"
    ensures c.Pick? ==> answer == PresetLabel(c.preset)
  {
    if answer == "назад" then Back
    else if answer == PresetLabel(Today) then Pick(Today)
    else if answer == PresetLabel(ThisWeek) then Pick(ThisWeek)
    else if answer == PresetLabel(ThisMonth) then Pick(ThisMonth)
    else if answer == PresetLabel(ThisYear) then Pick(ThisYear)
    else if answer == PresetLabel(WholeTime) then Pick(WholeTime)
    else if answer == "произвольный период" then Custom
    else Unrecognised
  }

  /**
    The dates a preset stores: both bounds, neither (all time), or — when
    `date + timedelta(...)` would pass 9999-12-31 and Python raises
    OverflowError — only the start, which was stored before the failing step.
  */
  datatype Resolution = Resolved(start: Option<int>, end: Option<int>) | Overflow(partialStart: int)

  function Resolve(p: Preset, today: Date): (r: Resolution)
    requires IsValid(today)
    ensures r.Resolved? && r.start.Some? ==> r.end.Some? && 1 <= r.start.value <= r.end.value <= MaxDay
    ensures r.Resolved? && r.start.None? <==> p == WholeTime
  {
    var t := Ordinal(today);
    match p
    case Today =>
      if t + 1 > MaxDay then Overflow(t) else Resolved(Some(t), Some(t + 1))
    case ThisWeek =>
      MondayOf(t);
      var start := t - Weekday(t);
      if start + 7 > MaxDay then Overflow(start) else Resolved(Some(start), Some(start + 7))
    case ThisMonth =>
      var start := Ordinal(Date(today.year, today.month, 1));
      var end := start + DaysInMonth(today.year, today.month);
      if end > MaxDay then Overflow(start) else Resolved(Some(start), Some(end))
    case ThisYear =>
      OrdinalOrder(Date(today.year, 1, 1), Date(today.year, 12, 31));
      Resolved(Some(Ordinal(Date(today.year, 1, 1))), Some(Ordinal(Date(today.year, 12, 31))))
    case WholeTime =>
      Resolved(None, None)
  }

  /** The end date a custom period stores: the day after the entered one, or None on overflow. */
  function CustomEnd(last: Date): (r: Option<int>)
    requires IsValid(last)
    ensures r.Some? ==> r.value == Ordinal(last) + 1 <= MaxDay
    ensures r.None? <==> last == Date(MaxYear, 12, 31)
  {
    LastDateIsMaxDay();
    OrdinalOrder(last, Date(MaxYear, 12, 31));
    if Ordinal(last) + 1 > MaxDay then None else Some(Ordinal(last) + 1)
  }

  /** Every preset label selects its preset. */
  lemma LabelsSelect(p: Preset)
    ensures ChoiceOf(PresetLabel(p)) == Pick(p)
  {
  }

  /** "Current day" is the half-open range of today alone. */
  lemma TodayPreset(today: Date)
    requires IsValid(today) && today != Date(MaxYear, 12, 31)
    ensures Resolve(Today, today) == Resolved(Some(Ordinal(today)), Some(Ordinal(today) + 1))
  {
    LastDateIsMaxDay();
    OrdinalOrder(today, Date(MaxYear, 12, 31));
  }

  /** "Current week" starts on the Monday on or before today and spans seven days. */
  lemma WeekPreset(today: Date)
    requires IsValid(today)
    ensures match Resolve(ThisWeek, today)
      case Resolved(start, end) =>
        && start.Some? && end == Some(start.value + 7)
        && Weekday(start.value) == 0
        && start.value <= Ordinal(today) < start.value + 7
      case Overflow(start) => Weekday(start) == 0 && start <= Ordinal(today) < start + 7
  {
    MondayOf(Ordinal(today));
  }

  /**
    "Current month" is exactly the days of today's month: from its first day
    up to, not including, the first day of the following month.
  */
  lemma MonthPreset(today: Date, d: Date)
    requires IsValid(today) && IsValid(d)
    requires today.year < MaxYear || today.month < 12
    ensures Resolve(ThisMonth, today) == Resolved(
      Some(Ordinal(Date(today.year, today.month, 1))),
      Some(Ordinal(FirstOfNextMonth(today.year, today.month))))
    ensures Ordinal(Date(today.year, today.month, 1)) <= Ordinal(d) < Ordinal(FirstOfNextMonth(today.year, today.month))
      <==> d.year == today.year && d.month == today.month
  {
    var y, m := today.year, today.month;
    MonthLength(y, m);
    OrdinalOrder(Date(y, m, 1), d);
    OrdinalOrder(d, FirstOfNextMonth(y, m));
  }

  /**
    "Current year" ends at 31 December rather than at the next 1 January, so
    with the exclusive upper bound of the filter every day of the year is in
    the range except 31 December itself.
  */
  lemma YearPreset(today: Date, d: Date)
    requires IsValid(today) && IsValid(d) && d.year == today.year
    ensures Resolve(ThisYear, today) == Resolved(
      Some(Ordinal(Date(today.year, 1, 1))), Some(Ordinal(Date(today.year, 12, 31))))
    ensures Ordinal(Date(today.year, 1, 1)) <= Ordinal(d) < Ordinal(Date(today.year, 12, 31))
      <==> !(d.month == 12 && d.day == 31)
  {
    OrdinalOrder(Date(d.year, 1, 1), d);
    OrdinalOrder(d, Date(d.year, 12, 31));
  }

  /** A preset can only overflow in the last month Python can represent. */
  lemma {:induction false} OverflowOnlyAtEnd(p: Preset, today: Date)
    requires IsValid(today) && Resolve(p, today).Overflow?
    ensures today.year == MaxYear && today.month == 12
  {
    var lastMonth := Date(MaxYear, 12, 1);
    LastDateIsMaxDay();
    OrdinalOrder(today, lastMonth);
    if Earlier(today, lastMonth) {
      var y, m := today.year, today.month;
      MonthFitsInYear(y, m);
      if p == ThisMonth {
        MonthLength(y, m);
      }
      assert false;
    }
  }

  /**
    A custom end date is inclusive: a transaction at any time of that day is
    before the stored bound, and one at midnight of the following day is not.
  */
  lemma CustomEndInclusive(start: int, last: Date, t: Moment)
    requires IsValid(last) && CustomEnd(last).Some? && start <= Ordinal(last)
    requires IsMoment(t) && t.day == Ordinal(last)
    ensures InRange(t, start, CustomEnd(last).value)
    ensures !InRange(Midnight(Ordinal(last) + 1), start, CustomEnd(last).value)
  {
  }
}
