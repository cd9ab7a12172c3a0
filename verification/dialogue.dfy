/**
  The report dialogue: a per-user entry in `user_report_state` walks from the
  period menu, optionally through a start and an end date, to the report,
  and is removed once the report is attempted.
*/
module Dialogue {
  import opened Wrappers
  import opened Calendar
  import opened Text
  import opened DateText
  import opened Ledger
  import opened Periods

  /** The `step` field of an entry. */
  datatype Step = SelectPeriodType | SelectStartDate | SelectEndDate | Generating

  /** One entry of `user_report_state`; dates are day ordinals. */
  datatype ReportState = ReportState(step: Step, start: Option<int>, end: Option<int>)

  /** The entry `/report` installs. */
  const Fresh := ReportState(SelectPeriodType, None, None)

  /**
    An entry that waits for the next message: never at the generating step
    (the report always removes it), with no end date yet (an end date is only
    written on the way to the report), and with a start date when the end
    date is asked for.
  */
  predicate Resting(st: ReportState) {
    && st.step != Generating
    && st.end == None
    && (st.step == SelectEndDate ==> st.start.Some?)
  }

  /** The period an entry describes: both dates, or the whole history. */
  function BoundsOf(st: ReportState): (b: Bounds)
    ensures b.Between? <==> st.start.Some? && st.end.Some?
  {
    if st.start.Some? && st.end.Some? then Between(st.start.value, st.end.value) else AllTime
  }

  /**
    What the store gives one report: its contents, the rows of the grouped
    sum query, and whether a query or the transport raised.
  */
  datatype StoreAnswer = StoreAnswer(store: Store, grouped: seq<Row>, fails: bool)

  /** The figures of a report, in kopecks. */
  datatype Report = Report(bounds: Bounds, incomeDetails: seq<Detail>, incomeTotal: int,
                           expenseDetails: seq<Detail>, expenseTotal: int, balance: int, count: nat)

  datatype ReportOutcome = NotRegistered | NoData | Failed | Ready(report: Report)

  /** What a dialogue message gets back. */
  datatype Reply = BackToMenu | UnknownPeriod | AskStartDate | AskEndDate | BadDate | HandlerError
                 | Generated(outcome: ReportOutcome)

  /**
    The outcome of `generate_report`: a fault in the store, then an
    unregistered sender, then an empty grouping are checked in that order;
    otherwise the rows are split by type and the period's transactions counted.
  */
  function ReportOf(user: UserId, bounds: Bounds, answer: StoreAnswer): (o: ReportOutcome)
    ensures o.Ready? ==> o.report.bounds == bounds
  {
    if answer.fails then Failed
    else if user !in answer.store.users then NotRegistered
    else if answer.grouped == [] then NoData
    else
      var income, expense := RowsOfKind(answer.grouped, Income), RowsOfKind(answer.grouped, Expense);
      Ready(Report(bounds, Details(income), Totals(income), Details(expense), Totals(expense),
                   Totals(income) - Totals(expense), |Selected(answer.store.transactions, user, bounds)|))
  }

  /**
    When the grouped rows are the grouping of the sender's transactions in
    the period, the report says "no data" exactly when there is none, its
    totals are the sums of the incomes and of the expenses in the period, the
    balance is their difference and the count is the number of transactions.
  */
  lemma ReportMatchesStore(user: UserId, bounds: Bounds, answer: StoreAnswer)
    requires GroupedBy(answer.grouped, Selected(answer.store.transactions, user, bounds))
    ensures var o := ReportOf(user, bounds, answer);
      var selected := Selected(answer.store.transactions, user, bounds);
      && (o.NoData? <==> !answer.fails && user in answer.store.users && selected == [])
      && (o.Ready? <==> !answer.fails && user in answer.store.users && selected != [])
      && (o.Ready? ==>
            && o.report.incomeTotal == KindSum(selected, Income)
            && o.report.expenseTotal == KindSum(selected, Expense)
            && o.report.balance == KindSum(selected, Income) - KindSum(selected, Expense)
            && o.report.count == |selected| > 0)
  {
    var selected := Selected(answer.store.transactions, user, bounds);
    GroupedEmpty(answer.grouped, selected);
    GroupedKindTotals(answer.grouped, selected, Income);
    GroupedKindTotals(answer.grouped, selected, Expense);
  }

  /** `user_report_state` and the handlers that read and write it. */
  class ReportDialogue {
    var states: map<UserId, ReportState>

    ghost predicate Valid()
      reads this
    {
      forall u :: u in states ==> Resting(states[u])
    }

    constructor ()
      ensures Valid() && states == map[]
    {
      states := map[];
    }

    /** `/report` or "отчёт": any entry of the sender is replaced by a fresh one. */
    method StartReport(user: UserId)
      requires Valid()
      modifies this
      ensures Valid()
      ensures states == old(states)[user := Fresh]
    {
      states := states[user := Fresh];
    }

    /**
      `generate_report`: computes the outcome for the period of `st` and
      removes the sender's entry on every path.
    */
    method GenerateReport(user: UserId, st: ReportState, answer: StoreAnswer) returns (o: ReportOutcome)
      modifies this
      ensures states == old(states) - {user}
      ensures o == ReportOf(user, BoundsOf(st), answer)
    {
      var bounds := BoundsOf(st);
      if answer.fails {
        o := Failed;
      } else if user !in answer.store.users {
        o := NotRegistered;
      } else if answer.grouped == [] {
        o := NoData;
      } else {
        var incomeTotal, expenseTotal, incomeDetails, expenseDetails := Aggregate(answer.grouped);
        var count := |Selected(answer.store.transactions, user, bounds)|;
        o := Ready(Report(bounds, incomeDetails, incomeTotal, expenseDetails, expenseTotal,
                          incomeTotal - expenseTotal, count));
      }
      states := states - {user};
    }

    /**
      The answer to the period menu (`text` is the lower-cased message,
      stripped here): "назад"
      drops the entry; a preset stores its dates and produces the report,
      unless a date would pass 9999-12-31, in which case only the start date
      is kept and the step is not advanced; "произвольный период" asks for
      the start date; anything else is refused with the entry unchanged.
    */
    method SelectPeriod(user: UserId, text: string, today: Date, answer: StoreAnswer) returns (reply: Reply)
      requires Valid() && user in states && states[user].step == SelectPeriodType
      requires IsValid(today)
      modifies this
      ensures Valid()
      ensures ChoiceOf(Strip(text)) == Back ==> states == old(states) - {user} && reply == BackToMenu
      ensures ChoiceOf(Strip(text)) == Unrecognised ==> states == old(states) && reply == UnknownPeriod
      ensures ChoiceOf(Strip(text)) == Custom ==>
        states == old(states)[user := old(states)[user].(step := SelectStartDate)] && reply == AskStartDate
      ensures ChoiceOf(Strip(text)).Pick? && Resolve(ChoiceOf(Strip(text)).preset, today).Resolved? ==>
        var r := Resolve(ChoiceOf(Strip(text)).preset, today);
        && states == old(states) - {user}
        && reply == Generated(ReportOf(user, BoundsOf(ReportState(Generating, r.start, r.end)), answer))
      ensures ChoiceOf(Strip(text)).Pick? && Resolve(ChoiceOf(Strip(text)).preset, today).Overflow? ==>
        var r := Resolve(ChoiceOf(Strip(text)).preset, today);
        && states == old(states)[user := old(states)[user].(start := Some(r.partialStart))]
        && reply == HandlerError
    {
      var state := states[user];
      match ChoiceOf(Strip(text))
      case Back =>
        states := states - {user};
        reply := BackToMenu;
      case Pick(preset) =>
        match Resolve(preset, today) {
          case Resolved(start, end) =>
            state := state.(start := start, end := end, step := Generating);
            states := states[user := state];
            var o := GenerateReport(user, state, answer);
            reply := Generated(o);
            assert states == old(states) - {user};
          case Overflow(start) =>
            states := states[user := state.(start := Some(start))];
            reply := HandlerError;
        }
      case Custom =>
        states := states[user := state.(step := SelectStartDate)];
        reply := AskStartDate;
      case Unrecognised =>
        reply := UnknownPeriod;
    }

    /**
      The start date, read from the raw text: a well-formed date is stored and
      the end date asked for; otherwise the entry is unchanged and the format
      is repeated to the sender.
    */
    method EnterStartDate(user: UserId, text: string) returns (reply: Reply)
      requires Valid() && user in states && states[user].step == SelectStartDate
      modifies this
      ensures Valid()
      ensures ParseDate(text).None? ==> states == old(states) && reply == BadDate
      ensures ParseDate(text).Some? ==>
        && states == old(states)[user := old(states)[user].(start := Some(Ordinal(ParseDate(text).value)), step := SelectEndDate)]
        && reply == AskEndDate
    {
      match ParseDate(text)
      case None =>
        reply := BadDate;
      case Some(first) =>
        states := states[user := states[user].(start := Some(Ordinal(first)), step := SelectEndDate)];
        reply := AskEndDate;
    }

    /**
      The end date, read from the raw text: a well-formed date is stored as the
      following day, so that the day itself is in the period, and the report is
      produced; 9999-12-31 has no following day and leaves the entry unchanged.
    */
    method EnterEndDate(user: UserId, text: string, answer: StoreAnswer) returns (reply: Reply)
      requires Valid() && user in states && states[user].step == SelectEndDate
      modifies this
      ensures Valid()
      ensures ParseDate(text).None? ==> states == old(states) && reply == BadDate
      ensures ParseDate(text).Some? && CustomEnd(ParseDate(text).value).None? ==>
        states == old(states) && reply == HandlerError
      ensures ParseDate(text).Some? && CustomEnd(ParseDate(text).value).Some? ==>
        && states == old(states) - {user}
        && reply == Generated(ReportOf(user, Between(old(states)[user].start.value, CustomEnd(ParseDate(text).value).value), answer))
    {
      match ParseDate(text)
      case None =>
        reply := BadDate;
      case Some(last) =>
        match CustomEnd(last)
        case None =>
          reply := HandlerError;
        case Some(end) =>
          var state := states[user].(end := Some(end), step := Generating);
          states := states[user := state];
          var o := GenerateReport(user, state, answer);
          reply := Generated(o);
          assert states == old(states) - {user};
    }
  }

  /** "01.07.2025" is not a `YYYY-MM-DD` date. */
  lemma MalformedExample()
    ensures ParseDate("01.07.2025") == None
  {
    assert "01.07.2025"[4] == '7';
  }

  /** "2025-07-01" is 1 July 2025. */
  lemma WellFormedExample()
    ensures ParseDate("2025-07-01") == Some(Date(2025, 7, 1))
  {
    ParseFormat(Date(2025, 7, 1));
    assert FormatDate(Date(2025, 7, 1)) == "2025-07-01";
  }

  /**
    A malformed start date is refused and leaves the entry waiting for the
    start date, and the next well-formed one is accepted.
  */
  method StartDateRetry(dialogue: ReportDialogue, user: UserId)
    requires dialogue.Valid() && user in dialogue.states && dialogue.states[user].step == SelectStartDate
    modifies dialogue
  {
    MalformedExample();
    WellFormedExample();
    var reply := dialogue.EnterStartDate(user, "01.07.2025");
    assert reply == BadDate && dialogue.states[user].step == SelectStartDate;
    reply := dialogue.EnterStartDate(user, "2025-07-01");
    assert reply == AskEndDate;
    assert dialogue.states[user].step == SelectEndDate;
    assert dialogue.states[user].start == Some(Ordinal(Date(2025, 7, 1)));
  }

  /** The example store: an expense of 300.00 for "продукты" and an income of 50000.00 for "зарплата". */
  const ExampleTxns := [Txn(1, "продукты", Expense, 30000, Moment(739000, 0)),
                        Txn(1, "зарплата", Income, 5000000, Moment(739001, 0))]
  const ExampleRows := [Row("продукты", Expense, 30000), Row("зарплата", Income, 5000000)]

  lemma ExampleSplit()
    ensures RowsOfKind(ExampleRows, Income) == [ExampleRows[1]]
    ensures RowsOfKind(ExampleRows, Expense) == [ExampleRows[0]]
  {
    assert ExampleRows[..1] == [ExampleRows[0]];
  }

  lemma SingleRow(row: Row)
    ensures Totals([row]) == row.total && Details([row]) == [Detail(row.name, row.total)]
  {
    assert [row][..0] == [];
  }

  lemma ExampleSelected()
    ensures |Selected(ExampleTxns, 1, AllTime)| == 2
  {
    assert Selected(ExampleTxns, 1, AllTime) == ExampleTxns;
  }

  /**
    The all-time report over the example store: totals 50000.00 and 300.00,
    balance 49700.00, two transactions.
  */
  lemma AllTimeExample()
    ensures ReportOf(1, AllTime, StoreAnswer(Store({1}, {}, ExampleTxns), ExampleRows, false))
      == Ready(Report(AllTime, [Detail("зарплата", 5000000)], 5000000,
                      [Detail("продукты", 30000)], 30000, 4970000, 2))
  {
    ExampleSplit();
    SingleRow(ExampleRows[0]);
    SingleRow(ExampleRows[1]);
    ExampleSelected();
  }
}
