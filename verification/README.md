# TG_Wallet report dialogue and commands, in Dafny

TG_Wallet is a Telegram bot for personal finances. A registered user
creates categories (`трата аптека`, `доход фриланс`), logs transactions
against them (`трата 300 продукты`), and asks for a report over a period.
This project models the bot's core:

- the two store-changing text commands: transaction logging and category
  creation, with their token checks;
- the report dialogue kept in `user_report_state`. A per-user entry goes
  from the period menu, optionally through a start date and an end date, to
  the report, and is removed once the report has been attempted;
- the resolution of the period presets (day, week, month, year, all time)
  and of a custom period into half-open day ranges;
- the report itself: the range filter, the split of the grouped sums into
  incomes and expenses, the totals, the balance and the count.

Modules:

- `Calendar` models Python's proleptic Gregorian day numbers
  (`date.toordinal`, with 0001-01-01 as day 1) and `weekday`.
- `DateText` models the strict `YYYY-MM-DD` reading.
- `Text` models `str.strip`, `str.split` and digit strings.
- `Amounts` models amounts as integer kopecks.
- `Ledger` holds the store, the filter and the aggregation loop.
- `Periods` resolves the period menu.
- `Commands` handles the two text commands.
- `Dialogue` holds the `ReportDialogue` class over the map of per-user
  entries, with one method per handler.

The store is a value: its users (by Telegram id), categories and
transactions. Each report is handed a `StoreAnswer` holding three things:
the store, the rows the grouped sum query returned, and whether a query
raised. `Dialogue.ReportMatchesStore` shows that, when those rows are the
grouping of the user's transactions in the period, the report figures are
the sums over those transactions.

The "current year" preset stores 31 December as its exclusive end. A
transaction on 31 December is therefore left out of a current-year report,
although the preset reads as the whole year. The model follows the code here
(`Periods.YearPreset` states exactly which days are in range).

## Model

| member | source | states |
|---|---|---|
| Dialogue.ReportDialogue.constructor | main.py:25 | the dialogue starts with no entries |
| Dialogue.ReportDialogue.StartReport | main.py:227-234 | `/report` replaces any entry of the sender by a fresh one at the period menu, and keeps every entry resting |
| Dialogue.ReportDialogue.SelectPeriod | main.py:255-315 | "назад" drops the entry. A preset stores its resolved dates and produces the report, which removes the entry. On overflow past 9999-12-31 only the new start date is kept and an error is replied. "произвольный период" moves to the start date. Any other answer leaves the entry unchanged. The entry of every other user is untouched. |
| Dialogue.ReportDialogue.EnterStartDate | main.py:319-334 | a well-formed date is stored as the start and the end date is asked for; a malformed one leaves the whole map unchanged |
| Dialogue.ReportDialogue.EnterEndDate | main.py:338-353 | a well-formed date is stored as the following day and the report over [start, that day] is produced, removing the entry. A malformed date leaves the map unchanged, and so does 9999-12-31, which has no following day. |
| Dialogue.ReportDialogue.GenerateReport | main.py:356-451 | the outcome is fault, unregistered, no data or a report, in that order. The sender's entry is removed on every path. |
| Dialogue.BoundsOf | main.py:374-382 | the report is bounded exactly when both dates are present |
| Dialogue.ReportOf | main.py:356-438 | a ready report carries the period it was asked for |
| Dialogue.ReportMatchesStore | main.py:366-438 | for rows that group the user's transactions in the period: "no data" exactly when there is none; the income and expense totals are the sums of those transactions by type; the balance is their difference; the count is their number and is positive |
| Dialogue.AllTimeExample | main.py:396-438 | expense 300.00 and income 50000.00 give totals 50000.00 and 300.00, balance 49700.00 and count 2 |
| Ledger.InRange | main.py:377-382 | a moment is in range exactly when its day is at or after the start day and before the end day |
| Ledger.Selected | main.py:366-382 | the report sees exactly the user's transactions that pass the filter, each as many times as it is stored |
| Ledger.SelectedAppend | main.py:366-382 | the filter keeps store order: selecting from two runs of transactions is selecting from each in turn |
| Ledger.Aggregate | main.py:394-409 | the loop's totals and detail lists are those of the income rows and of the expense rows, in query order |
| Ledger.KindsPartition | main.py:401-407 | every grouped row goes to exactly one of the two lists |
| Ledger.KindTotalsAdd | main.py:401-407 | the income and expense totals add up to the sum of all rows |
| Ledger.KindsKeepOrder | main.py:401-407 | splitting by type keeps the query order |
| Ledger.TotalsAppend | main.py:401-407 | totals are additive over concatenated rows |
| Ledger.GroupedKindTotals | main.py:366-407 | the sum of a type's group rows is the sum of that type's transactions |
| Ledger.GroupedEmpty | main.py:387-393 | the grouping is empty exactly when there is no transaction |
| Periods.ChoiceOf | main.py:258-311 | "назад" and "произвольный период" are recognised exactly; a preset is chosen only by its own label |
| Periods.LabelsSelect | main.py:269-304 | each preset label selects its preset |
| Periods.Resolve | main.py:267-304 | a resolved preset has bounds within 1..9999-12-31 with start at most end; only "все время" resolves to no bounds |
| Periods.TodayPreset | main.py:269-273 | "текущий день" is [today, tomorrow) |
| Periods.WeekPreset | main.py:275-281 | "текущая неделя" starts on a Monday, contains today and spans seven days |
| Periods.MonthPreset | main.py:283-290 | "текущий месяц" contains a day exactly when that day is in today's year and month |
| Periods.YearPreset | main.py:292-298 | "текущий год" contains every day of the year except 31 December |
| Periods.OverflowOnlyAtEnd | main.py:269-290 | a preset overflows only in December 9999 |
| Periods.CustomEnd | main.py:344-345 | the stored end is the day after the entered date; there is none exactly for 9999-12-31 |
| Periods.CustomEndInclusive | main.py:344-345 | any time on the entered end date is in range, and midnight of the next day is not |
| Calendar.Ordinal | main.py:325 | a valid date has a day number in 1..3652059 |
| Calendar.OrdinalOrder | main.py:377-382 | day numbers order dates as the calendar does, and distinct dates get distinct numbers |
| Calendar.MonthLength | main.py:285-288 | first of month plus `monthrange` length is the first of the next month, for every month up to November 9999 |
| Calendar.Weekday | main.py:277 | a weekday is 0..6 |
| Calendar.WeekdayAnchor | main.py:277 | 0001-01-01 and 2025-07-14 are Mondays (0), and each next day advances the weekday by one modulo 7, as `date.weekday()` |
| Calendar.DaysInMonth | main.py:285 | month lengths are 28..31, with 29 exactly for February of a leap year |
| DateText.ParseDate | main.py:325 | a date read from text is a valid date |
| DateText.ParseFormat | main.py:26 | every valid date is read back from its `YYYY-MM-DD` text |
| DateText.FormatParse | main.py:26 | every text that reads as a date is that date's `YYYY-MM-DD` text |
| Text.Strip | main.py:258 | the result has no white space at either end and is the middle of the input, with only white space cut off |
| Text.Words | main.py:170 | every piece of the split is a non-empty run without white space |
| Text.WordsOfJoin | main.py:170 | splitting words joined by spaces gives the words back |
| Text.WordsSkipSpace | main.py:170 | any run of white space before the text is skipped by the split |
| Text.WordsAfterWord | main.py:170 | a word followed by any non-empty run of white space is the first piece, and the split goes on after the run |
| Amounts.ParseAmount | main.py:178 | an accepted amount comes from a non-empty text, and a negative one starts with a minus sign |
| Amounts.WholeRoubles | main.py:178 | a plain digit string reads as that many roubles |
| Amounts.ParseAmountText | main.py:178 | every amount in kopecks is read back from its decimal text |
| Commands.KindOfWord | main.py:185-190 | only "трата" and "доход" are type words, and each names its type |
| Commands.ParseTransaction | main.py:170-190 | fewer than three words is refused first, then a second word that is no amount, then a first word that is no type word, each exactly in its case; an accepted command carries the type of the first word, the amount of the second and the third word as category |
| Commands.ReadTransaction | main.py:170-190 | three or more words with a type word and a valid amount give that type, amount and third word, whatever follows |
| Commands.RejectTransaction | main.py:170-190 | over words joined by spaces: too few words, a bad amount and a bad type word each give their own refusal |
| Commands.TransactionText | main.py:170-190 | the text `type amount category` reads back as that command |
| Commands.ParseCategory | main.py:118-128 | anything but two words is refused, then a first word that is no type word; an accepted command carries the type of the first word and the second word as name |
| Commands.ReadCategory | main.py:118-128 | over words joined by spaces: exactly two words with a type word first give that command, and every other list its refusal |
| Commands.CategoryText | main.py:118-128 | the text `type name` reads back as that command |
| Commands.CommandIsNotButton | main.py:165-168 | a transaction command is never taken for a keyboard button |
| Commands.HandleTransaction | main.py:157-213 | an unregistered sender is turned away and a button asks for the command of its type. A command that does not read gets its refusal. One that reads is saved as the sender's transaction of the parsed type, amount and category, dated now and appended, exactly when the sender has that category; otherwise the reply is "not found" with the store unchanged. Store consistency is kept. |
| Commands.HandleNewCategory | main.py:111-146 | a category is added exactly when the sender is registered, the command reads and the sender lacks that category; it is the parsed name and type, and the only change. "Already exists" means that exact category is present. Every other reply leaves the store unchanged. |
| Commands.AddCategoryOnce | main.py:130-146 | sending the same category command again reports it as existing and changes nothing |
| Commands.CategoryThenTransaction | main.py:140-212 | once a category is added, a transaction command naming it is saved |

## Left out

- Telegram I/O is not modelled: message dispatch, keyboards and reply texts. A handler's precondition is the dispatch guard of its decorator. Replies are abstract values.
- The order in which the bot tries handlers, and `handle_other_messages`, are not modelled.
- Lower-casing is done by the caller, because Unicode case folding is not modelled. `SelectPeriod`, `HandleTransaction` and `HandleNewCategory` take the lower-cased message text.
- Messages without text are not modelled.
- The database is a value, not SQLAlchemy. The grouped query's rows are an input; `ReportMatchesStore` relates them to the store.
- Database faults are modelled for reports only, as a flag. In the command handlers they are left out.
- Transaction ids, user ids other than the Telegram id, and registration (`/start`) are not modelled.
- `datetime.now()` is an input: `today` for the period menu, and `now` for a new transaction.
- Logging is not modelled.
- The report text is not modelled: the period title, the emoji lines and the `:.2f` formatting. The report is returned as its figures.
- Amounts are integer kopecks, not floats. `Amounts.ParseAmount` accepts `[+-]digits[.d|.dd]` only. Python's `float` also accepts exponents, `inf`/`nan`, underscores, a leading or trailing point, non-ASCII decimal digits and more than two decimals; those are left out, and so is float rounding in sums.
- `DateText.ParseDate` reads `YYYY-MM-DD` with two-digit month and day only. `strptime` also accepts one-digit months and days and non-ASCII digits; those are left out.
- The dispatch guard of the transaction handler already requires a type word first. The model keeps the handler's own "first word must be a type" reply anyway.
- The dialogue entry is a value in a map. The Python dict is shared between the map and the handler's local variable, but nothing else holds it, so updating by reassignment loses no behaviour.
- Running the report twice without writes gives the same figures because `ReportOf` is a function; no separate lemma states this.
