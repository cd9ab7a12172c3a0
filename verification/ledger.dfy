/**
  The data the report reads: users, their categories and their transactions,
  the range filter of a report, and the aggregation of the grouped query result
  into income and expense lists, totals and balance.
*/
module Ledger {

  /** A user, identified by the Telegram id of the sender. */
  type UserId = int

  /** The two kinds of category (`CategoryType`). */
  datatype CategoryType = Income | Expense

  datatype Category = Category(owner: UserId, name: string, kind: CategoryType)

  const MicrosPerDay := 86_400_000_000

  /** A `datetime`: a day number and the microseconds elapsed since that day's midnight. */
  datatype Moment = Moment(day: int, micros: int)

  predicate IsMoment(t: Moment) {
    0 <= t.micros < MicrosPerDay
  }

  /** The first instant of day `d`, `datetime.combine(d, datetime.min.time())`. */
  function Midnight(d: int): Moment {
    Moment(d, 0)
  }

  /** `a < b` on datetimes. */
  predicate Before(a: Moment, b: Moment) {
    a.day < b.day || (a.day == b.day && a.micros < b.micros)
  }

  /**
    A stored transaction, with the name and type of its category joined in.
    Amounts are in kopecks.
  */
  datatype Txn = Txn(owner: UserId, category: string, kind: CategoryType, amount: int, when: Moment)

  /** The persistent store, abstracted as values. */
  datatype Store = Store(users: set<UserId>, categories: set<Category>, transactions: seq<Txn>)

  /** Every transaction is filed under a category that belongs to its own user. */
  ghost predicate Consistent(store: Store) {
    forall x :: x in store.transactions ==> Category(x.owner, x.category, x.kind) in store.categories
  }

  /** The date bounds of a report: a half-open range of day numbers, or no filter at all. */
  datatype Bounds = Between(start: int, end: int) | AllTime

  /** `start_datetime <= t < end_datetime`, the filter of a bounded report. */
  predicate InRange(t: Moment, start: int, end: int): (b: bool)
    ensures IsMoment(t) ==> (b <==> start <= t.day < end)
  {
    !Before(t, Midnight(start)) && Before(t, Midnight(end))
  }

  /** The filter of the report queries: the user's own transactions, within the bounds if there are any. */
  predicate Matches(x: Txn, user: UserId, b: Bounds) {
    x.owner == user && (b.Between? ==> InRange(x.when, b.start, b.end))
  }

  /** The transactions the report queries see, in store order. */
  function Selected(txns: seq<Txn>, user: UserId, b: Bounds): (r: seq<Txn>)
    ensures |r| <= |txns|
    ensures forall x :: x in r <==> x in txns && Matches(x, user, b)
    ensures forall x :: multiset(r)[x] == if Matches(x, user, b) then multiset(txns)[x] else 0
  {
    if txns == [] then []
    else
      var rest := Selected(txns[1..], user, b);
      assert txns == [txns[0]] + txns[1..];
      if Matches(txns[0], user, b) then [txns[0]] + rest else rest
  }

  /** Selecting from two runs of transactions is selecting from each, in order. */
  lemma {:induction false} SelectedAppend(txns: seq<Txn>, more: seq<Txn>, user: UserId, b: Bounds)
    ensures Selected(txns + more, user, b) == Selected(txns, user, b) + Selected(more, user, b)
    decreases |txns|
  {
    if txns == [] {
      assert txns + more == more;
    } else {
      assert (txns + more)[1..] == txns[1..] + more;
      SelectedAppend(txns[1..], more, user, b);
    }
  }

  /** One row of the grouped query: a category's name and type and the sum of its amounts. */
  datatype Row = Row(name: string, kind: CategoryType, total: int)

  /** One line of a report section: a category name and its sum. */
  datatype Detail = Detail(name: string, amount: int)

  /** The rows of one category type, in the order of `rows`. */
  function RowsOfKind(rows: seq<Row>, k: CategoryType): (r: seq<Row>)
    ensures |r| <= |rows|
    ensures forall i :: 0 <= i < |r| ==> r[i].kind == k
  {
    if rows == [] then []
    else
      var earlier, last := RowsOfKind(rows[..|rows| - 1], k), rows[|rows| - 1];
      if last.kind == k then earlier + [last] else earlier
  }

  /** The sum of the totals of `rows`. */
  function Totals(rows: seq<Row>): int {
    if rows == [] then 0 else Totals(rows[..|rows| - 1]) + rows[|rows| - 1].total
  }

  /** The report lines of `rows`, one per row, in order. */
  function Details(rows: seq<Row>): (r: seq<Detail>)
    ensures |r| == |rows|
  {
    if rows == [] then []
    else Details(rows[..|rows| - 1]) + [Detail(rows[|rows| - 1].name, rows[|rows| - 1].total)]
  }

  /**
    The aggregation loop of a report: each row goes to the income list and total
    when its type is income and to the expense list and total otherwise.
  */
  method Aggregate(rows: seq<Row>)
    returns (incomeTotal: int, expenseTotal: int, incomeDetails: seq<Detail>, expenseDetails: seq<Detail>)
    ensures incomeTotal == Totals(RowsOfKind(rows, Income))
    ensures expenseTotal == Totals(RowsOfKind(rows, Expense))
    ensures incomeDetails == Details(RowsOfKind(rows, Income))
    ensures expenseDetails == Details(RowsOfKind(rows, Expense))
  {
    incomeTotal, expenseTotal := 0, 0;
    incomeDetails, expenseDetails := [], [];
    for i := 0 to |rows|
      invariant Accumulated(rows[..i], Income, incomeTotal, incomeDetails)
      invariant Accumulated(rows[..i], Expense, expenseTotal, expenseDetails)
    {
      var row := rows[i];
      AccumulateRow(rows, i, Income, incomeTotal, incomeDetails);
      AccumulateRow(rows, i, Expense, expenseTotal, expenseDetails);
      if row.kind == Income {
        incomeTotal := incomeTotal + row.total;
        incomeDetails := incomeDetails + [Detail(row.name, row.total)];
      } else {
        expenseTotal := expenseTotal + row.total;
        expenseDetails := expenseDetails + [Detail(row.name, row.total)];
      }
    }
    assert rows[..|rows|] == rows;
  }

  /** `total` and `details` are the total and the lines of the rows of type `k` in `rows`. */
  predicate Accumulated(rows: seq<Row>, k: CategoryType, total: int, details: seq<Detail>) {
    total == Totals(RowsOfKind(rows, k)) && details == Details(RowsOfKind(rows, k))
  }

  /** One more row is added to the accumulation of its own type and leaves the other one as it is. */
  lemma AccumulateRow(rows: seq<Row>, i: nat, k: CategoryType, total: int, details: seq<Detail>)
    requires i < |rows| && Accumulated(rows[..i], k, total, details)
    ensures rows[i].kind == k ==>
      Accumulated(rows[..i + 1], k, total + rows[i].total, details + [Detail(rows[i].name, rows[i].total)])
    ensures rows[i].kind != k ==> Accumulated(rows[..i + 1], k, total, details)
  {
    assert rows[..i + 1] == rows[..i] + [rows[i]];
    RowsOfKindSnoc(rows[..i], rows[i], k);
    SumSnoc(RowsOfKind(rows[..i], k), rows[i]);
  }

  lemma RowsOfKindSnoc(rows: seq<Row>, row: Row, k: CategoryType)
    ensures RowsOfKind(rows + [row], k) == if row.kind == k then RowsOfKind(rows, k) + [row] else RowsOfKind(rows, k)
  {
    assert (rows + [row])[..|rows|] == rows;
  }

  lemma SumSnoc(rows: seq<Row>, row: Row)
    ensures Totals(rows + [row]) == Totals(rows) + row.total
    ensures Details(rows + [row]) == Details(rows) + [Detail(row.name, row.total)]
  {
    assert (rows + [row])[..|rows|] == rows;
  }

  lemma {:induction false} TotalsAppend(rows: seq<Row>, more: seq<Row>)
    ensures Totals(rows + more) == Totals(rows) + Totals(more)
    decreases |more|
  {
    if more == [] {
      assert rows + more == rows;
    } else {
      var n := |more| - 1;
      assert rows + more == (rows + more[..n]) + [more[n]];
      SumSnoc(rows + more[..n], more[n]);
      TotalsAppend(rows, more[..n]);
    }
  }

  /**
    Income and expense rows partition the grouped rows: together they are the
    rows, each exactly once.
  */
  lemma {:induction false} KindsPartition(rows: seq<Row>)
    ensures multiset(RowsOfKind(rows, Income)) + multiset(RowsOfKind(rows, Expense)) == multiset(rows)
  {
    if rows != [] {
      var prefix, last := rows[..|rows| - 1], rows[|rows| - 1];
      KindsPartition(prefix);
      assert rows == prefix + [last];
      RowsOfKindSnoc(prefix, last, Income);
      RowsOfKindSnoc(prefix, last, Expense);
    }
  }

  /** So the income total and the expense total add up to the sum of all rows. */
  lemma {:induction false} KindTotalsAdd(rows: seq<Row>)
    ensures Totals(RowsOfKind(rows, Income)) + Totals(RowsOfKind(rows, Expense)) == Totals(rows)
  {
    if rows != [] {
      var prefix, last := rows[..|rows| - 1], rows[|rows| - 1];
      KindTotalsAdd(prefix);
      assert rows == prefix + [last];
      RowsOfKindSnoc(prefix, last, Income);
      RowsOfKindSnoc(prefix, last, Expense);
      SumSnoc(prefix, last);
      SumSnoc(RowsOfKind(prefix, last.kind), last);
    }
  }

  /** Taking the rows of one type keeps their order: it distributes over concatenation. */
  lemma {:induction false} KindsKeepOrder(rows: seq<Row>, more: seq<Row>, k: CategoryType)
    ensures RowsOfKind(rows + more, k) == RowsOfKind(rows, k) + RowsOfKind(more, k)
    decreases |more|
  {
    if more == [] {
      assert rows + more == rows;
    } else {
      var n := |more| - 1;
      assert rows + more == (rows + more[..n]) + [more[n]];
      assert more == more[..n] + [more[n]];
      RowsOfKindSnoc(rows + more[..n], more[n], k);
      RowsOfKindSnoc(more[..n], more[n], k);
      KindsKeepOrder(rows, more[..n], k);
    }
  }

  /** True when transaction `x` belongs to the group with key (`name`, `kind`). */
  predicate InGroup(x: Txn, name: string, kind: CategoryType) {
    x.category == name && x.kind == kind
  }

  /** The sum of the amounts of the transactions of one group. */
  function GroupSum(txns: seq<Txn>, name: string, kind: CategoryType): int {
    if txns == [] then 0
    else (if InGroup(txns[0], name, kind) then txns[0].amount else 0) + GroupSum(txns[1..], name, kind)
  }

  /** The sum of the amounts of the transactions of one category type. */
  function KindSum(txns: seq<Txn>, k: CategoryType): int {
    if txns == [] then 0
    else (if txns[0].kind == k then txns[0].amount else 0) + KindSum(txns[1..], k)
  }

  /** `txns` without the transactions of one group. */
  function Without(txns: seq<Txn>, name: string, kind: CategoryType): (r: seq<Txn>)
    ensures forall x :: x in r <==> x in txns && !InGroup(x, name, kind)
  {
    if txns == [] then []
    else (if InGroup(txns[0], name, kind) then [] else [txns[0]]) + Without(txns[1..], name, kind)
  }

  /** Some transaction of `txns` belongs to the group (`name`, `kind`). */
  ghost predicate HasGroup(txns: seq<Txn>, name: string, kind: CategoryType) {
    exists x :: x in txns && InGroup(x, name, kind)
  }

  /** Some row of `rows` is the group of transaction `x`. */
  ghost predicate HasRow(rows: seq<Row>, x: Txn) {
    exists i :: 0 <= i < |rows| && InGroup(x, rows[i].name, rows[i].kind)
  }

  /** `row` is the row of its group: the group has a transaction and `row` carries its sum. */
  ghost predicate GroupRow(row: Row, txns: seq<Txn>) {
    row.total == GroupSum(txns, row.name, row.kind) && HasGroup(txns, row.name, row.kind)
  }

  /**
    `rows` is what `GROUP BY Category.name, Category.type` with `sum(amount)`
    returns for `txns`, in some order: one row per group that has a
    transaction, carrying that group's sum.
  */
  ghost predicate GroupedBy(rows: seq<Row>, txns: seq<Txn>) {
    && (forall i, j :: 0 <= i < j < |rows| ==> rows[i].name != rows[j].name || rows[i].kind != rows[j].kind)
    && (forall i :: 0 <= i < |rows| ==> GroupRow(rows[i], txns))
    && (forall x :: x in txns ==> HasRow(rows, x))
  }

  lemma {:induction false} GroupSumWithout(txns: seq<Txn>, name: string, kind: CategoryType, other: string, otherKind: CategoryType)
    requires name != other || kind != otherKind
    ensures GroupSum(Without(txns, name, kind), other, otherKind) == GroupSum(txns, other, otherKind)
  {
    if txns != [] {
      var head := if InGroup(txns[0], name, kind) then [] else [txns[0]];
      var tail := Without(txns[1..], name, kind);
      assert head == [] ==> head + tail == tail;
      assert head != [] ==> (head + tail)[0] == txns[0] && (head + tail)[1..] == tail;
      GroupSumWithout(txns[1..], name, kind, other, otherKind);
    }
  }

  lemma {:induction false} KindSumSplit(txns: seq<Txn>, name: string, kind: CategoryType, k: CategoryType)
    ensures KindSum(txns, k) == KindSum(Without(txns, name, kind), k) + (if kind == k then GroupSum(txns, name, kind) else 0)
  {
    if txns != [] {
      var head := if InGroup(txns[0], name, kind) then [] else [txns[0]];
      var tail := Without(txns[1..], name, kind);
      assert head == [] ==> head + tail == tail;
      assert head != [] ==> (head + tail)[0] == txns[0] && (head + tail)[1..] == tail;
      KindSumSplit(txns[1..], name, kind, k);
    }
  }

  /** Removing the last group leaves a grouping of the remaining transactions. */
  lemma GroupedByPrefix(rows: seq<Row>, txns: seq<Txn>)
    requires GroupedBy(rows, txns) && rows != []
    ensures GroupedBy(rows[..|rows| - 1], Without(txns, rows[|rows| - 1].name, rows[|rows| - 1].kind))
  {
    var n := |rows| - 1;
    var prefix, last := rows[..n], rows[n];
    var rest := Without(txns, last.name, last.kind);
    forall i | 0 <= i < n
      ensures GroupRow(prefix[i], rest)
    {
      var row := rows[i];
      assert GroupRow(row, txns) && prefix[i] == row;
      GroupSumWithout(txns, last.name, last.kind, row.name, row.kind);
      var x :| x in txns && InGroup(x, row.name, row.kind);
      assert x in rest;
    }
    forall x | x in rest
      ensures HasRow(prefix, x)
    {
      assert HasRow(rows, x);
      var i :| 0 <= i < |rows| && InGroup(x, rows[i].name, rows[i].kind);
      assert i < n && prefix[i] == rows[i];
    }
  }

  /**
    Summing the grouped rows of one type gives the sum of the amounts of all
    transactions of that type: the group sums are a regrouping of the amounts.
  */
  lemma {:induction false} GroupedKindTotals(rows: seq<Row>, txns: seq<Txn>, k: CategoryType)
    requires GroupedBy(rows, txns)
    ensures Totals(RowsOfKind(rows, k)) == KindSum(txns, k)
    decreases |rows|
  {
    if rows == [] {
      GroupedEmpty(rows, txns);
    } else {
      var n := |rows| - 1;
      var prefix, last := rows[..n], rows[n];
      var rest := Without(txns, last.name, last.kind);
      var own := if last.kind == k then last.total else 0;
      assert Totals(RowsOfKind(prefix, k)) == KindSum(rest, k) by {
        GroupedByPrefix(rows, txns);
        GroupedKindTotals(prefix, rest, k);
      }
      assert KindSum(txns, k) == KindSum(rest, k) + own by {
        assert GroupRow(rows[n], txns);
        KindSumSplit(txns, last.name, last.kind, k);
      }
      assert Totals(RowsOfKind(rows, k)) == Totals(RowsOfKind(prefix, k)) + own by {
        assert rows == prefix + [last];
        RowsOfKindSnoc(prefix, last, k);
        SumSnoc(RowsOfKind(prefix, k), last);
      }
    }
  }

  /** The grouped result is empty exactly when there is no transaction to group. */
  lemma GroupedEmpty(rows: seq<Row>, txns: seq<Txn>)
    requires GroupedBy(rows, txns)
    ensures rows == [] <==> txns == []
  {
    if txns != [] {
      assert HasRow(rows, txns[0]);
    }
    if rows != [] {
      assert GroupRow(rows[0], txns);
    }
  }
}
