/** The year breakdown: for each of the twelve months of the selected year,
    the income minus the expenses dated in that month. */
module YearInReview {
  import opened Records

  const POSITIVE_COLOR: string := "#22c55e"
  const NEGATIVE_COLOR: string := "#ef4444"

  /** One month of the breakdown. */
  datatype MonthRow = MonthRow(month: MonthIndex, saved: int)

  /** Income minus expenses; other transaction types do not count. */
  function Net(txs: seq<Transaction>): int {
    KindTotal(txs, INCOME) - KindTotal(txs, EXPENSE)
  }

  /** The rows of the first `n` months, January first. */
  function MonthRows(txs: seq<Transaction>, year: int, n: nat): (rows: seq<MonthRow>)
    requires n <= 12
    ensures |rows| == n
    ensures forall m :: 0 <= m < n ==>
      rows[m].month == m && rows[m].saved == Net(MonthTransactions(txs, year, m))
  {
    if n == 0 then [] else MonthRows(txs, year, n - 1) + [MonthRow(n - 1, Net(MonthTransactions(txs, year, n - 1)))]
  }

  /** The twelve rows of the breakdown: row `m` is month `m` and holds the net
      of exactly the transactions dated in that month of the year. */
  function Breakdown(txs: seq<Transaction>, year: int): (rows: seq<MonthRow>)
    ensures |rows| == 12
    ensures forall m :: 0 <= m < 12 ==> rows[m].month == m && rows[m].saved == Net(MonthTransactions(txs, year, m))
  {
    MonthRows(txs, year, 12)
  }

  /** The colour of a row's figure: positive exactly when nothing was overspent. */
  function SavedColor(saved: int): (c: string)
    ensures c == POSITIVE_COLOR <==> saved >= 0
    ensures c == NEGATIVE_COLOR <==> saved < 0
  {
    if saved >= 0 then POSITIVE_COLOR else NEGATIVE_COLOR
  }

  /** The transactions dated in the year, in input order. */
  function YearTransactions(txs: seq<Transaction>, year: int): seq<Transaction> {
    if |txs| == 0 then []
    else
      var t := txs[|txs| - 1];
      YearTransactions(txs[..|txs| - 1], year) + (if t.date.Some? && t.date.value.year == year then [t] else [])
  }

  function SavedTotal(rows: seq<MonthRow>): int {
    if |rows| == 0 then 0 else SavedTotal(rows[..|rows| - 1]) + rows[|rows| - 1].saved
  }

  lemma NetAppend(a: seq<Transaction>, b: seq<Transaction>)
    ensures Net(a + b) == Net(a) + Net(b)
  {
    KindTotalAppend(a, b, INCOME);
    KindTotalAppend(a, b, EXPENSE);
  }

  /** Sum of the net figures of the first `n` months. */
  function MonthNetSum(txs: seq<Transaction>, year: int, n: nat): int
    requires n <= 12
  {
    if n == 0 then 0 else MonthNetSum(txs, year, n - 1) + Net(MonthTransactions(txs, year, n - 1))
  }

  lemma {:induction false} SavedTotalIsMonthNetSum(txs: seq<Transaction>, year: int, n: nat)
    requires n <= 12
    ensures SavedTotal(MonthRows(txs, year, n)) == MonthNetSum(txs, year, n)
  {
    if n > 0 {
      SavedTotalIsMonthNetSum(txs, year, n - 1);
      assert MonthRows(txs, year, n)[..n - 1] == MonthRows(txs, year, n - 1);
    }
  }

  lemma MonthTransactionsStep(txs: seq<Transaction>, e: Transaction, year: int, month: MonthIndex)
    ensures MonthTransactions(txs + [e], year, month)
            == MonthTransactions(txs, year, month) + (if InMonth(e, year, month) then [e] else [])
  {
    assert (txs + [e])[..|txs|] == txs;
  }

  /** What `e` adds to the first `n` months: its net figure when it is dated in one of them. */
  function Contribution(e: Transaction, year: int, n: nat): int {
    if e.date.Some? && e.date.value.year == year && e.date.value.month < n then Net([e]) else 0
  }

  lemma ContributionStep(e: Transaction, year: int, n: nat)
    requires 0 < n <= 12
    ensures Contribution(e, year, n) == Contribution(e, year, n - 1) + (if InMonth(e, year, n - 1) then Net([e]) else 0)
  {
  }

  lemma MonthNetStep(txs: seq<Transaction>, e: Transaction, year: int, month: MonthIndex)
    ensures Net(MonthTransactions(txs + [e], year, month))
            == Net(MonthTransactions(txs, year, month)) + (if InMonth(e, year, month) then Net([e]) else 0)
  {
    MonthTransactionsStep(txs, e, year, month);
    if InMonth(e, year, month) {
      NetAppend(MonthTransactions(txs, year, month), [e]);
    } else {
      assert MonthTransactions(txs, year, month) + [] == MonthTransactions(txs, year, month);
    }
  }

  /** One more transaction moves the first `n` months' total by its own net
      figure exactly when it is dated in one of those months of the year. */
  lemma {:induction false} MonthNetSumStep(txs: seq<Transaction>, e: Transaction, year: int, n: nat)
    requires n <= 12
    ensures MonthNetSum(txs + [e], year, n)
            == MonthNetSum(txs, year, n) + Contribution(e, year, n)
  {
    if n > 0 {
      var m: MonthIndex := n - 1;
      MonthNetSumStep(txs, e, year, m);
      MonthNetStep(txs, e, year, m);
      ContributionStep(e, year, n);
    }
  }

  lemma {:induction false} MonthNetSumEmpty(year: int, n: nat)
    requires n <= 12
    ensures MonthNetSum([], year, n) == 0
  {
    if n > 0 {
      MonthNetSumEmpty(year, n - 1);
    }
  }

  lemma {:induction false} MonthNetSumIsYearNet(txs: seq<Transaction>, year: int)
    ensures MonthNetSum(txs, year, 12) == Net(YearTransactions(txs, year))
  {
    if |txs| == 0 {
      MonthNetSumEmpty(year, 12);
    } else {
      var p, e := txs[..|txs| - 1], txs[|txs| - 1];
      assert txs == p + [e];
      MonthNetSumIsYearNet(p, year);
      MonthNetSumStep(p, e, year, 12);
      NetAppend(YearTransactions(p, year), [e]);
      NetAppend(YearTransactions(p, year), []);
      assert YearTransactions(p, year) + [] == YearTransactions(p, year);
    }
  }

  /** The twelve monthly figures add up to the year's income minus its expenses. */
  lemma BreakdownAddsUpToYear(txs: seq<Transaction>, year: int)
    ensures SavedTotal(Breakdown(txs, year)) == Net(YearTransactions(txs, year))
  {
    SavedTotalIsMonthNetSum(txs, year, 12);
    MonthNetSumIsYearNet(txs, year);
  }

  /** A month's figure is not floored: one expense and no income give a negative row. */
  lemma OverspentMonthIsNegative(e: Transaction, year: int, month: MonthIndex)
    requires IsExpense(e) && e.amount > 0 && InMonth(e, year, month)
    ensures Breakdown([e], year)[month].saved < 0
    ensures SavedColor(Breakdown([e], year)[month].saved) == NEGATIVE_COLOR
  {
    var rows := Breakdown([e], year);
    assert rows[month].saved == Net(MonthTransactions([e], year, month));
    MonthTransactionsStep([], e, year, month);
    assert [] + [e] == [e];
    assert Net([e]) == -e.amount by {
      assert [e][..0] == [] && [e][0] == e;
      assert e.kind != INCOME by {
        assert e.kind[0] != INCOME[0];
      }
      assert KindTotal([e], INCOME) == KindTotal([], INCOME) + 0;
      assert KindTotal([e], EXPENSE) == KindTotal([], EXPENSE) + e.amount;
    }
  }
}
