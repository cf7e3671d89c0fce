/** The dashboard's aggregation (src/App.jsx): the selected month's
    transactions, the income total, the expense buckets per category, the
    top-3 lists, the list of years offered for review, the expenditure chart
    rows, and the application state that category edits and transaction
    add/delete change. */
module App {
  import opened Collections
  import opened Ranking
  import opened Records

  const DEFAULT_EXPENSE_CATS: seq<string> :=
    ["Housing", "Food", "Utilities", "Transport", "Entertainment", "Healthcare", "Other"]
  const DEFAULT_NEEDS: seq<string> := ["Housing", "Food", "Utilities", "Healthcare"]
  const DEFAULT_WANTS: seq<string> := ["Transport", "Entertainment", "Other"]

  const NEEDS_COLOR: string := "#3b82f6"
  const WANTS_COLOR: string := "#ef4444"
  const SAVINGS_COLOR: string := "#22c55e"
  const DEFAULT_COLOR: string := "#94a3b8"

  /** How many entries each top list keeps. */
  const TOP_N: nat := 3

  /* ---------------------------------------------------------------------- */
  /* Month selection and totals                                              */

  /** `EXPENSE_CATS`: the loaded category list, or the seven defaults when it is empty. */
  function ExpenseCats(expenseCategories: seq<string>): (r: seq<string>)
    ensures |r| > 0
    ensures |expenseCategories| > 0 ==> r == expenseCategories
    ensures |expenseCategories| == 0 ==> r == DEFAULT_EXPENSE_CATS && OTHER in r
  {
    if |expenseCategories| > 0 then expenseCategories else DEFAULT_EXPENSE_CATS
  }

  /* ---------------------------------------------------------------------- */
  /* Expense buckets                                                          */

  /** The bucket an expense is credited to: its category when that is a
      non-empty member of the category list, else "Other". */
  function BucketOf(category: Option<string>, cats: seq<string>): (k: string)
    ensures k == OTHER || (category == Some(k) && k != [] && k in cats)
    ensures category.Some? && category.value != [] && category.value in cats ==> k == category.value
  {
    if category.Some? && category.value != [] && category.value in cats then category.value else OTHER
  }

  /** The expense amounts credited to bucket `k`. */
  function BucketTotal(txs: seq<Transaction>, cats: seq<string>, k: string): int {
    if |txs| == 0 then 0
    else
      var t := txs[|txs| - 1];
      BucketTotal(txs[..|txs| - 1], cats, k) + (if IsExpense(t) && BucketOf(t.category, cats) == k then t.amount else 0)
  }

  /** The buckets after crediting the expenses `txs`: a bucket for every
      category, each holding what is credited to it, all of them holding the
      expense total. */
  ghost predicate Credited(buckets: Amounts, cats: seq<string>, txs: seq<Transaction>) {
    && buckets.Valid()
    && (forall c :: c in cats ==> c in buckets.values)
    && (forall k :: k in buckets.values ==> buckets.values[k] == BucketTotal(txs, cats, k))
  }

  lemma BucketTotalStep(txs: seq<Transaction>, e: Transaction, cats: seq<string>, k: string)
    ensures BucketTotal(txs + [e], cats, k)
            == BucketTotal(txs, cats, k) + (if IsExpense(e) && BucketOf(e.category, cats) == k then e.amount else 0)
  {
    assert (txs + [e])[..|txs|] == txs;
  }

  /** Crediting the next expense to its bucket keeps the buckets credited. */
  lemma CreditExpense(buckets: Amounts, cats: seq<string>, txs: seq<Transaction>, i: nat, key: string)
    requires i < |txs| && IsExpense(txs[i]) && key == BucketOf(txs[i].category, cats)
    requires OTHER in cats && Credited(buckets, cats, txs[..i])
    ensures key in buckets.values
    ensures buckets.Put(key, buckets.values[key] + txs[i].amount).keys == buckets.keys
    ensures Credited(buckets.Put(key, buckets.values[key] + txs[i].amount), cats, txs[..i + 1])
  {
    var e := txs[i];
    assert txs[..i + 1] == txs[..i] + [e];
    var updated := buckets.Put(key, buckets.values[key] + e.amount);
    assert updated == Amounts(buckets.keys, buckets.values[key := buckets.values[key] + e.amount]);
    assert updated.values.Keys == buckets.values.Keys;
    forall k | k in updated.values
      ensures updated.values[k] == BucketTotal(txs[..i + 1], cats, k)
    {
      BucketTotalStep(txs[..i], e, cats, k);
    }
  }

  /** A next transaction that is not an expense leaves the buckets credited. */
  lemma CreditNonExpense(buckets: Amounts, cats: seq<string>, txs: seq<Transaction>, i: nat)
    requires i < |txs| && !IsExpense(txs[i])
    requires Credited(buckets, cats, txs[..i])
    ensures Credited(buckets, cats, txs[..i + 1])
  {
    var e := txs[i];
    assert txs[..i + 1] == txs[..i] + [e];
    forall k | k in buckets.values
      ensures buckets.values[k] == BucketTotal(txs[..i + 1], cats, k)
    {
      BucketTotalStep(txs[..i], e, cats, k);
    }
  }

  /** One pass of the crediting loop: an expense is added to its bucket, any
      other transaction leaves the buckets as they are. */
  method Credit(buckets: Amounts, cats: seq<string>, txs: seq<Transaction>, i: nat) returns (after: Amounts)
    requires i < |txs| && OTHER in cats && Credited(buckets, cats, txs[..i])
    ensures after.keys == buckets.keys
    ensures Credited(after, cats, txs[..i + 1])
  {
    var e := txs[i];
    if IsExpense(e) {
      var key := BucketOf(e.category, cats);
      CreditExpense(buckets, cats, txs, i, key);
      after := buckets.Put(key, buckets.values[key] + e.amount);
    } else {
      CreditNonExpense(buckets, cats, txs, i);
      after := buckets;
    }
  }

  /** The seeded buckets before any transaction is credited. */
  lemma SeededIsCredited(buckets: Amounts, cats: seq<string>)
    requires buckets.Valid() && buckets.keys == Dedup(cats)
    requires forall k :: k in buckets.values ==> buckets.values[k] == 0
    ensures Credited(buckets, cats, [])
  {
  }

  /** `expensesByCategory`: one bucket per category, created at 0 in list
      order, then every expense of the month is added to its bucket. Its keys
      are the categories, each bucket holds exactly the expenses credited to it,
      and the buckets together hold the month's total expense amount. */
  method ExpensesByCategory(cats: seq<string>, monthTx: seq<Transaction>) returns (buckets: Amounts)
    requires OTHER in cats
    ensures buckets.Valid() && buckets.keys == Dedup(cats)
    ensures forall k :: k in buckets.values ==> buckets.values[k] == BucketTotal(monthTx, cats, k)
    ensures buckets.Total() == KindTotal(monthTx, EXPENSE)
  {
    buckets := SeedBuckets(cats);
    SeededIsCredited(buckets, cats);
    ghost var keys := buckets.keys;
    assert monthTx[..0] == [];
    for i := 0 to |monthTx|
      invariant buckets.keys == keys
      invariant Credited(buckets, cats, monthTx[..i])
    {
      buckets := Credit(buckets, cats, monthTx, i);
    }
    assert monthTx[..|monthTx|] == monthTx;
    CreditedTotal(buckets, cats, monthTx);
  }

  /** Credited buckets, one per category, hold the expense total between them. */
  lemma CreditedTotal(buckets: Amounts, cats: seq<string>, txs: seq<Transaction>)
    requires OTHER in cats && Credited(buckets, cats, txs)
    ensures buckets.Total() == KindTotal(txs, EXPENSE)
  {
    BucketSums(buckets.keys, buckets.values, cats, txs);
    BucketsHoldExpenseTotal(buckets.keys, cats, txs);
  }

  /** Sum of the bucket totals over `keys`. */
  function SumBuckets(keys: seq<string>, cats: seq<string>, txs: seq<Transaction>): int {
    if |keys| == 0 then 0 else SumBuckets(keys[..|keys| - 1], cats, txs) + BucketTotal(txs, cats, keys[|keys| - 1])
  }

  /** Buckets holding the bucket totals sum to `SumBuckets`. */
  lemma {:induction false} BucketSums(keys: seq<string>, m: map<string, int>, cats: seq<string>, txs: seq<Transaction>)
    requires forall k :: k in keys ==> k in m && m[k] == BucketTotal(txs, cats, k)
    ensures SumOver(keys, m) == SumBuckets(keys, cats, txs)
  {
    if |keys| > 0 {
      BucketSums(keys[..|keys| - 1], m, cats, txs);
    }
  }

  /** One more transaction adds its amount to the sum of the buckets exactly
      when it is an expense whose bucket is among the (distinct) keys. */
  lemma {:induction false} SumBucketsStep(keys: seq<string>, cats: seq<string>, txs: seq<Transaction>, e: Transaction)
    requires Distinct(keys)
    ensures SumBuckets(keys, cats, txs + [e])
            == SumBuckets(keys, cats, txs) + (if IsExpense(e) && BucketOf(e.category, cats) in keys then e.amount else 0)
  {
    if |keys| > 0 {
      var p, k := keys[..|keys| - 1], keys[|keys| - 1];
      assert keys == p + [k];
      SumBucketsStep(p, cats, txs, e);
      BucketTotalStep(txs, e, cats, k);
    }
  }

  /** Buckets for every category and for "Other" together hold every expense:
      their sum is the total expense amount. */
  lemma {:induction false} BucketsHoldExpenseTotal(keys: seq<string>, cats: seq<string>, txs: seq<Transaction>)
    requires Distinct(keys) && OTHER in keys && forall c :: c in cats ==> c in keys
    ensures SumBuckets(keys, cats, txs) == KindTotal(txs, EXPENSE)
  {
    if |txs| == 0 {
      SumBucketsEmpty(keys, cats);
    } else {
      var p, e := txs[..|txs| - 1], txs[|txs| - 1];
      assert txs == p + [e];
      BucketsHoldExpenseTotal(keys, cats, p);
      SumBucketsStep(keys, cats, p, e);
    }
  }

  lemma {:induction false} SumBucketsEmpty(keys: seq<string>, cats: seq<string>)
    ensures SumBuckets(keys, cats, []) == 0
  {
    if |keys| > 0 {
      SumBucketsEmpty(keys[..|keys| - 1], cats);
    }
  }

  /** The buckets seeded for the categories `cats`: one per category, in list order, each at 0. */
  ghost predicate Seeded(buckets: Amounts, cats: seq<string>) {
    && buckets.Valid() && buckets.keys == Dedup(cats)
    && forall k :: k in buckets.values ==> buckets.values[k] == 0
  }

  lemma SeedStep(buckets: Amounts, cats: seq<string>, cat: string)
    requires Seeded(buckets, cats)
    ensures Seeded(buckets.Put(cat, 0), cats + [cat])
  {
    if cat in buckets.values {
      DedupAppendPresent(cats, cat);
    } else {
      DedupAppendAbsent(cats, cat);
    }
  }

  /** The zero seeding of `expensesByCategory`: one bucket per category, in list order, each at 0. */
  method SeedBuckets(cats: seq<string>) returns (buckets: Amounts)
    ensures buckets.Valid() && buckets.keys == Dedup(cats)
    ensures forall k :: k in buckets.values ==> buckets.values[k] == 0
  {
    buckets := EMPTY;
    assert cats[..0] == [];
    for i := 0 to |cats|
      invariant Seeded(buckets, cats[..i])
    {
      assert cats[..i + 1] == cats[..i] + [cats[i]];
      SeedStep(buckets, cats[..i], cats[i]);
      buckets := buckets.Put(cats[i], 0);
    }
    assert cats[..|cats|] == cats;
  }

  /* ---------------------------------------------------------------------- */
  /* Top-3 lists                                                              */

  /** `monthlyIncome`: the amounts of the month's income transactions, summed.
      It is the income total of the selected month. */
  function MonthlyIncome(txs: seq<Transaction>, year: int, month: MonthIndex): (r: int)
    ensures r == KindTotal(MonthTransactions(txs, year, month), INCOME)
  {
    var monthTx := MonthTransactions(txs, year, month);
    IncomeSumIsKindTotal(monthTx);
    AmountSum(Filter(monthTx, IsIncome))
  }

  /** `(t.amount || 0)`, the sort key of the expense and income lists. */
  function AmountKey(t: Transaction): int {
    t.amount
  }

  /** `Math.abs(t.amount || 0)`, the sort key of the transaction list. */
  function AbsAmountKey(t: Transaction): int {
    if t.amount < 0 then -t.amount else t.amount
  }

  /** `topExpenses`: the month's expenses, largest amount first, first three. */
  function TopExpenses(monthTx: seq<Transaction>): seq<Transaction> {
    Top(Filter(monthTx, IsExpense), AmountKey, TOP_N)
  }

  /** `topTransactions`: all the month's transactions, largest absolute amount first, first three. */
  function TopTransactions(monthTx: seq<Transaction>): seq<Transaction> {
    Top(monthTx, AbsAmountKey, TOP_N)
  }

  /** `topIncome`: the month's income, largest amount first, first three. */
  function TopIncome(monthTx: seq<Transaction>): seq<Transaction> {
    Top(Filter(monthTx, IsIncome), AmountKey, TOP_N)
  }

  /** What each top list promises about its pool `s`: at most three elements,
      all from the pool, ordered by key largest first, none left out that is
      larger than one taken, and equal keys in input order. */
  lemma TopThreeSelects(s: seq<Transaction>, key: Transaction -> int)
    ensures var r := Top(s, key, TOP_N);
            && |r| <= TOP_N
            && multiset(r) <= multiset(s)
            && NonIncreasing(r, key)
            && (forall x, y :: x in multiset(s) - multiset(r) && y in r ==> key(x) <= key(y))
            && (forall v :: WithKey(r, key, v) <= WithKey(s, key, v))
  {
    var r := Top(s, key, TOP_N);
    TopDrawnFromInput(s, key, TOP_N);
    forall x, y | x in multiset(s) - multiset(r) && y in r
      ensures key(x) <= key(y)
    {
      TopTakesLargest(s, key, TOP_N, x, y);
    }
    forall v
      ensures WithKey(r, key, v) <= WithKey(s, key, v)
    {
      TopStable(s, key, TOP_N, v);
    }
  }

  /** `topExpenses` is `TopThreeSelects` applied to the month's expenses; its
      entries are expenses of the month. */
  lemma TopExpensesFromMonth(monthTx: seq<Transaction>)
    ensures forall t :: t in TopExpenses(monthTx) ==> t in monthTx && IsExpense(t)
  {
    var pool := Filter(monthTx, IsExpense);
    TopDrawnFromInput(pool, AmountKey, TOP_N);
    forall t | t in TopExpenses(monthTx)
      ensures t in monthTx && IsExpense(t)
    {
      assert t in multiset(pool);
      FilterMembership(monthTx, IsExpense, t);
    }
  }

  /** `topIncome` is `TopThreeSelects` applied to the month's income; its
      entries are income transactions of the month. */
  lemma TopIncomeFromMonth(monthTx: seq<Transaction>)
    ensures forall t :: t in TopIncome(monthTx) ==> t in monthTx && IsIncome(t)
  {
    var pool := Filter(monthTx, IsIncome);
    TopDrawnFromInput(pool, AmountKey, TOP_N);
    forall t | t in TopIncome(monthTx)
      ensures t in monthTx && IsIncome(t)
    {
      assert t in multiset(pool);
      FilterMembership(monthTx, IsIncome, t);
    }
  }

  /** `topTransactions` is `TopThreeSelects` applied to all the month's
      transactions; its entries are transactions of the month. */
  lemma TopTransactionsFromMonth(monthTx: seq<Transaction>)
    ensures forall t :: t in TopTransactions(monthTx) ==> t in monthTx
  {
    TopDrawnFromInput(monthTx, AbsAmountKey, TOP_N);
    forall t | t in TopTransactions(monthTx)
      ensures t in monthTx
    {
      assert t in multiset(monthTx);
    }
  }

  /* ---------------------------------------------------------------------- */
  /* Years offered for review                                                 */

  /** The years of the transactions whose date parses, in order. */
  function Years(txs: seq<Transaction>): (r: seq<int>)
    ensures forall y :: y in r <==> exists t :: t in txs && t.date.Some? && t.date.value.year == y
  {
    if |txs| == 0 then []
    else
      var t := txs[|txs| - 1];
      assert txs == txs[..|txs| - 1] + [t];
      Years(txs[..|txs| - 1]) + (if t.date.Some? then [t.date.value.year] else [])
  }

  function YearKey(y: int): int {
    y
  }

  /** `reviewYears`: the current year and every transaction year, once each, latest first. */
  function ReviewYears(currentYear: int, txs: seq<Transaction>): seq<int> {
    SortDesc(Dedup([currentYear] + Years(txs)), YearKey)
  }

  /** `reviewYears` holds exactly the current year and the transaction years. */
  lemma ReviewYearsMembers(currentYear: int, txs: seq<Transaction>, y: int)
    ensures y in ReviewYears(currentYear, txs) <==> y == currentYear || y in Years(txs)
  {
    var d := Dedup([currentYear] + Years(txs));
    SortDescSortsAndPermutes(d, YearKey);
    assert y in SortDesc(d, YearKey) <==> y in multiset(SortDesc(d, YearKey));
    assert y in d <==> y in multiset(d);
  }

  /** `reviewYears` is strictly descending, so it has no repeats. */
  lemma ReviewYearsDescending(currentYear: int, txs: seq<Transaction>)
    ensures var r := ReviewYears(currentYear, txs);
            forall i, j :: 0 <= i < j < |r| ==> r[i] > r[j]
  {
    var d := Dedup([currentYear] + Years(txs));
    var r := SortDesc(d, YearKey);
    SortDescSortsAndPermutes(d, YearKey);
    DistinctPermutation(d, r);
  }

  /** The review-year correction: a selected year that is not offered is
      replaced by the latest year offered. */
  function ReviewYearAfter(reviewYears: seq<int>, reviewYear: int): (r: int)
    ensures reviewYear in reviewYears ==> r == reviewYear
    ensures |reviewYears| > 0 ==> r in reviewYears
    ensures |reviewYears| == 0 ==> r == reviewYear
    ensures reviewYear !in reviewYears && |reviewYears| > 0 ==> r == reviewYears[0]
  {
    if reviewYear !in reviewYears && |reviewYears| > 0 then reviewYears[0] else reviewYear
  }

  /** Over the offered review years, the correction always lands on an offered
      year, and an unoffered selection is replaced by the latest year of all. */
  lemma ReviewYearAfterIsLatest(currentYear: int, txs: seq<Transaction>, reviewYear: int)
    ensures var ys := ReviewYears(currentYear, txs);
            var r := ReviewYearAfter(ys, reviewYear);
            && r in ys
            && (reviewYear !in ys ==> r >= currentYear && forall i :: 0 <= i < |ys| ==> ys[i] <= r)
  {
    var ys := ReviewYears(currentYear, txs);
    ReviewYearsMembers(currentYear, txs, currentYear);
    ReviewYearsDescending(currentYear, txs);
    var k :| 0 <= k < |ys| && ys[k] == currentYear;
    assert ys[0] >= ys[k];
  }

  /* ---------------------------------------------------------------------- */
  /* Expenditure chart data                                                   */

  /** `getCategoryColor`: Savings membership wins over Needs, Needs over Wants. */
  function ColorOf(cat: string, needs: seq<string>, wants: seq<string>, savings: seq<string>): (c: string)
    ensures c == SAVINGS_COLOR <==> cat in savings
    ensures c == NEEDS_COLOR <==> cat !in savings && cat in needs
    ensures c == WANTS_COLOR <==> cat !in savings && cat !in needs && cat in wants
    ensures c == DEFAULT_COLOR <==> cat !in savings && cat !in needs && cat !in wants
  {
    if cat in savings then SAVINGS_COLOR
    else if cat in needs then NEEDS_COLOR
    else if cat in wants then WANTS_COLOR
    else DEFAULT_COLOR
  }

  /** The percentage base: the income when positive, else 1. */
  function Divisor(income: int): (d: int)
    ensures d > 0
    ensures income > 0 ==> d == income
  {
    if income > 0 then income else 1
  }

  /** One chart row per category, in category order. */
  function CategoryRows(cats: seq<string>, buckets: Amounts, income: int,
                        needs: seq<string>, wants: seq<string>, savings: seq<string>): (rows: seq<Row>)
    ensures |rows| == |cats|
    ensures forall i :: 0 <= i < |cats| ==>
      rows[i] == Row(cats[i], buckets.Get(cats[i]), PercentOf(buckets.Get(cats[i]), Divisor(income)),
                     ColorOf(cats[i], needs, wants, savings))
  {
    if |cats| == 0 then []
    else
      var cat := cats[|cats| - 1];
      CategoryRows(cats[..|cats| - 1], buckets, income, needs, wants, savings)
        + [Row(cat, buckets.Get(cat), PercentOf(buckets.Get(cat), Divisor(income)), ColorOf(cat, needs, wants, savings))]
  }

  /** The rows handed to the expenditure chart: the category rows, then "Saved". */
  function ExpenditureData(cats: seq<string>, buckets: Amounts, income: int,
                           needs: seq<string>, wants: seq<string>, savings: seq<string>): (rows: seq<Row>)
    ensures |rows| == |cats| + 1
    ensures rows[..|cats|] == CategoryRows(cats, buckets, income, needs, wants, savings)
    ensures var saved := rows[|cats|];
            && saved.name == SAVED && saved.color == SAVINGS_COLOR
            && saved.amount >= 0 && saved.amount >= income - buckets.Total()
            && (saved.amount == 0 || saved.amount == income - buckets.Total())
            && saved.percentage == PercentOf(saved.amount, Divisor(income))
  {
    var saved := Max(0, income - buckets.Total());
    CategoryRows(cats, buckets, income, needs, wants, savings)
      + [Row(SAVED, saved, PercentOf(saved, Divisor(income)), SAVINGS_COLOR)]
  }

  lemma {:induction false} CategoryRowsTotal(cats: seq<string>, buckets: Amounts, income: int,
                                             needs: seq<string>, wants: seq<string>, savings: seq<string>)
    ensures TotalAmount(CategoryRows(cats, buckets, income, needs, wants, savings)) == SumOver(cats, buckets.values)
  {
    if |cats| > 0 {
      CategoryRowsTotal(cats[..|cats| - 1], buckets, income, needs, wants, savings);
    }
  }

  /** When the rows are built over the buckets' own keys, the row amounts add
      up to the larger of the month's expenses and its income: the category
      rows carry the expenses and "Saved" carries what income is left. */
  lemma ExpenditureDataTotal(buckets: Amounts, income: int, needs: seq<string>, wants: seq<string>, savings: seq<string>)
    ensures TotalAmount(ExpenditureData(buckets.keys, buckets, income, needs, wants, savings))
            == Max(buckets.Total(), income)
  {
    var cats := buckets.keys;
    var rows := ExpenditureData(cats, buckets, income, needs, wants, savings);
    assert rows == rows[..|cats|] + [rows[|cats|]];
    TotalAmountAppend(rows[..|cats|], [rows[|cats|]]);
    CategoryRowsTotal(cats, buckets, income, needs, wants, savings);
  }

  /* ---------------------------------------------------------------------- */
  /* Application state                                                        */

  const DEFAULT_TARGETS: Amounts := Amounts(
    DEFAULT_EXPENSE_CATS,
    map["Housing" := 1500, "Food" := 600, "Utilities" := 400, "Transport" := 750,
        "Entertainment" := 250, "Healthcare" := 250, "Other" := 250])

  /** The dashboard state that category edits and transaction edits change. */
  class Budget {
    var transactions: seq<Transaction>
    var expenseCategories: seq<string>
    var needs: seq<string>
    var wants: seq<string>
    var savings: seq<string>
    var targets: Amounts

    ghost predicate Valid()
      reads this
    {
      targets.Valid()
    }

    /** The initial state: no transactions, the default categories and targets. */
    constructor ()
      ensures Valid()
      ensures transactions == [] && expenseCategories == DEFAULT_EXPENSE_CATS
      ensures needs == DEFAULT_NEEDS && wants == DEFAULT_WANTS && savings == []
      ensures targets == DEFAULT_TARGETS
    {
      transactions := [];
      expenseCategories := DEFAULT_EXPENSE_CATS;
      needs := DEFAULT_NEEDS;
      wants := DEFAULT_WANTS;
      savings := [];
      targets := DEFAULT_TARGETS;
    }

    /** `handleAddTransaction`: the server's reply is appended only when it
        carries an id (a missing or zero id is falsy). */
    method AddTransaction(created: Option<Transaction>)
      modifies this
      ensures created.Some? && created.value.id != 0 ==> transactions == old(transactions) + [created.value]
      ensures !(created.Some? && created.value.id != 0) ==> transactions == old(transactions)
      ensures expenseCategories == old(expenseCategories) && targets == old(targets)
      ensures needs == old(needs) && wants == old(wants) && savings == old(savings)
    {
      if created.Some? && created.value.id != 0 {
        transactions := transactions + [created.value];
      }
    }

    /** `handleDeleteTransaction`: every transaction with that id goes, the rest stay in order. */
    method DeleteTransaction(id: int)
      modifies this
      ensures transactions == WithoutId(old(transactions), id)
      ensures forall t :: t in transactions <==> t in old(transactions) && t.id != id
      ensures expenseCategories == old(expenseCategories) && targets == old(targets)
      ensures needs == old(needs) && wants == old(wants) && savings == old(savings)
    {
      forall t
        ensures t in WithoutId(transactions, id) <==> t in transactions && t.id != id
      {
        WithoutIdMembers(transactions, id, t);
      }
      transactions := WithoutId(transactions, id);
    }

    /** The category load: a non-empty flat list replaces the expense
        categories, and each group that was sent replaces its list. */
    method LoadCategories(categories: Option<seq<string>>, needsSent: Option<seq<string>>,
                          wantsSent: Option<seq<string>>, savingsSent: Option<seq<string>>)
      modifies this
      ensures expenseCategories == if categories.Some? && |categories.value| > 0 then categories.value else old(expenseCategories)
      ensures needs == if needsSent.Some? then needsSent.value else old(needs)
      ensures wants == if wantsSent.Some? then wantsSent.value else old(wants)
      ensures savings == if savingsSent.Some? then savingsSent.value else old(savings)
      ensures transactions == old(transactions) && targets == old(targets)
    {
      if categories.Some? && |categories.value| > 0 {
        expenseCategories := categories.value;
      }
      if needsSent.Some? {
        needs := needsSent.value;
      }
      if wantsSent.Some? {
        wants := wantsSent.value;
      }
      if savingsSent.Some? {
        savings := savingsSent.value;
      }
    }

    /** The category drawer's save: the expense categories become the union of
        the three groups, the groups are stored, and the targets are rebuilt
        over the union. */
    method SaveCategories(n: seq<string>, w: seq<string>, s: seq<string>)
      requires Valid()
      modifies this
      ensures Valid()
      ensures expenseCategories == Dedup(n + w + s)
      ensures needs == n && wants == w && savings == s
      ensures targets.keys == expenseCategories
      ensures forall k :: k in targets.values ==> targets.values[k] == old(targets).Get(k)
      ensures transactions == old(transactions)
    {
      var union := Dedup(n + w + s);
      expenseCategories := union;
      needs := n;
      wants := w;
      savings := s;
      DedupOfDistinct(union);
      targets := Reconcile(targets, union);
    }
  }
}
