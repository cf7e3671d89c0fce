/** The multi-round advisor agent: parsing the keys the model asks for,
    deriving the metrics those keys name from the request context, and the
    round bookkeeping of a run, with the model and the prompt templates left
    as parameters. */
module Agent {
  import opened Collections

  /** A context value as the JSON request delivers it. A transaction record
      keeps the year of its parsed date (`None` when the date is missing or
      does not parse), its `transaction_type` and its `amount` (0 when missing). */
  datatype Raw =
    | Null
    | Num(n: int)
    | Text(s: string)
    | Dict(keys: seq<string>, values: map<string, int>)
    | List(items: seq<Raw>)
    | Record(year: Option<int>, kind: Option<string>, amount: int)

  type Context = map<string, Raw>

  /** `dict.get`: a missing key reads as `None`. */
  function Get(ctx: Context, key: string): (v: Raw)
    ensures key !in ctx ==> v == Null
    ensures key in ctx ==> v == ctx[key]
  {
    if key in ctx then ctx[key] else Null
  }

  /** Python truthiness: `None`, 0, and empty strings, dicts and lists are false. */
  predicate Falsy(v: Raw) {
    v.Null? || (v.Num? && v.n == 0) || (v.Text? && v.s == "")
    || (v.Dict? && |v.keys| == 0) || (v.List? && |v.items| == 0)
  }

  // ---------------------------------------------------------------------
  // Requested keys
  // ---------------------------------------------------------------------

  /** `str.split(',')`: the pieces between commas; an empty string gives one empty piece. */
  function Split(s: string): (parts: seq<string>)
    ensures |parts| >= 1
    ensures forall p :: p in parts ==> ',' !in p
  {
    if |s| == 0 then [""]
    else
      var rest := Split(s[1..]);
      if s[0] == ',' then [""] + rest
      else [[s[0]] + rest[0]] + rest[1..]
  }

  /** The inverse of `Split`: the pieces with a comma between neighbours. */
  function Join(parts: seq<string>): string
    requires |parts| >= 1
  {
    if |parts| == 1 then parts[0] else parts[0] + "," + Join(parts[1..])
  }

  lemma {:induction false} JoinSplit(s: string)
    ensures Join(Split(s)) == s
  {
    if |s| > 0 {
      JoinSplit(s[1..]);
      var rest := Split(s[1..]);
      if s[0] == ',' {
        assert ([""] + rest)[1..] == rest;
      } else {
        var parts := [[s[0]] + rest[0]] + rest[1..];
        if |rest| == 1 {
          assert Join(parts) == [s[0]] + rest[0];
        } else {
          assert parts[1..] == rest[1..];
          assert Join(rest) == rest[0] + "," + Join(rest[1..]);
        }
        assert s == [s[0]] + s[1..];
      }
    }
  }

  lemma {:induction false} SplitJoin(parts: seq<string>)
    requires |parts| >= 1
    requires forall p :: p in parts ==> ',' !in p
    ensures Split(Join(parts)) == parts
  {
    if |parts| == 1 {
      SplitNoComma(parts[0]);
    } else {
      assert forall p :: p in parts[1..] ==> p in parts;
      SplitJoin(parts[1..]);
      SplitPrefix(parts[0], Join(parts[1..]));
      assert parts == [parts[0]] + parts[1..];
    }
  }

  lemma {:induction false} SplitNoComma(s: string)
    requires ',' !in s
    ensures Split(s) == [s]
  {
    if |s| > 0 {
      assert forall c :: c in s[1..] ==> c in s;
      SplitNoComma(s[1..]);
      assert s == [s[0]] + s[1..];
    }
  }

  /** A comma-free piece followed by a comma splits off as the first part. */
  lemma {:induction false} SplitPrefix(p: string, rest: string)
    requires ',' !in p
    ensures Split(p + "," + rest) == [p] + Split(rest)
  {
    if |p| == 0 {
      assert p + "," + rest == [','] + rest;
      assert (p + "," + rest)[1..] == rest;
    } else {
      assert forall c :: c in p[1..] ==> c in p;
      SplitPrefix(p[1..], rest);
      assert (p + "," + rest)[1..] == p[1..] + "," + rest;
      assert p == [p[0]] + p[1..];
    }
  }

  function UpperChar(c: char): char {
    if 'a' <= c <= 'z' then (c as int - 32) as char else c
  }

  /** `str.upper` on ASCII letters. */
  function Upper(s: string): (r: string)
    ensures |r| == |s|
    ensures forall i :: 0 <= i < |s| ==> r[i] == UpperChar(s[i])
  {
    seq(|s|, i requires 0 <= i < |s| => UpperChar(s[i]))
  }

  predicate IsUpper(s: string) {
    forall i :: 0 <= i < |s| ==> !('a' <= s[i] <= 'z')
  }

  /** Every piece stripped and upper-cased, in order: `[p.strip().upper() for p in parts]`. */
  function StripUpper(parts: seq<string>): (r: seq<string>)
    ensures |r| == |parts|
    ensures forall i :: 0 <= i < |parts| ==> r[i] == Upper(Trim(parts[i]))
  {
    seq(|parts|, i requires 0 <= i < |parts| => Upper(Trim(parts[i])))
  }

  /** The stripped, upper-cased, non-empty pieces, in order, in one pass. */
  function CleanKeys(parts: seq<string>): (keys: seq<string>)
    ensures keys == Filter(StripUpper(parts), NonEmpty)
    ensures |keys| <= |parts|
  {
    if |parts| == 0 then []
    else
      var k := Upper(Trim(parts[0]));
      assert StripUpper(parts)[1..] == StripUpper(parts[1..]);
      (if k != "" then [k] else []) + CleanKeys(parts[1..])
  }

  /** A requested key is non-empty, has no white space at either end, no
      lower-case letter and no comma. */
  predicate IsKey(k: string) {
    k != "" && IsTrimmed(k) && IsUpper(k) && ',' !in k
  }

  lemma {:induction false} CleanKeysAreKeys(parts: seq<string>)
    requires forall p :: p in parts ==> ',' !in p
    ensures forall k :: k in CleanKeys(parts) ==> IsKey(k)
  {
    if |parts| > 0 {
      assert forall p :: p in parts[1..] ==> p in parts;
      CleanKeysAreKeys(parts[1..]);
      CleanKeyIsKey(parts[0]);
      var k := Upper(Trim(parts[0]));
      var head := if k != "" then [k] else [];
      assert CleanKeys(parts) == head + CleanKeys(parts[1..]);
      assert forall x :: x in head ==> IsKey(x);
    }
  }

  /** One part without a comma cleans to a proper key or to nothing. */
  lemma CleanKeyIsKey(part: string)
    requires ',' !in part
    ensures Upper(Trim(part)) != "" ==> IsKey(Upper(Trim(part)))
  {
    var t := Trim(part);
    var k := Upper(t);
    assert forall c :: c in t ==> c in part by {
      TrimIsInfix(part);
    }
    assert ',' !in k by {
      forall i | 0 <= i < |k| ensures k[i] != ',' {
        assert t[i] in t;
      }
    }
  }

  /** The trimmed string is a piece of the input. */
  lemma TrimIsInfix(s: string)
    ensures forall c :: c in Trim(s) ==> c in s
  {
    var r := Trim(s);
    var i := LeadingSpace(s);
    forall c | c in r
      ensures c in s
    {
      var k :| 0 <= k < |r| && r[k] == c;
      assert s[i + k] == c;
    }
  }

  /** `_parse_requested_info`. */
  function ParseRequestedInfo(response: string): (keys: seq<string>)
    ensures response == "" ==> keys == []
    ensures response != "" ==> keys == Filter(StripUpper(Split(response)), NonEmpty)
  {
    if response == "" then [] else CleanKeys(Split(response))
  }

  /** Every parsed key is a proper key. */
  lemma ParsedAreKeys(response: string)
    ensures forall k :: k in ParseRequestedInfo(response) ==> IsKey(k)
  {
    if response != "" {
      CleanKeysAreKeys(Split(response));
    }
  }

  /** Keys written out with commas between them are parsed back unchanged. */
  lemma ParseRoundTrip(keys: seq<string>)
    requires |keys| >= 1
    requires forall k :: k in keys ==> IsKey(k)
    ensures ParseRequestedInfo(Join(keys)) == keys
  {
    var text := Join(keys);
    SplitJoin(keys);
    JoinStartsWith(keys);
    assert keys[0] in keys;
    assert |text| > 0;
    CleanKeysOfKeys(keys);
    assert ParseRequestedInfo(text) == CleanKeys(Split(text));
  }

  lemma {:induction false} JoinStartsWith(parts: seq<string>)
    requires |parts| >= 1
    ensures |Join(parts)| >= |parts[0]|
  {
  }

  lemma CleanKeysOfKeys(keys: seq<string>)
    requires forall k :: k in keys ==> IsKey(k)
    ensures CleanKeys(keys) == keys
  {
    forall i | 0 <= i < |keys|
      ensures StripUpper(keys)[i] == keys[i] && NonEmpty(keys[i])
    {
      assert IsKey(keys[i]);
      TrimOfTrimmed(keys[i]);
    }
    assert StripUpper(keys) == keys;
    FilterKeepsAll(keys, NonEmpty);
  }

  // ---------------------------------------------------------------------
  // Metrics
  // ---------------------------------------------------------------------

  /** The metrics `_derive_metrics` can report. */
  datatype Metric =
    | CurrentIncome | ProjectedIncome | ExpensesThisMonth | SavingsThisMonth
    | YtdIncome | YtdExpenses | DbUsers | DbTransactions | DbUserConfigs

  /** The key a metric is reported under. */
  function Name(m: Metric): string {
    match m
    case CurrentIncome => "CURRENTMONTHINCOME"
    case ProjectedIncome => "PROJECTEDINCOME"
    case ExpensesThisMonth => "EXPENSESTHISMONTH"
    case SavingsThisMonth => "SAVINGSTHISMONTH"
    case YtdIncome => "YTDINCOME"
    case YtdExpenses => "YTDEXPENSES"
    case DbUsers => "DB_USERS"
    case DbTransactions => "DB_TRANSACTIONS"
    case DbUserConfigs => "DB_USER_CONFIGS"
  }

  /** The metric reported under a key, if any. */
  function Named(key: string): (m: Option<Metric>)
    ensures m.Some? ==> Name(m.value) == key
  {
    if key == "CURRENTMONTHINCOME" then Some(CurrentIncome)
    else if key == "PROJECTEDINCOME" then Some(ProjectedIncome)
    else if key == "EXPENSESTHISMONTH" then Some(ExpensesThisMonth)
    else if key == "SAVINGSTHISMONTH" then Some(SavingsThisMonth)
    else if key == "YTDINCOME" then Some(YtdIncome)
    else if key == "YTDEXPENSES" then Some(YtdExpenses)
    else if key == "DB_USERS" then Some(DbUsers)
    else if key == "DB_TRANSACTIONS" then Some(DbTransactions)
    else if key == "DB_USER_CONFIGS" then Some(DbUserConfigs)
    else None
  }

  /** Every metric is found again under its own key, so no two share one. */
  lemma NamedName(m: Metric)
    ensures Named(Name(m)) == Some(m)
  {
    match m {
      case CurrentIncome =>
      case ProjectedIncome =>
        assert Name(m)[0] != "CURRENTMONTHINCOME"[0];
      case ExpensesThisMonth =>
        assert Name(m)[0] != "CURRENTMONTHINCOME"[0] && Name(m)[0] != "PROJECTEDINCOME"[0];
      case SavingsThisMonth =>
        assert Name(m)[0] != "CURRENTMONTHINCOME"[0] && Name(m)[0] != "PROJECTEDINCOME"[0]
          && Name(m)[0] != "EXPENSESTHISMONTH"[0];
      case YtdIncome =>
        assert Name(m)[0] != "CURRENTMONTHINCOME"[0] && Name(m)[0] != "PROJECTEDINCOME"[0]
          && Name(m)[0] != "EXPENSESTHISMONTH"[0] && Name(m)[0] != "SAVINGSTHISMONTH"[0];
      case YtdExpenses =>
        assert Name(m)[0] != "CURRENTMONTHINCOME"[0] && Name(m)[0] != "PROJECTEDINCOME"[0]
          && Name(m)[0] != "EXPENSESTHISMONTH"[0] && Name(m)[0] != "SAVINGSTHISMONTH"[0]
          && Name(m)[3] != "YTDINCOME"[3];
      case DbUsers =>
        assert Name(m)[0] != "CURRENTMONTHINCOME"[0] && Name(m)[0] != "PROJECTEDINCOME"[0]
          && Name(m)[0] != "EXPENSESTHISMONTH"[0] && Name(m)[0] != "SAVINGSTHISMONTH"[0]
          && Name(m)[0] != "YTDINCOME"[0] && Name(m)[0] != "YTDEXPENSES"[0];
      case DbTransactions =>
        assert Name(m)[0] != "CURRENTMONTHINCOME"[0] && Name(m)[0] != "PROJECTEDINCOME"[0]
          && Name(m)[0] != "EXPENSESTHISMONTH"[0] && Name(m)[0] != "SAVINGSTHISMONTH"[0]
          && Name(m)[0] != "YTDINCOME"[0] && Name(m)[0] != "YTDEXPENSES"[0]
          && Name(m)[3] != "DB_USERS"[3];
      case DbUserConfigs =>
        assert Name(m)[0] != "CURRENTMONTHINCOME"[0] && Name(m)[0] != "PROJECTEDINCOME"[0]
          && Name(m)[0] != "EXPENSESTHISMONTH"[0] && Name(m)[0] != "SAVINGSTHISMONTH"[0]
          && Name(m)[0] != "YTDINCOME"[0] && Name(m)[0] != "YTDEXPENSES"[0]
          && Name(m)[3] != "DB_TRANSACTIONS"[3] && |Name(m)| != |"DB_USERS"|;
    }
  }

  /** `sum(expensesByCategory.values())` after `or {}`: a false value sums to 0,
      a dict to its values, anything else gives no total. */
  function ExpenseTotal(ctx: Context): (t: Option<int>)
    ensures Falsy(Get(ctx, "expensesByCategory")) ==> t == Some(0)
    ensures t.None? <==> !Falsy(Get(ctx, "expensesByCategory")) && !Get(ctx, "expensesByCategory").Dict?
  {
    var e := Get(ctx, "expensesByCategory");
    if Falsy(e) then Some(0)
    else if e.Dict? then Some(SumOver(e.keys, e.values))
    else None
  }

  /** The transaction list after `or []`; anything but a list gives none. */
  function TransactionItems(ctx: Context): seq<Raw> {
    var t := Get(ctx, "transactions");
    if t.List? then t.items else []
  }

  /** Whether year-to-date figures are computed from the transactions: one
      of them is not supplied and the list is non-empty. */
  predicate ComputesYtd(ctx: Context) {
    (Get(ctx, "ytdIncome").Null? || Get(ctx, "ytdExpenses").Null?) && |TransactionItems(ctx)| > 0
  }

  /** Whether this item counts toward the year's total of the kind. */
  predicate Counts(item: Raw, year: int, kind: string) {
    item.Record? && item.year == Some(year) && item.kind == Some(kind)
  }

  /** The amounts of the records of the kind dated in the year; other items,
      other years and unparseable dates add nothing. */
  function YtdTotal(items: seq<Raw>, year: int, kind: string): int {
    if |items| == 0 then 0
    else
      var t := items[|items| - 1];
      YtdTotal(items[..|items| - 1], year, kind) + (if Counts(t, year, kind) then t.amount else 0)
  }

  lemma {:induction false} YtdTotalAppend(a: seq<Raw>, b: seq<Raw>, year: int, kind: string)
    ensures YtdTotal(a + b, year, kind) == YtdTotal(a, year, kind) + YtdTotal(b, year, kind)
  {
    if |b| == 0 {
      assert a + b == a;
    } else {
      assert (a + b)[..|a + b| - 1] == a + b[..|b| - 1];
      YtdTotalAppend(a, b[..|b| - 1], year, kind);
    }
  }

  /** Items dated in another year, with no parseable date, or that are not
      records leave the year-to-date totals unchanged. */
  lemma YtdIgnoresOtherItems(items: seq<Raw>, extra: Raw, year: int, kind: string)
    requires !extra.Record? || extra.year != Some(year)
    ensures YtdTotal(items + [extra], year, kind) == YtdTotal(items, year, kind)
  {
    assert (items + [extra])[..|items|] == items;
  }

  /** Python raises a `TypeError` when a non-numeric income meets an expense total. */
  predicate MetricsFail(ctx: Context) {
    var income := Get(ctx, "currentMonthIncomeToDate");
    !income.Null? && !income.Num? && ExpenseTotal(ctx).Some?
  }

  /** The value of one metric, or `None` when the metric is not set. */
  function MetricFor(ctx: Context, year: int, key: Metric): Option<Raw> {
    var income := Get(ctx, "currentMonthIncomeToDate");
    var total := ExpenseTotal(ctx);
    match key
    case CurrentIncome => if !income.Null? then Some(income) else None
    case ProjectedIncome =>
      var projected := Get(ctx, "projectedIncome");
      if !projected.Null? then Some(projected) else None
    case ExpensesThisMonth => if total.Some? then Some(Num(total.value)) else None
    case SavingsThisMonth => if income.Num? && total.Some? then Some(Num(income.n - total.value)) else None
    case YtdIncome =>
      var given := Get(ctx, "ytdIncome");
      if !given.Null? then Some(given)
      else if ComputesYtd(ctx) then Some(Num(YtdTotal(TransactionItems(ctx), year, "income")))
      else None
    case YtdExpenses =>
      var given := Get(ctx, "ytdExpenses");
      if !given.Null? then Some(given)
      else if ComputesYtd(ctx) then Some(Num(YtdTotal(TransactionItems(ctx), year, "expense")))
      else None
    case DbUsers => if "db_users" in ctx then Some(ctx["db_users"]) else None
    case DbTransactions => if "db_transactions" in ctx then Some(ctx["db_transactions"]) else None
    case DbUserConfigs => if "db_user_configs" in ctx then Some(ctx["db_user_configs"]) else None
  }

  /** The metrics `_derive_metrics` returns for the current year `year`, key
      by key; `None` when it raises. */
  function Metrics(ctx: Context, year: int): (r: Option<map<Metric, Raw>>)
    ensures r.None? <==> MetricsFail(ctx)
    ensures r.Some? ==> forall k :: k in r.value <==> MetricFor(ctx, year, k).Some?
    ensures r.Some? ==> forall k :: k in r.value ==> r.value[k] == MetricFor(ctx, year, k).value
  {
    if MetricsFail(ctx) then None
    else Some(map k: Metric | MetricFor(ctx, year, k).Some? :: MetricFor(ctx, year, k).value)
  }

  /** Savings this month are reported exactly when the income is given and the
      expenses have a total, as their difference; a missing or empty expense
      map counts as no expenses. */
  lemma SavingsThisMonthPresence(ctx: Context, year: int)
    requires Metrics(ctx, year).Some?
    ensures var m := Metrics(ctx, year).value;
      && (SavingsThisMonth in m <==> !Get(ctx, "currentMonthIncomeToDate").Null? && ExpenseTotal(ctx).Some?)
      && (SavingsThisMonth in m ==> m[SavingsThisMonth] == Num(Get(ctx, "currentMonthIncomeToDate").n - ExpenseTotal(ctx).value))
      && (Falsy(Get(ctx, "expensesByCategory")) && Get(ctx, "currentMonthIncomeToDate").Num? ==>
            m[SavingsThisMonth] == Get(ctx, "currentMonthIncomeToDate"))
  {
  }

  /** A supplied year-to-date figure is reported as given; otherwise the figure
      is computed from the current year's transactions when there are any. */
  lemma YtdPrecedence(ctx: Context, year: int)
    requires Metrics(ctx, year).Some?
    ensures var m := Metrics(ctx, year).value;
      && (!Get(ctx, "ytdIncome").Null? ==> YtdIncome in m && m[YtdIncome] == Get(ctx, "ytdIncome"))
      && (!Get(ctx, "ytdExpenses").Null? ==> YtdExpenses in m && m[YtdExpenses] == Get(ctx, "ytdExpenses"))
      && (Get(ctx, "ytdIncome").Null? ==>
            (YtdIncome in m <==> |TransactionItems(ctx)| > 0)
            && (YtdIncome in m ==> m[YtdIncome] == Num(YtdTotal(TransactionItems(ctx), year, "income"))))
      && (Get(ctx, "ytdExpenses").Null? ==>
            (YtdExpenses in m <==> |TransactionItems(ctx)| > 0)
            && (YtdExpenses in m ==> m[YtdExpenses] == Num(YtdTotal(TransactionItems(ctx), year, "expense"))))
  {
  }

  /** The database entries are copied through exactly when the context has them. */
  lemma DatabasePassthrough(ctx: Context, year: int)
    requires Metrics(ctx, year).Some?
    ensures var m := Metrics(ctx, year).value;
      && (DbUsers in m <==> "db_users" in ctx) && (DbUsers in m ==> m[DbUsers] == ctx["db_users"])
      && (DbTransactions in m <==> "db_transactions" in ctx)
      && (DbTransactions in m ==> m[DbTransactions] == ctx["db_transactions"])
      && (DbUserConfigs in m <==> "db_user_configs" in ctx)
      && (DbUserConfigs in m ==> m[DbUserConfigs] == ctx["db_user_configs"])
  {
  }

  /** Metric `k` is set in `metrics` exactly when `want` holds a value, and to that value. */
  ghost predicate Holds(metrics: map<Metric, Raw>, k: Metric, want: Option<Raw>) {
    (k in metrics <==> want.Some?) && (k in metrics ==> metrics[k] == want.value)
  }

  /** The section of `_derive_metrics` that sets a metric: 1 for the month
      figures, 2 for the year-to-date figures, 3 for the database entries. */
  function Section(k: Metric): nat {
    match k
    case CurrentIncome | ProjectedIncome | ExpensesThisMonth | SavingsThisMonth => 1
    case YtdIncome | YtdExpenses => 2
    case DbUsers | DbTransactions | DbUserConfigs => 3
  }

  /** The metrics of the first `done` sections are set in `metrics` as
      `MetricFor` says, and no other metric is set. */
  ghost predicate Agrees(metrics: map<Metric, Raw>, ctx: Context, year: int, done: nat) {
    && (forall k :: Section(k) <= done ==> Holds(metrics, k, MetricFor(ctx, year, k)))
    && (forall k :: k in metrics ==> Section(k) <= done)
  }

  /** The month figures of `_derive_metrics`: the income, the projected
      income, the expense total and the savings; `None` when the savings
      subtraction raises. */
  method MonthMetrics(ctx: Context, year: int) returns (r: Option<map<Metric, Raw>>)
    ensures r.None? <==> MetricsFail(ctx)
    ensures r.Some? ==> Agrees(r.value, ctx, year, 1)
  {
    var metrics: map<Metric, Raw> := map[];
    var income := Get(ctx, "currentMonthIncomeToDate");
    var projected := Get(ctx, "projectedIncome");
    var total := ExpenseTotal(ctx);
    if !income.Null? {
      metrics := metrics[CurrentIncome := income];
    }
    if !projected.Null? {
      metrics := metrics[ProjectedIncome := projected];
    }
    if total.Some? {
      metrics := metrics[ExpensesThisMonth := Num(total.value)];
    }
    if !income.Null? && total.Some? {
      if !income.Num? {
        return None;
      }
      metrics := metrics[SavingsThisMonth := Num(income.n - total.value)];
    }
    r := Some(metrics);
  }

  /** The year-to-date figures of `_derive_metrics`: supplied ones as given,
      the others summed over the current year's transactions in one pass. */
  method AddYtdMetrics(metrics: map<Metric, Raw>, ctx: Context, year: int) returns (r: map<Metric, Raw>)
    requires Agrees(metrics, ctx, year, 1)
    ensures Agrees(r, ctx, year, 2)
  {
    r := metrics;
    var items := TransactionItems(ctx);
    var ytdIncome := Get(ctx, "ytdIncome");
    var ytdExpenses := Get(ctx, "ytdExpenses");
    if !ytdIncome.Null? {
      r := r[YtdIncome := ytdIncome];
    }
    if !ytdExpenses.Null? {
      r := r[YtdExpenses := ytdExpenses];
    }
    if (ytdIncome.Null? || ytdExpenses.Null?) && |items| > 0 {
      var incomeCalc, expensesCalc := 0, 0;
      var i := 0;
      while i < |items|
        invariant 0 <= i <= |items|
        invariant incomeCalc == YtdTotal(items[..i], year, "income")
        invariant expensesCalc == YtdTotal(items[..i], year, "expense")
      {
        var t := items[i];
        assert items[..i + 1][..i] == items[..i];
        assert "income" != "expense" by {
          assert "income"[0] != "expense"[0];
        }
        if t.Record? && t.year == Some(year) {
          if t.kind == Some("income") {
            incomeCalc := incomeCalc + t.amount;
          } else if t.kind == Some("expense") {
            expensesCalc := expensesCalc + t.amount;
          }
        }
        i := i + 1;
      }
      assert items[..|items|] == items;
      if ytdIncome.Null? {
        r := r[YtdIncome := Num(incomeCalc)];
      }
      if ytdExpenses.Null? {
        r := r[YtdExpenses := Num(expensesCalc)];
      }
    }
  }

  /** The database entries of `_derive_metrics`, copied when the context has them. */
  method AddDatabaseMetrics(metrics: map<Metric, Raw>, ctx: Context, year: int) returns (r: map<Metric, Raw>)
    requires Agrees(metrics, ctx, year, 2)
    ensures Agrees(r, ctx, year, 3)
  {
    r := metrics;
    if "db_users" in ctx {
      r := r[DbUsers := ctx["db_users"]];
    }
    if "db_transactions" in ctx {
      r := r[DbTransactions := ctx["db_transactions"]];
    }
    if "db_user_configs" in ctx {
      r := r[DbUserConfigs := ctx["db_user_configs"]];
    }
  }

  /** `_derive_metrics`: the month figures, then the year-to-date figures,
      then the database entries. */
  method DeriveMetrics(ctx: Context, year: int) returns (r: Option<map<Metric, Raw>>)
    ensures r == Metrics(ctx, year)
  {
    var month := MonthMetrics(ctx, year);
    if month.None? {
      return None;
    }
    var withYtd := AddYtdMetrics(month.value, ctx, year);
    var metrics := AddDatabaseMetrics(withYtd, ctx, year);
    MetricsFromParts(metrics, ctx, year);
    r := Some(metrics);
  }

  /** A map agreeing with `MetricFor` on every metric is the metrics map. */
  lemma MetricsFromParts(metrics: map<Metric, Raw>, ctx: Context, year: int)
    requires !MetricsFail(ctx)
    requires Agrees(metrics, ctx, year, 3)
    ensures Metrics(ctx, year) == Some(metrics)
  {
    var m := Metrics(ctx, year).value;
    assert forall k :: Section(k) <= 3;
    assert forall k :: k in metrics <==> k in m;
    assert forall k :: k in metrics ==> metrics[k] == m[k];
    assert m == metrics;
  }

  /** The value of the metric a requested key names, if it is reported. */
  function Wanted(m: map<Metric, Raw>, key: string): (v: Option<Raw>)
    ensures v.Some? <==> Named(key).Some? && Named(key).value in m
    ensures v.Some? ==> v.value == m[Named(key).value]
  {
    match Named(key)
    case None => None
    case Some(metric) => if metric in m then Some(m[metric]) else None
  }

  /** `out` holds exactly the keys of `keys` that name a metric of `m`, with its value. */
  ghost predicate Copied(out: map<string, Raw>, keys: seq<string>, m: map<Metric, Raw>) {
    forall k :: (k in out <==> k in keys && Wanted(m, k).Some?) && (k in out ==> out[k] == Wanted(m, k).value)
  }

  /** `_build_requested_context`: the requested keys that name a reported
      metric, with its value; an empty request gives an empty map without
      deriving the metrics, so it cannot raise. */
  function RequestedContext(requested: seq<string>, ctx: Context, year: int): (r: Option<map<string, Raw>>)
    ensures |requested| == 0 ==> r == Some(map[])
    ensures r.None? <==> |requested| > 0 && MetricsFail(ctx)
    ensures r.Some? && |requested| > 0 ==> Copied(r.value, requested, Metrics(ctx, year).value)
  {
    if |requested| == 0 then Some(map[])
    else
      match Metrics(ctx, year)
      case None => None
      case Some(m) => Some(map k | k in requested && Wanted(m, k).Some? :: Wanted(m, k).value)
  }

  /** The requested context holds exactly the requested keys that name a
      reported metric, under their own names, with the metric's value. */
  lemma RequestedContextKeys(requested: seq<string>, ctx: Context, year: int)
    requires |requested| > 0 && !MetricsFail(ctx)
    ensures var r := RequestedContext(requested, ctx, year).value;
      var m := Metrics(ctx, year).value;
      forall k :: (k in r <==> k in requested && Named(k).Some? && Named(k).value in m)
                  && (k in r ==> Name(Named(k).value) == k && r[k] == m[Named(k).value])
  {
  }

  lemma CopiedAll(out: map<string, Raw>, requested: seq<string>, ctx: Context, year: int, m: map<Metric, Raw>)
    requires |requested| > 0 && Metrics(ctx, year) == Some(m)
    requires Copied(out, requested, m)
    ensures RequestedContext(requested, ctx, year) == Some(out)
  {
    var r := RequestedContext(requested, ctx, year).value;
    assert forall k :: k in out <==> k in r;
    assert r == out;
  }

  /** Copying one more key keeps `out` in step with the keys seen so far. */
  lemma CopiedStep(out: map<string, Raw>, keys: seq<string>, key: string, m: map<Metric, Raw>)
    requires Copied(out, keys, m)
    ensures Wanted(m, key).Some? ==> Copied(out[key := Wanted(m, key).value], keys + [key], m)
    ensures Wanted(m, key).None? ==> Copied(out, keys + [key], m)
  {
  }

  /** `_build_requested_context`, copying the requested metrics one key at a time. */
  method BuildRequestedContext(requested: seq<string>, ctx: Context, year: int) returns (r: Option<map<string, Raw>>)
    ensures r == RequestedContext(requested, ctx, year)
  {
    if |requested| == 0 {
      return Some(map[]);
    }
    var metrics := DeriveMetrics(ctx, year);
    if metrics.None? {
      return None;
    }
    var m := metrics.value;
    var out: map<string, Raw> := map[];
    var i := 0;
    while i < |requested|
      invariant 0 <= i <= |requested|
      invariant Copied(out, requested[..i], m)
    {
      var key := requested[i];
      assert requested[..i + 1] == requested[..i] + [key];
      CopiedStep(out, requested[..i], key, m);
      var metric := Named(key);
      if metric.Some? && metric.value in m {
        out := out[key := m[metric.value]];
      }
      i := i + 1;
    }
    assert requested[..|requested|] == requested;
    CopiedAll(out, requested, ctx, year, m);
    r := Some(out);
  }

  // ---------------------------------------------------------------------
  // Rounds
  // ---------------------------------------------------------------------

  /** One round: its 1-based index, the prompt sent and the model's response. */
  datatype Step = Step(roundIndex: nat, prompt: string, response: string)

  datatype AgentResult = AgentResult(answer: string, steps: seq<Step>)

  /** The requested keys as the `REQUESTED_INFO` context entry. */
  function InfoValue(keys: seq<string>): (v: Raw)
    ensures v.List? && |v.items| == |keys|
    ensures forall i :: 0 <= i < |keys| ==> v.items[i] == Text(keys[i])
  {
    List(seq(|keys|, i requires 0 <= i < |keys| => Text(keys[i])))
  }

  /** The context for the rounds after the first: the original one, the
      parsed request under `REQUESTED_INFO`, and the requested metrics, later
      entries overriding earlier ones; `None` when deriving the metrics raises. */
  function ContextAfterFirst(ctx: Context, firstResponse: string, year: int): Option<Context> {
    var info := ParseRequestedInfo(firstResponse);
    match RequestedContext(info, ctx, year)
    case None => None
    case Some(extra) => Some(ctx + map["REQUESTED_INFO" := InfoValue(info)] + extra)
  }

  /** The later rounds see every key of the original context, the parsed
      request, and every requested metric; the first round fails exactly when
      a non-empty request meets a context whose metrics cannot be derived. */
  lemma ContextAfterFirstKeys(ctx: Context, firstResponse: string, year: int)
    ensures var info := ParseRequestedInfo(firstResponse);
            ContextAfterFirst(ctx, firstResponse, year).None? <==> |info| > 0 && MetricsFail(ctx)
    ensures var r := ContextAfterFirst(ctx, firstResponse, year);
            r.Some? ==>
              && "REQUESTED_INFO" in r.value
              && (forall k :: k in ctx ==> k in r.value)
    ensures var r := ContextAfterFirst(ctx, firstResponse, year);
            r.Some? && Metrics(ctx, year).Some? ==>
              forall k :: k in ParseRequestedInfo(firstResponse) && Named(k).Some? && Named(k).value in Metrics(ctx, year).value
                ==> k in r.value && r.value[k] == Metrics(ctx, year).value[Named(k).value]
  {
    var info := ParseRequestedInfo(firstResponse);
    if |info| > 0 && !MetricsFail(ctx) {
      RequestedContextKeys(info, ctx, year);
    }
  }

  /** The context update after the first round: the response is parsed for
      requested keys, which are stored with the metrics they name. */
  method FirstRoundContext(ctx: Context, response: string, year: int) returns (r: Option<Context>)
    ensures r == ContextAfterFirst(ctx, response, year)
  {
    var info := ParseRequestedInfo(response);
    var extra := BuildRequestedContext(info, ctx, year);
    if extra.None? {
      return None;
    }
    r := Some(ctx + map["REQUESTED_INFO" := InfoValue(info)] + extra.value);
  }

  /** Rounds 2 to `|steps|` each refine the previous response and ask the model in `context`. */
  ghost predicate LaterRounds(steps: seq<Step>, question: string, context: Context,
                              model: (string, Context) -> string,
                              refinePrompt: (string, string, Context, nat) -> string) {
    forall j :: 1 <= j < |steps| ==>
      steps[j].prompt == refinePrompt(question, steps[j - 1].response, context, j)
      && steps[j].response == model(steps[j].prompt, context)
  }

  lemma LaterRoundsStep(steps: seq<Step>, step: Step, question: string, context: Context,
                         model: (string, Context) -> string,
                         refinePrompt: (string, string, Context, nat) -> string)
    requires LaterRounds(steps, question, context, model, refinePrompt)
    requires |steps| > 0 ==>
      step.prompt == refinePrompt(question, steps[|steps| - 1].response, context, |steps|)
      && step.response == model(step.prompt, context)
    ensures LaterRounds(steps + [step], question, context, model, refinePrompt)
  {
    var s := steps + [step];
    forall j | 1 <= j < |s|
      ensures s[j].prompt == refinePrompt(question, s[j - 1].response, context, j)
      ensures s[j].response == model(s[j].prompt, context)
    {
      if j < |steps| {
        assert s[j] == steps[j] && s[j - 1] == steps[j - 1];
      }
    }
  }

  /** `run`: `maxRounds` rounds, each sending the current prompt and context to
      the model; the first response alone is parsed for requested keys, and
      each later prompt refines the previous answer. */
  method Run(question: string, ctx: Context, maxRounds: nat, year: int,
             model: (string, Context) -> string,
             initialPrompt: (string, Context) -> string,
             refinePrompt: (string, string, Context, nat) -> string)
    returns (r: Option<AgentResult>)
    ensures r.None? <==> (maxRounds > 0
      && ContextAfterFirst(ctx, model(initialPrompt(question, ctx), ctx), year).None?)
    ensures r.Some? ==> |r.value.steps| == maxRounds
    ensures r.Some? ==> forall i :: 0 <= i < maxRounds ==> r.value.steps[i].roundIndex == i + 1
    ensures r.Some? ==> r.value.answer == if maxRounds == 0 then "" else r.value.steps[maxRounds - 1].response
    ensures r.Some? && maxRounds > 0 ==>
      r.value.steps[0].prompt == initialPrompt(question, ctx)
      && r.value.steps[0].response == model(r.value.steps[0].prompt, ctx)
    ensures r.Some? && maxRounds > 0 ==>
      var later := ContextAfterFirst(ctx, r.value.steps[0].response, year);
      && later.Some?
      && LaterRounds(r.value.steps, question, later.value, model, refinePrompt)
  {
    var context := ctx;
    var steps: seq<Step> := [];
    var currentPrompt := initialPrompt(question, ctx);
    var answer := "";
    var i := 0;
    while i < maxRounds
      invariant 0 <= i <= maxRounds
      invariant |steps| == i
      invariant forall j :: 0 <= j < i ==> steps[j].roundIndex == j + 1
      invariant answer == if i == 0 then "" else steps[i - 1].response
      invariant i == 0 ==> context == ctx && currentPrompt == initialPrompt(question, ctx)
      invariant i > 0 ==> steps[0].prompt == initialPrompt(question, ctx) && steps[0].response == model(steps[0].prompt, ctx)
      invariant i > 0 ==> ContextAfterFirst(ctx, steps[0].response, year) == Some(context)
      invariant i > 0 ==> currentPrompt == refinePrompt(question, answer, context, i)
      invariant LaterRounds(steps, question, context, model, refinePrompt)
    {
      var response := model(currentPrompt, context);
      LaterRoundsStep(steps, Step(i + 1, currentPrompt, response), question, context, model, refinePrompt);
      steps := steps + [Step(i + 1, currentPrompt, response)];
      answer := response;
      if i == 0 {
        var next := FirstRoundContext(context, response, year);
        if next.None? {
          return None;
        }
        context := next.value;
      }
      currentPrompt := refinePrompt(question, answer, context, i + 1);
      i := i + 1;
    }
    r := Some(AgentResult(answer, steps));
  }
}
