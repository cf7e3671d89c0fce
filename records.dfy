/** The plain data records every component shares: transactions as the server
    serialises them, key-ordered amount maps, and chart rows. */
module Records {
  import opened Collections

  /** A month as JavaScript's `Date.prototype.getMonth` numbers it: 0 is January. */
  type MonthIndex = m: int | 0 <= m < 12

  /** The calendar fields of a parsed transaction date. */
  datatype Date = Date(year: int, month: MonthIndex)

  /** A transaction record. `kind` is the stored `transaction_type` string, the
      amount is in cents, and `date` is `None` when the stored date does not parse
      (such a transaction falls in no month and no year). */
  datatype Transaction = Transaction(
    id: int,
    kind: string,
    category: Option<string>,
    amount: int,
    date: Option<Date>)

  const INCOME: string := "income"
  const EXPENSE: string := "expense"
  const OTHER: string := "Other"
  const SAVED: string := "Saved"

  predicate IsIncome(t: Transaction) {
    t.kind == INCOME
  }

  predicate IsExpense(t: Transaction) {
    t.kind == EXPENSE
  }

  /** Sum of the amounts of the transactions of the given kind. */
  function KindTotal(txs: seq<Transaction>, kind: string): int {
    if |txs| == 0 then 0
    else KindTotal(txs[..|txs| - 1], kind) + (if txs[|txs| - 1].kind == kind then txs[|txs| - 1].amount else 0)
  }

  lemma KindTotalSnoc(txs: seq<Transaction>, t: Transaction, kind: string)
    ensures KindTotal(txs + [t], kind) == KindTotal(txs, kind) + (if t.kind == kind then t.amount else 0)
  {
    assert (txs + [t])[..|txs|] == txs;
  }

  lemma {:induction false} KindTotalAppend(a: seq<Transaction>, b: seq<Transaction>, kind: string)
    ensures KindTotal(a + b, kind) == KindTotal(a, kind) + KindTotal(b, kind)
  {
    if |b| == 0 {
      assert a + b == a;
    } else {
      assert (a + b)[..|a + b| - 1] == a + b[..|b| - 1];
      KindTotalAppend(a, b[..|b| - 1], kind);
    }
  }

  /** Sum of the amounts, first to last (`reduce((s, t) => s + t.amount, 0)`). */
  function AmountSum(txs: seq<Transaction>): int {
    if |txs| == 0 then 0 else AmountSum(txs[..|txs| - 1]) + txs[|txs| - 1].amount
  }

  /** Summing the income transactions picked out by a filter gives the income
      total of the list. */
  lemma {:induction false} IncomeSumIsKindTotal(txs: seq<Transaction>)
    ensures AmountSum(Filter(txs, IsIncome)) == KindTotal(txs, INCOME)
  {
    if |txs| > 0 {
      var init, last := txs[..|txs| - 1], txs[|txs| - 1];
      assert txs == init + [last];
      FilterAppend(init, [last], IsIncome);
      assert [last][1..] == [];
      var kept := Filter(init, IsIncome);
      IncomeSumIsKindTotal(init);
      if IsIncome(last) {
        assert Filter(txs, IsIncome) == kept + [last];
        assert (kept + [last])[..|kept|] == kept;
      } else {
        assert Filter(txs, IsIncome) == kept + [];
        assert kept + [] == kept;
      }
    }
  }

  /** The transaction is dated in that year and month. */
  predicate InMonth(t: Transaction, year: int, month: MonthIndex) {
    t.date == Some(Date(year, month))
  }

  /** `monthTx`: the transactions dated in the selected year and month, in input order. */
  function MonthTransactions(txs: seq<Transaction>, year: int, month: MonthIndex): (r: seq<Transaction>)
    ensures forall i :: 0 <= i < |r| ==> InMonth(r[i], year, month)
  {
    if |txs| == 0 then []
    else
      var t := txs[|txs| - 1];
      MonthTransactions(txs[..|txs| - 1], year, month) + (if InMonth(t, year, month) then [t] else [])
  }

  /** A transaction is in `monthTx` exactly when it is in the input and dated in
      the selected month; an undated transaction is in no month. */
  lemma {:induction false} MonthTransactionsSelect(txs: seq<Transaction>, year: int, month: MonthIndex, t: Transaction)
    ensures t in MonthTransactions(txs, year, month) <==> t in txs && InMonth(t, year, month)
    ensures t.date.None? ==> t !in MonthTransactions(txs, year, month)
  {
    if |txs| > 0 {
      MonthTransactionsSelect(txs[..|txs| - 1], year, month, t);
      assert txs == txs[..|txs| - 1] + [txs[|txs| - 1]];
    }
  }

  /** A JavaScript object from category names to amounts: `keys` is its key
      insertion order (the order of `Object.keys`, `Object.values` and
      `Object.entries`), `values` its contents. */
  datatype Amounts = Amounts(keys: seq<string>, values: map<string, int>) {

    ghost predicate Valid() {
      Distinct(keys) && forall k :: k in values <==> k in keys
    }

    /** `obj[k] || 0` */
    function Get(k: string): int {
      Lookup(values, k)
    }

    /** `Object.values(obj).reduce((s, v) => s + v, 0)` */
    function Total(): int {
      SumOver(keys, values)
    }

    /** `{ ...obj, [k]: v }`: a new key goes last, an existing one keeps its place. */
    function Put(k: string, v: int): (r: Amounts)
      requires Valid()
      ensures r.Valid()
      ensures r.values == values[k := v]
      ensures r.keys == if k in values then keys else keys + [k]
    {
      Amounts(if k in values then keys else keys + [k], values[k := v])
    }
  }

  const EMPTY: Amounts := Amounts([], map[])

  /** Setting one key moves the total by the difference between the new and the old amount. */
  lemma PutTotal(a: Amounts, k: string, v: int)
    requires a.Valid()
    ensures a.Put(k, v).Total() == a.Total() - a.Get(k) + v
  {
    var m := a.values[k := v];
    if k in a.values {
      assert m == a.values[k := a.values[k] + (v - a.values[k])];
      SumOverUpdate(a.keys, a.values, k, v - a.values[k]);
    } else {
      SumOverAppend(a.keys, [k], m);
      SumOverAgree(a.keys, a.values, m);
      assert [k][..0] == [];
    }
  }

  /** One bar of a chart: a name (the label shown), an amount in cents, a percentage and a colour. */
  datatype Row = Row(name: string, amount: int, percentage: real, color: string)

  /** Sum of the row amounts. */
  function TotalAmount(rows: seq<Row>): int {
    if |rows| == 0 then 0 else TotalAmount(rows[..|rows| - 1]) + rows[|rows| - 1].amount
  }

  lemma {:induction false} TotalAmountAppend(a: seq<Row>, b: seq<Row>)
    ensures TotalAmount(a + b) == TotalAmount(a) + TotalAmount(b)
  {
    if |b| == 0 {
      assert a + b == a;
    } else {
      assert (a + b)[..|a + b| - 1] == a + b[..|b| - 1];
      TotalAmountAppend(a, b[..|b| - 1]);
    }
  }

  /** `amount / base * 100` when `base` is positive, else 0: the guarded percentage
      every chart uses. */
  function PercentOf(amount: int, base: int): (p: real)
    ensures base <= 0 ==> p == 0.0
    ensures base > 0 ==> p * (base as real) == (amount as real) * 100.0
  {
    if base > 0 then (amount as real / base as real) * 100.0 else 0.0
  }

  /* ---------------------------------------------------------------------- */
  /* Rebuilding an amount map over a new key list                             */

  /** `next` is `prev` rebuilt over `cats`. */
  ghost predicate Rebuilt(next: Amounts, prev: Amounts, cats: seq<string>) {
    && next.Valid() && next.keys == Dedup(cats)
    && forall k :: k in next.values ==> next.values[k] == prev.Get(k)
  }

  lemma RebuildStep(next: Amounts, prev: Amounts, cats: seq<string>, cat: string)
    requires Rebuilt(next, prev, cats)
    ensures Rebuilt(next.Put(cat, prev.Get(cat)), prev, cats + [cat])
  {
    if cat in next.values {
      DedupAppendPresent(cats, cat);
    } else {
      DedupAppendAbsent(cats, cat);
    }
  }

  /** `cats.forEach(cat => { next[cat] = prev[cat] || 0 })` from an empty
      object: one key per category in list order, a category `prev` already
      holds keeps its amount and a new one starts at 0. */
  method Reconcile(prev: Amounts, union: seq<string>) returns (next: Amounts)
    ensures next.Valid() && next.keys == Dedup(union)
    ensures forall k :: k in next.values ==> next.values[k] == prev.Get(k)
    ensures forall k :: k in next.values && k !in prev.values ==> next.values[k] == 0
  {
    next := EMPTY;
    assert union[..0] == [];
    for i := 0 to |union|
      invariant Rebuilt(next, prev, union[..i])
    {
      assert union[..i + 1] == union[..i] + [union[i]];
      RebuildStep(next, prev, union[..i], union[i]);
      next := next.Put(union[i], prev.Get(union[i]));
    }
    assert union[..|union|] == union;
  }

  /** A delete by id (`list.filter((t) => t.id !== id)`): the transactions
      that do not carry the id, in order. */
  function WithoutId(txs: seq<Transaction>, id: int): seq<Transaction> {
    if |txs| == 0 then []
    else
      var t := txs[|txs| - 1];
      WithoutId(txs[..|txs| - 1], id) + (if t.id == id then [] else [t])
  }

  /** Exactly the transactions with other ids remain. */
  lemma {:induction false} WithoutIdMembers(txs: seq<Transaction>, id: int, t: Transaction)
    ensures t in WithoutId(txs, id) <==> t in txs && t.id != id
  {
    if |txs| > 0 {
      WithoutIdMembers(txs[..|txs| - 1], id, t);
      assert txs == txs[..|txs| - 1] + [txs[|txs| - 1]];
    }
  }

  lemma WithoutIdSnoc(txs: seq<Transaction>, t: Transaction, id: int)
    ensures WithoutId(txs + [t], id) == WithoutId(txs, id) + (if t.id == id then [] else [t])
  {
    assert (txs + [t])[..|txs|] == txs;
  }
}
