/** The month's transaction list drawer: the loaded transactions, a category
    filter with its option list, the income, expense and net totals of what is
    shown, and local removal after a delete. */
module ViewTransactions {
  import opened Collections
  import opened Records

  const ALL: string := "All"

  /* ---------------------------------------------------------------------- */
  /* Option ordering                                                          */

  /** Code-point lexicographic order, standing for `localeCompare`. */
  predicate LexLe(a: string, b: string) {
    |a| == 0 || (|b| > 0 && (a[0] < b[0] || (a[0] == b[0] && LexLe(a[1..], b[1..]))))
  }

  lemma {:induction false} LexLeTotal(a: string, b: string)
    ensures LexLe(a, b) || LexLe(b, a)
  {
    if |a| > 0 && |b| > 0 && a[0] == b[0] {
      LexLeTotal(a[1..], b[1..]);
    }
  }

  lemma {:induction false} LexLeTransitive(a: string, b: string, c: string)
    requires LexLe(a, b) && LexLe(b, c)
    ensures LexLe(a, c)
  {
    if |a| > 0 && |b| > 0 && |c| > 0 && a[0] == b[0] && b[0] == c[0] {
      LexLeTransitive(a[1..], b[1..], c[1..]);
    }
  }

  /** The option comparator: "All" before everything, the rest by `LexLe`. */
  predicate OptionLe(a: string, b: string) {
    a == ALL || (b != ALL && LexLe(a, b))
  }

  lemma OptionLeTotal(a: string, b: string)
    ensures OptionLe(a, b) || OptionLe(b, a)
  {
    LexLeTotal(a, b);
  }

  lemma OptionLeTransitive(a: string, b: string, c: string)
    requires OptionLe(a, b) && OptionLe(b, c)
    ensures OptionLe(a, c)
  {
    if a != ALL {
      LexLeTransitive(a, b, c);
    }
  }

  predicate SortedOptions(s: seq<string>) {
    forall i, j :: 0 <= i < j < |s| ==> OptionLe(s[i], s[j])
  }

  /** Insert `x` in front of the first element it may precede. */
  function InsertOption(x: string, s: seq<string>): (r: seq<string>)
    ensures multiset(r) == multiset(s) + multiset{x}
  {
    if |s| == 0 || OptionLe(x, s[0]) then [x] + s
    else
      assert s == [s[0]] + s[1..];
      [s[0]] + InsertOption(x, s[1..])
  }

  lemma {:induction false} InsertOptionSorted(x: string, s: seq<string>)
    requires SortedOptions(s)
    ensures SortedOptions(InsertOption(x, s))
  {
    if |s| == 0 {
    } else if OptionLe(x, s[0]) {
      forall j | 1 < j < |s| + 1
        ensures OptionLe(x, ([x] + s)[j])
      {
        OptionLeTransitive(x, s[0], s[j - 1]);
      }
    } else {
      OptionLeTotal(x, s[0]);
      InsertOptionSorted(x, s[1..]);
      var t := InsertOption(x, s[1..]);
      forall j | 0 <= j < |t|
        ensures OptionLe(s[0], t[j])
      {
        assert t[j] in multiset(t);
        assert t[j] == x || t[j] in multiset(s[1..]);
        if t[j] != x {
          var k :| 0 <= k < |s[1..]| && s[1..][k] == t[j];
          assert s[k + 1] == t[j];
        }
      }
    }
  }

  /** Insertion sort by the option comparator. */
  function SortOptions(s: seq<string>): (r: seq<string>)
    ensures multiset(r) == multiset(s)
    ensures |r| == |s|
  {
    if |s| == 0 then []
    else
      assert s == [s[0]] + s[1..];
      InsertOption(s[0], SortOptions(s[1..]))
  }

  lemma {:induction false} SortOptionsSorted(s: seq<string>)
    ensures SortedOptions(SortOptions(s))
  {
    if |s| > 0 {
      SortOptionsSorted(s[1..]);
      InsertOptionSorted(s[0], SortOptions(s[1..]));
    }
  }

  /** The non-empty categories of the transactions, in order (`.map(t => t.category).filter(Boolean)`). */
  function Categories(txs: seq<Transaction>): (r: seq<string>)
    ensures forall c :: c in r <==> exists t :: t in txs && t.category == Some(c) && c != []
  {
    if |txs| == 0 then []
    else
      var t := txs[|txs| - 1];
      var p := Categories(txs[..|txs| - 1]);
      assert forall u :: u in txs <==> u in txs[..|txs| - 1] || u == t;
      p + (if t.category.Some? && t.category.value != [] then [t.category.value] else [])
  }

  /** `categoryOptions`: "All" and each distinct category once, sorted with "All" first. */
  function CategoryOptions(txs: seq<Transaction>): seq<string> {
    SortOptions([ALL] + Dedup(Categories(txs)))
  }

  /** The options start with "All", are sorted, and hold each category of a
      transaction exactly once (a category spelled "All" aside, which joins the
      leading one). */
  lemma CategoryOptionsContents(txs: seq<Transaction>)
    ensures var opts := CategoryOptions(txs);
      && |opts| > 0 && opts[0] == ALL
      && SortedOptions(opts)
      && (forall c :: c in opts <==> c == ALL || exists t :: t in txs && t.category == Some(c) && c != [])
      && (forall c :: c != ALL ==> multiset(opts)[c] <= 1)
  {
    var cats := Dedup(Categories(txs));
    var opts := CategoryOptions(txs);
    SortOptionsSorted([ALL] + cats);
    assert ALL in multiset(opts);
    var k :| 0 <= k < |opts| && opts[k] == ALL;
    assert k == 0 || OptionLe(opts[0], opts[k]);
    forall c | c != ALL
      ensures multiset(opts)[c] <= 1
    {
      DistinctCount(cats, c);
    }
    forall c
      ensures c in opts <==> c in [ALL] + cats
    {
      assert c in opts <==> c in multiset(opts);
    }
  }

  /* ---------------------------------------------------------------------- */
  /* What is shown                                                            */

  /** `visibleTransactions`: everything under "All", else the transactions of that category, in order. */
  function Visible(txs: seq<Transaction>, filter: string): (r: seq<Transaction>)
    ensures filter == ALL ==> r == txs
  {
    if filter == ALL then txs else OfCategory(txs, filter)
  }

  function OfCategory(txs: seq<Transaction>, category: string): seq<Transaction> {
    if |txs| == 0 then []
    else
      var t := txs[|txs| - 1];
      OfCategory(txs[..|txs| - 1], category) + (if t.category == Some(category) then [t] else [])
  }

  /** A category's view holds exactly the transactions of that category. */
  lemma {:induction false} OfCategoryMembers(txs: seq<Transaction>, category: string, t: Transaction)
    ensures t in OfCategory(txs, category) <==> t in txs && t.category == Some(category)
  {
    if |txs| > 0 {
      OfCategoryMembers(txs[..|txs| - 1], category, t);
      assert txs == txs[..|txs| - 1] + [txs[|txs| - 1]];
    }
  }

  /** The three figures above the list: income, expenses and their difference. */
  datatype Totals = Totals(income: int, expenses: int, net: int)

  /** Under "All" the figures are those of the whole list; under a category
      they count only that category's transactions. */
  function ShownTotals(txs: seq<Transaction>, filter: string): (r: Totals)
    ensures r.net == r.income - r.expenses
    ensures filter == ALL ==> r.income == KindTotal(txs, INCOME) && r.expenses == KindTotal(txs, EXPENSE)
    ensures filter != ALL ==> r.income == KindTotal(OfCategory(txs, filter), INCOME)
                              && r.expenses == KindTotal(OfCategory(txs, filter), EXPENSE)
  {
    var shown := Visible(txs, filter);
    var income := KindTotal(shown, INCOME);
    var expenses := KindTotal(shown, EXPENSE);
    Totals(income, expenses, income - expenses)
  }

  /** The totals of a category's view and of the other transactions add up to the totals of all. */
  lemma {:induction false} OfCategoryTotals(txs: seq<Transaction>, category: string, kind: string)
    ensures KindTotal(OfCategory(txs, category), kind) + KindTotal(NotOfCategory(txs, category), kind) == KindTotal(txs, kind)
  {
    if |txs| > 0 {
      var p, t := txs[..|txs| - 1], txs[|txs| - 1];
      OfCategoryTotals(p, category, kind);
      var o, n := OfCategory(p, category), NotOfCategory(p, category);
      assert KindTotal(txs, kind) == KindTotal(p, kind) + (if t.kind == kind then t.amount else 0);
      if t.category == Some(category) {
        assert OfCategory(txs, category) == o + [t];
        assert NotOfCategory(txs, category) == n;
        KindTotalSnoc(o, t, kind);
      } else {
        assert OfCategory(txs, category) == o;
        assert NotOfCategory(txs, category) == n + [t];
        KindTotalSnoc(n, t, kind);
      }
    }
  }

  function NotOfCategory(txs: seq<Transaction>, category: string): seq<Transaction> {
    if |txs| == 0 then []
    else
      var t := txs[|txs| - 1];
      NotOfCategory(txs[..|txs| - 1], category) + (if t.category == Some(category) then [] else [t])
  }

  /** Removing a transaction removes it from every view and leaves the rest of the view in order. */
  lemma {:induction false} DeleteThenView(txs: seq<Transaction>, id: int, filter: string)
    ensures Visible(WithoutId(txs, id), filter) == WithoutId(Visible(txs, filter), id)
  {
    if filter != ALL && |txs| > 0 {
      var p, t := txs[..|txs| - 1], txs[|txs| - 1];
      DeleteThenView(p, id, filter);
      var kept := WithoutId(p, id);
      var shown := OfCategory(p, filter);
      if t.id == id {
        assert WithoutId(txs, id) == kept + [];
        assert kept + [] == kept;
        if t.category == Some(filter) {
          WithoutIdSnoc(shown, t, id);
          assert WithoutId(shown + [t], id) == WithoutId(shown, id) + [];
        } else {
          assert OfCategory(txs, filter) == shown + [];
          assert shown + [] == shown;
        }
      } else {
        assert WithoutId(txs, id) == kept + [t];
        OfCategorySnoc(kept, t, filter);
        if t.category == Some(filter) {
          WithoutIdSnoc(shown, t, id);
        } else {
          assert OfCategory(txs, filter) == shown + [];
          assert shown + [] == shown;
          assert OfCategory(kept + [t], filter) == OfCategory(kept, filter) + [];
        }
      }
    }
  }

  lemma OfCategorySnoc(txs: seq<Transaction>, t: Transaction, category: string)
    ensures OfCategory(txs + [t], category) == OfCategory(txs, category) + (if t.category == Some(category) then [t] else [])
  {
    assert (txs + [t])[..|txs|] == txs;
  }

  /** What the fetch produced: a failure or unparseable text (the list stays
      as it was), an empty body or a non-array (an empty list), or rows. */
  datatype Payload = Failed | BadJson | EmptyText | NotArray | Rows(rows: seq<Transaction>)

  /** The drawer's state. */
  class Viewer {
    var transactions: seq<Transaction>
    var categoryFilter: string

    constructor ()
      ensures transactions == [] && categoryFilter == ALL
    {
      transactions := [];
      categoryFilter := ALL;
    }

    /** Opening the drawer with a user resets the filter to "All" and loads the
        month's transactions from the payload. */
    method Open(open: bool, hasUser: bool, payload: Payload, year: int, month: MonthIndex)
      modifies this
      ensures open && hasUser ==> categoryFilter == ALL
      ensures !(open && hasUser) ==> categoryFilter == old(categoryFilter) && transactions == old(transactions)
      ensures open && hasUser ==> transactions == Received(old(transactions), payload, year, month)
    {
      if open && hasUser {
        categoryFilter := ALL;
        Receive(payload, year, month);
      }
    }

    /** The fetch result lands in the list. */
    method Receive(payload: Payload, year: int, month: MonthIndex)
      modifies this
      ensures transactions == Received(old(transactions), payload, year, month)
      ensures categoryFilter == old(categoryFilter)
    {
      match payload {
        case Failed =>
        case BadJson =>
        case EmptyText => transactions := [];
        case NotArray => transactions := [];
        case Rows(rows) => transactions := MonthTransactions(rows, year, month);
      }
    }

    method SelectCategory(category: string)
      modifies this
      ensures categoryFilter == category && transactions == old(transactions)
    {
      categoryFilter := category;
    }

    /** After the server confirmed a delete, every transaction with that id leaves the list. */
    method LocalDelete(id: int, deleted: bool)
      modifies this
      ensures transactions == if deleted then WithoutId(old(transactions), id) else old(transactions)
      ensures categoryFilter == old(categoryFilter)
    {
      if deleted {
        transactions := WithoutId(transactions, id);
      }
    }
  }

  /** The list after a fetch. */
  function Received(current: seq<Transaction>, payload: Payload, year: int, month: MonthIndex): (r: seq<Transaction>)
    ensures payload.Failed? || payload.BadJson? ==> r == current
    ensures payload.EmptyText? || payload.NotArray? ==> r == []
    ensures payload.Rows? ==> forall t :: t in r <==> t in payload.rows && InMonth(t, year, month)
  {
    match payload
    case Failed => current
    case BadJson => current
    case EmptyText => []
    case NotArray => []
    case Rows(rows) =>
      forall t ensures t in MonthTransactions(rows, year, month) <==> t in rows && InMonth(t, year, month) {
        MonthTransactionsSelect(rows, year, month, t);
      }
      MonthTransactions(rows, year, month)
  }
}
