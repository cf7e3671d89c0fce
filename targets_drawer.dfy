/** The budget-targets drawer: an editable map from expense category to target
    amount, its total, the per-category share of projected income and the
    "exceeds projected income" flag. */
module TargetsDrawer {
  import opened Collections
  import opened Records

  const FALLBACK: seq<string> := ["Housing", "Food", "Utilities", "Transport", "Entertainment", "Healthcare", "Other"]

  /** `categories.length ? categories : fallback` */
  function ExpenseCats(categories: seq<string>): (r: seq<string>)
    ensures |categories| > 0 ==> r == categories
    ensures |categories| == 0 ==> r == FALLBACK
  {
    if |categories| > 0 then categories else FALLBACK
  }

  /** The share of projected income one target amount takes, 0 without a positive income. */
  function Percent(amount: int, projectedIncome: int): real {
    PercentOf(amount, projectedIncome)
  }

  /** The total is over the projected income, and there is one. */
  predicate ExceedsIncome(total: int, projectedIncome: int) {
    projectedIncome > 0 && total > projectedIncome
  }

  /** Sum of the per-category percentages over `keys`. */
  function PercentTotal(keys: seq<string>, values: map<string, int>, projectedIncome: int): real {
    if |keys| == 0 then 0.0
    else PercentTotal(keys[..|keys| - 1], values, projectedIncome) + Percent(Lookup(values, keys[|keys| - 1]), projectedIncome)
  }

  /** The percentages shown beside the categories add up to the share of the
      total, so none is shown without a positive projected income. */
  lemma {:induction false} PercentTotalIsShareOfTotal(keys: seq<string>, values: map<string, int>, projectedIncome: int)
    ensures PercentTotal(keys, values, projectedIncome) == Percent(SumOver(keys, values), projectedIncome)
  {
    if |keys| > 0 {
      PercentTotalIsShareOfTotal(keys[..|keys| - 1], values, projectedIncome);
    }
  }

  /** The flag is raised exactly when there is a positive projected income and
      the shown percentages add up to more than 100. */
  lemma ExceedsMeansOverHundred(a: Amounts, projectedIncome: int)
    ensures ExceedsIncome(a.Total(), projectedIncome)
            <==> projectedIncome > 0 && PercentTotal(a.keys, a.values, projectedIncome) > 100.0
  {
    PercentTotalIsShareOfTotal(a.keys, a.values, projectedIncome);
    if projectedIncome > 0 {
      PercentOverHundred(a.Total(), projectedIncome);
    }
  }

  /** A share of a positive income is over 100 exactly when the amount exceeds the income. */
  lemma PercentOverHundred(amount: int, projectedIncome: int)
    requires projectedIncome > 0
    ensures Percent(amount, projectedIncome) > 100.0 <==> amount > projectedIncome
  {
    var p := Percent(amount, projectedIncome);
    assert p * (projectedIncome as real) == (amount as real) * 100.0;
    ScaleOrder(p, 100.0, projectedIncome as real);
  }

  /** Multiplying by a positive factor keeps the order. */
  lemma ScaleOrder(x: real, y: real, b: real)
    requires b > 0.0
    ensures x <= y <==> x * b <= y * b
  {
    if x <= y {
      assert (y - x) * b >= 0.0;
    } else {
      assert (x - y) * b > 0.0;
    }
  }

  /** The drawer's edit state (`targetValues`). */
  class Editor {
    var values: Amounts

    ghost predicate Valid()
      reads this
    {
      values.Valid()
    }

    constructor ()
      ensures Valid() && values == EMPTY
    {
      values := EMPTY;
    }

    /** The open-time initialisation: one entry per shown category, in order,
        holding its current target or 0. A closed drawer keeps its state. */
    method Open(open: bool, categories: seq<string>, targets: Amounts)
      requires Valid()
      modifies this
      ensures Valid()
      ensures !open ==> values == old(values)
      ensures open ==> values.keys == Dedup(ExpenseCats(categories))
      ensures open ==> forall k :: k in values.values ==> values.values[k] == targets.Get(k)
    {
      if open {
        values := Reconcile(targets, ExpenseCats(categories));
      }
    }

    /** `handleChange`: the edited category takes the parsed amount, or 0 when
        the input does not parse; nothing else changes. */
    method HandleChange(category: string, parsed: Option<int>)
      requires Valid()
      modifies this
      ensures Valid()
      ensures values.values == old(values.values)[category := if parsed.Some? then parsed.value else 0]
      ensures values.keys == if category in old(values.values) then old(values.keys) else old(values.keys) + [category]
      ensures values.Total() == old(values.Total()) - old(values.Get(category)) + values.Get(category)
    {
      var amount := if parsed.Some? then parsed.value else 0;
      PutTotal(values, category, amount);
      values := values.Put(category, amount);
    }
  }
}
