/** The target-budget chart: one row per expense category with its target
    amount, share of projected income and palette colour, then a "Saved" row. */
module TargetsChart {
  import opened Collections
  import opened Records

  const FALLBACK: seq<string> := ["Housing", "Food", "Utilities", "Transport", "Entertainment", "Healthcare", "Other"]
  const PALETTE: seq<string> := ["#ef4444", "#f59e0b", "#10b981", "#3b82f6", "#8b5cf6", "#f97316", "#06b6d4"]
  const SAVED_COLOR: string := "#22c55e"

  function ExpenseCats(categories: seq<string>): seq<string> {
    if |categories| > 0 then categories else FALLBACK
  }

  /** The category rows: row `i` is category `i` with its target (0 when it
      has none), that target's share of projected income and the palette
      colour `i mod 7`. */
  function TargetRows(cats: seq<string>, targets: Amounts, projectedIncome: int): (rows: seq<Row>)
    ensures |rows| == |cats|
    ensures forall i :: 0 <= i < |cats| ==>
      && rows[i].name == cats[i] && rows[i].amount == targets.Get(cats[i])
      && rows[i].percentage == PercentOf(targets.Get(cats[i]), projectedIncome)
      && rows[i].color == PALETTE[i % |PALETTE|]
  {
    if |cats| == 0 then []
    else
      var n := |cats| - 1;
      var amount := targets.Get(cats[n]);
      TargetRows(cats[..n], targets, projectedIncome) + [Row(cats[n], amount, PercentOf(amount, projectedIncome), PALETTE[n % |PALETTE|])]
  }

  /** The chart's rows: the category rows, then "Saved" holding what projected
      income the targets leave unallocated, never less than 0. */
  function TargetsData(categories: seq<string>, targets: Amounts, projectedIncome: int): seq<Row> {
    var savedAmount := Max(0, projectedIncome - targets.Total());
    TargetRows(ExpenseCats(categories), targets, projectedIncome)
      + [Row(SAVED, savedAmount, PercentOf(savedAmount, projectedIncome), SAVED_COLOR)]
  }

  /** One row per shown category in their order, with its target, its share
      and its palette colour, then "Saved" last. Saved holds exactly the
      projected income the targets leave unallocated, and 0 when they allocate
      all of it or more; its share is taken of the projected income like the
      others. Every percentage is 0 without a positive projected income. */
  lemma TargetsDataShape(categories: seq<string>, targets: Amounts, projectedIncome: int)
    ensures var rows := TargetsData(categories, targets, projectedIncome);
      var cats := ExpenseCats(categories);
      && |rows| == |cats| + 1
      && (forall i :: 0 <= i < |cats| ==>
            && rows[i].name == cats[i] && rows[i].amount == targets.Get(cats[i])
            && rows[i].percentage == PercentOf(rows[i].amount, projectedIncome)
            && rows[i].color == PALETTE[i % |PALETTE|])
      && rows[|cats|].name == SAVED && rows[|cats|].color == SAVED_COLOR
      && rows[|cats|].amount >= 0 && rows[|cats|].amount >= projectedIncome - targets.Total()
      && (projectedIncome > targets.Total() ==> rows[|cats|].amount + targets.Total() == projectedIncome)
      && (projectedIncome <= targets.Total() ==> rows[|cats|].amount == 0)
      && rows[|cats|].percentage == PercentOf(rows[|cats|].amount, projectedIncome)
      && (projectedIncome <= 0 ==> forall i :: 0 <= i < |rows| ==> rows[i].percentage == 0.0)
  {
  }

  lemma {:induction false} TargetRowsTotal(cats: seq<string>, targets: Amounts, projectedIncome: int)
    ensures TotalAmount(TargetRows(cats, targets, projectedIncome)) == SumOver(cats, targets.values)
  {
    if |cats| > 0 {
      TargetRowsTotal(cats[..|cats| - 1], targets, projectedIncome);
    }
  }

  /** When the targets are keyed by exactly the shown categories, the rows add
      up to the larger of the total target and the projected income. */
  lemma TargetsDataTotal(categories: seq<string>, targets: Amounts, projectedIncome: int)
    requires targets.keys == ExpenseCats(categories)
    ensures TotalAmount(TargetsData(categories, targets, projectedIncome)) == Max(targets.Total(), projectedIncome)
  {
    var cats := ExpenseCats(categories);
    var rows := TargetRows(cats, targets, projectedIncome);
    var savedAmount := Max(0, projectedIncome - targets.Total());
    TotalAmountAppend(rows, [Row(SAVED, savedAmount, PercentOf(savedAmount, projectedIncome), SAVED_COLOR)]);
    assert TotalAmount([Row(SAVED, savedAmount, PercentOf(savedAmount, projectedIncome), SAVED_COLOR)]) == savedAmount;
    TargetRowsTotal(cats, targets, projectedIncome);
  }
}
