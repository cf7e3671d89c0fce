/** The three-bucket budget overview: the month's expenses summed over the
    Needs, Wants and Savings lists, with the income left over added to Savings. */
module SimpleBudgetChart {
  import opened Collections
  import opened Records

  const DEFAULT_NEEDS: seq<string> := ["Housing", "Food", "Utilities", "Healthcare"]
  /** This chart's own default Wants order. */
  const DEFAULT_WANTS: seq<string> := ["Entertainment", "Transport", "Other"]

  /** Sum of the expenses over a group's list; a category with no bucket
      counts 0 and a category listed twice counts twice. */
  function GroupExpenses(group: seq<string>, expenses: Amounts): int {
    SumOver(group, expenses.values)
  }

  /** The three rows. */
  function SimpleBudgetData(income: int, expenses: Amounts, needsCategories: seq<string>,
                            wantsCategories: seq<string>, savingsCategories: seq<string>): seq<Row> {
    var needs := if |needsCategories| > 0 then needsCategories else DEFAULT_NEEDS;
    var wants := if |wantsCategories| > 0 then wantsCategories else DEFAULT_WANTS;
    var needed := GroupExpenses(needs, expenses);
    var wanted := GroupExpenses(wants, expenses);
    var saved := GroupExpenses(savingsCategories, expenses);
    var residual := Max(0, income - (needed + wanted + saved));
    [Row("Needs", needed, PercentOf(needed, income), "#ef4444"),
     Row("Wants", wanted, PercentOf(wanted, income), "#f59e0b"),
     Row("Savings", saved + residual, PercentOf(saved + residual, income), "#22c55e")]
  }

  /** Exactly three rows, Needs, Wants and Savings; an empty Needs or Wants
      list means its default list; each group row sums that group's expenses;
      the Savings row adds the never-negative income left over to the savings
      expenses, so the three amounts add up to the larger of the total
      expenses and the income; each row's percentage is its share of the
      income, and 0 without a positive income. */
  lemma SimpleBudgetDataShape(income: int, expenses: Amounts, needsCategories: seq<string>,
                              wantsCategories: seq<string>, savingsCategories: seq<string>)
    ensures var rows := SimpleBudgetData(income, expenses, needsCategories, wantsCategories, savingsCategories);
      var needs := if |needsCategories| > 0 then needsCategories else DEFAULT_NEEDS;
      var wants := if |wantsCategories| > 0 then wantsCategories else DEFAULT_WANTS;
      var total := GroupExpenses(needs, expenses) + GroupExpenses(wants, expenses) + GroupExpenses(savingsCategories, expenses);
      && |rows| == 3
      && rows[0].name == "Needs" && rows[1].name == "Wants" && rows[2].name == "Savings"
      && rows[0].amount == GroupExpenses(needs, expenses) && rows[1].amount == GroupExpenses(wants, expenses)
      && rows[2].amount - GroupExpenses(savingsCategories, expenses) >= 0
      && rows[2].amount - GroupExpenses(savingsCategories, expenses) >= income - total
      && rows[0].amount + rows[1].amount + rows[2].amount == Max(total, income)
      && (income <= 0 ==> forall i :: 0 <= i < 3 ==> rows[i].percentage == 0.0)
      && (forall i :: 0 <= i < 3 ==> rows[i].percentage == PercentOf(rows[i].amount, income))
      && rows[0].color == "#ef4444" && rows[1].color == "#f59e0b" && rows[2].color == "#22c55e"
  {
  }

  /** With non-negative expenses every row amount is non-negative. */
  lemma SimpleBudgetDataNonNegative(income: int, expenses: Amounts, needsCategories: seq<string>,
                                    wantsCategories: seq<string>, savingsCategories: seq<string>)
    requires forall k :: k in expenses.values ==> expenses.values[k] >= 0
    ensures forall r :: r in SimpleBudgetData(income, expenses, needsCategories, wantsCategories, savingsCategories)
                        ==> r.amount >= 0
  {
    var needs := if |needsCategories| > 0 then needsCategories else DEFAULT_NEEDS;
    var wants := if |wantsCategories| > 0 then wantsCategories else DEFAULT_WANTS;
    SumOverNonNegative(needs, expenses.values);
    SumOverNonNegative(wants, expenses.values);
    SumOverNonNegative(savingsCategories, expenses.values);
  }
}
