/** The three-bucket target chart: the targets summed over the Needs, Wants and
    Savings lists, with the unallocated projected income added to Savings. */
module SimpleTargetsChart {
  import opened Collections
  import opened Records

  const DEFAULT_NEEDS: seq<string> := ["Housing", "Food", "Utilities", "Healthcare"]
  const DEFAULT_WANTS: seq<string> := ["Transport", "Entertainment", "Other"]

  /** Sum of the targets over a group's list; a category without a target
      counts 0 and a category listed twice counts twice. */
  function GroupSum(group: seq<string>, targets: Amounts): int {
    SumOver(group, targets.values)
  }

  /** The three rows. */
  function SimpleTargetsData(needsCategories: seq<string>, wantsCategories: seq<string>,
                             savingsCategories: seq<string>, targets: Amounts, projectedIncome: int): seq<Row> {
    var needs := if |needsCategories| > 0 then needsCategories else DEFAULT_NEEDS;
    var wants := if |wantsCategories| > 0 then wantsCategories else DEFAULT_WANTS;
    var needsAmount := GroupSum(needs, targets);
    var wantsAmount := GroupSum(wants, targets);
    var savingsAmount := GroupSum(savingsCategories, targets);
    var allocation := needsAmount + wantsAmount + savingsAmount;
    var savedAmount := Max(0, projectedIncome - allocation) + savingsAmount;
    [Row("Needs", needsAmount, PercentOf(needsAmount, projectedIncome), "#93c5fd"),
     Row("Wants", wantsAmount, PercentOf(wantsAmount, projectedIncome), "#fca5a5"),
     Row("Savings", savedAmount, PercentOf(savedAmount, projectedIncome), "#86efac")]
  }

  /** The "Total allocation" share: allocation over projected income, 0 without a positive income. */
  function AllocatedPercent(needsCategories: seq<string>, wantsCategories: seq<string>,
                            savingsCategories: seq<string>, targets: Amounts, projectedIncome: int): (p: real)
    ensures projectedIncome <= 0 ==> p == 0.0
    ensures var needs := if |needsCategories| > 0 then needsCategories else DEFAULT_NEEDS;
            var wants := if |wantsCategories| > 0 then wantsCategories else DEFAULT_WANTS;
            var allocation := GroupSum(needs, targets) + GroupSum(wants, targets) + GroupSum(savingsCategories, targets);
            projectedIncome > 0 ==> p * (projectedIncome as real) == (allocation as real) * 100.0
  {
    var needs := if |needsCategories| > 0 then needsCategories else DEFAULT_NEEDS;
    var wants := if |wantsCategories| > 0 then wantsCategories else DEFAULT_WANTS;
    PercentOf(GroupSum(needs, targets) + GroupSum(wants, targets) + GroupSum(savingsCategories, targets), projectedIncome)
  }

  /** Exactly three rows, Needs, Wants and Savings; an empty Needs or Wants
      list means its default list; each group row sums that group's targets;
      the Savings row holds at least the savings targets; the rows add up to
      the larger of the allocation and the projected income; each row's
      percentage is its share of the projected income, and 0 without a
      positive projected income. */
  lemma SimpleTargetsDataShape(needsCategories: seq<string>, wantsCategories: seq<string>,
                               savingsCategories: seq<string>, targets: Amounts, projectedIncome: int)
    ensures var rows := SimpleTargetsData(needsCategories, wantsCategories, savingsCategories, targets, projectedIncome);
      var needs := if |needsCategories| > 0 then needsCategories else DEFAULT_NEEDS;
      var wants := if |wantsCategories| > 0 then wantsCategories else DEFAULT_WANTS;
      var allocation := GroupSum(needs, targets) + GroupSum(wants, targets) + GroupSum(savingsCategories, targets);
      && |rows| == 3
      && rows[0].name == "Needs" && rows[1].name == "Wants" && rows[2].name == "Savings"
      && rows[0].amount == GroupSum(needs, targets) && rows[1].amount == GroupSum(wants, targets)
      && rows[2].amount >= GroupSum(savingsCategories, targets)
      && rows[2].amount - GroupSum(savingsCategories, targets) >= projectedIncome - allocation
      && rows[0].amount + rows[1].amount + rows[2].amount == Max(allocation, projectedIncome)
      && (projectedIncome <= 0 ==> forall i :: 0 <= i < 3 ==> rows[i].percentage == 0.0)
      && (forall i :: 0 <= i < 3 ==> rows[i].percentage == PercentOf(rows[i].amount, projectedIncome))
      && rows[0].color == "#93c5fd" && rows[1].color == "#fca5a5" && rows[2].color == "#86efac"
  {
  }

  /** The allocation is the targets summed over the three lists joined, so a
      category listed in two groups is counted twice; when the joined lists
      are exactly the target keys, it is the total of all targets. */
  lemma AllocatedOverJoinedLists(needs: seq<string>, wants: seq<string>, savings: seq<string>, targets: Amounts)
    ensures GroupSum(needs, targets) + GroupSum(wants, targets) + GroupSum(savings, targets)
            == SumOver(needs + wants + savings, targets.values)
    ensures needs + wants + savings == targets.keys
            ==> GroupSum(needs, targets) + GroupSum(wants, targets) + GroupSum(savings, targets) == targets.Total()
  {
    SumOverAppend(needs, wants, targets.values);
    SumOverAppend(needs + wants, savings, targets.values);
  }
}
