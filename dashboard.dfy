/** The overview card: the month and year pickers and the top-three list
    chosen by the selected view. */
module Dashboard {
  import opened Collections
  import opened Records

  /** A view choice: its key and its heading. */
  datatype ViewOption = ViewOption(key: string, heading: string)

  const OPTIONS: seq<ViewOption> := [
    ViewOption("expenses", "Top 3 expenses"),
    ViewOption("transactions", "Top 3 transactions"),
    ViewOption("income", "Top 3 income events")
  ]

  const DEFAULT_LABEL: string := "Top 3"

  const MONTHS: seq<string> := ["January", "February", "March", "April", "May", "June",
                                "July", "August", "September", "October", "November", "December"]

  /** The month picker offers one name per month index, January to December. */
  lemma MonthNames()
    ensures |MONTHS| == 12
    ensures MONTHS[0] == "January" && MONTHS[11] == "December"
  {
  }

  /** The year picker: seven consecutive years centred on the selected one. */
  function YearChoices(selectedYear: int): (years: seq<int>)
    ensures |years| == 7
    ensures years[0] == selectedYear - 3 && years[3] == selectedYear && years[6] == selectedYear + 3
    ensures forall i :: 0 <= i < 6 ==> years[i + 1] == years[i] + 1
  {
    seq(7, i requires 0 <= i < 7 => selectedYear - 3 + i)
  }

  /** The selected year is always offered, and every offered year lies within
      three years of it, in ascending order. */
  lemma YearChoicesAroundSelected(selectedYear: int)
    ensures selectedYear in YearChoices(selectedYear)
    ensures forall y :: y in YearChoices(selectedYear) ==> selectedYear - 3 <= y <= selectedYear + 3
    ensures forall i, j :: 0 <= i < j < 7 ==> YearChoices(selectedYear)[i] < YearChoices(selectedYear)[j]
  {
    var years := YearChoices(selectedYear);
    assert years[3] == selectedYear;
    assert forall i :: 0 <= i < 7 ==> years[i] == selectedYear - 3 + i by {
      forall i | 0 <= i < 7 ensures years[i] == selectedYear - 3 + i {
        YearAt(selectedYear, i);
      }
    }
  }

  lemma {:induction false} YearAt(selectedYear: int, i: nat)
    requires i < 7
    ensures YearChoices(selectedYear)[i] == selectedYear - 3 + i
  {
    if i > 0 {
      YearAt(selectedYear, i - 1);
    }
  }

  /** The list shown: top expenses, top income, or otherwise the top transactions. */
  function SelectList(view: string, topExpenses: seq<Transaction>, topIncome: seq<Transaction>,
                      topTransactions: seq<Transaction>): (list: seq<Transaction>)
    ensures view == "expenses" ==> list == topExpenses
    ensures view == "income" ==> list == topIncome
    ensures view != "expenses" && view != "income" ==> list == topTransactions
  {
    if view == "expenses" then topExpenses
    else if view == "income" then topIncome
    else topTransactions
  }

  /** `OPTIONS.find(o => o.key === view)`: the first option with that key. */
  function FindOption(options: seq<ViewOption>, view: string): (r: Option<ViewOption>)
    ensures r.None? <==> forall o :: o in options ==> o.key != view
    ensures r.Some? ==> r.value in options && r.value.key == view
  {
    if |options| == 0 then None
    else if options[0].key == view then Some(options[0])
    else FindOption(options[1..], view)
  }

  /** The heading: the label of the view's option, or "Top 3" for an unknown view. */
  function Label(view: string): (title: string)
    ensures (forall o :: o in OPTIONS ==> o.key != view) ==> title == DEFAULT_LABEL
  {
    match FindOption(OPTIONS, view)
    case Some(o) => if o.heading != "" then o.heading else DEFAULT_LABEL
    case None => DEFAULT_LABEL
  }

  /** The heading names the list that is shown: each known view gets its own
      label together with its own list, and any other view shows the top
      transactions under the generic heading. */
  lemma LabelMatchesList(view: string, topExpenses: seq<Transaction>, topIncome: seq<Transaction>,
                         topTransactions: seq<Transaction>)
    ensures view == "expenses" ==>
      Label(view) == "Top 3 expenses" && SelectList(view, topExpenses, topIncome, topTransactions) == topExpenses
    ensures view == "income" ==>
      Label(view) == "Top 3 income events" && SelectList(view, topExpenses, topIncome, topTransactions) == topIncome
    ensures view == "transactions" ==>
      Label(view) == "Top 3 transactions" && SelectList(view, topExpenses, topIncome, topTransactions) == topTransactions
    ensures view != "expenses" && view != "income" && view != "transactions" ==>
      Label(view) == DEFAULT_LABEL && SelectList(view, topExpenses, topIncome, topTransactions) == topTransactions
  {
    assert "income"[0] != "expenses"[0] && "transactions"[0] != "expenses"[0] && "transactions"[0] != "income"[0];
    if view == "income" {
      assert OPTIONS[0].key != view && OPTIONS[1].key != view;
      assert FindOption(OPTIONS, view) == FindOption(OPTIONS[1..], view) == FindOption(OPTIONS[2..], view);
    } else if view == "transactions" {
      assert OPTIONS[0].key != view;
      assert FindOption(OPTIONS, view) == FindOption(OPTIONS[1..], view);
    }
  }
}
