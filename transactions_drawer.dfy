/** The add-transaction form: its type and category state, the category list
    each type offers, and the payload built on submit. */
module TransactionsDrawer {
  import opened Collections

  const INCOME_CATEGORIES: seq<string> := ["Salary", "Freelance", "Bonus", "Interest", "Dividends", "Other"]
  const DEFAULT_EXPENSE_CATEGORIES: seq<string> := ["Housing", "Food", "Utilities", "Transport", "Entertainment", "Healthcare", "Other"]
  const DEFAULT_SAVINGS_CATEGORIES: seq<string> := ["Savings"]

  const INCOME: string := "income"
  const EXPENSE: string := "expense"
  const SAVINGS: string := "savings"

  /** The categories offered for a transaction type: the income list, the
      savings list (or "Savings" alone), or the expense list (or its defaults). */
  function CategoriesFor(transactionType: string, expenseCategories: seq<string>,
                         savingsCategories: seq<string>): (r: seq<string>)
    ensures |r| > 0
    ensures transactionType == INCOME ==> r == INCOME_CATEGORIES
    ensures transactionType == SAVINGS ==> r == if |savingsCategories| > 0 then savingsCategories else DEFAULT_SAVINGS_CATEGORIES
    ensures transactionType != INCOME && transactionType != SAVINGS
            ==> r == if |expenseCategories| > 0 then expenseCategories else DEFAULT_EXPENSE_CATEGORIES
  {
    if transactionType == INCOME then INCOME_CATEGORIES
    else if transactionType == SAVINGS then
      (if |savingsCategories| > 0 then savingsCategories else DEFAULT_SAVINGS_CATEGORIES)
    else if |expenseCategories| > 0 then expenseCategories
    else DEFAULT_EXPENSE_CATEGORIES
  }

  /** The stored `transaction_type`: savings are submitted as income. */
  function PayloadType(transactionType: string): (r: string)
    ensures r == EXPENSE <==> transactionType == EXPENSE
    ensures r == INCOME <==> transactionType != EXPENSE
  {
    if transactionType == EXPENSE then EXPENSE else INCOME
  }

  predicate AmountChar(c: char) {
    '0' <= c <= '9' || c == '.' || c == '-'
  }

  /** `replace(/[^0-9.-]+/g, '')`: the digits, dots and minus signs of the input, in order. */
  function FilterAmount(s: string): (r: string)
    ensures r == Filter(s, AmountChar)
    ensures forall i :: 0 <= i < |r| ==> AmountChar(r[i])
    ensures |r| <= |s|
  {
    if |s| == 0 then ""
    else
      var init, last := s[..|s| - 1], s[|s| - 1];
      assert s == init + [last];
      FilterAppend(init, [last], AmountChar);
      assert Filter([last], AmountChar) == if AmountChar(last) then [last] else [] by {
        assert [last][1..] == [];
      }
      FilterAmount(init) + (if AmountChar(last) then [last] else "")
  }

  /** Input made only of amount characters passes unchanged, so filtering twice changes nothing. */
  lemma {:induction false} FilterAmountKeepsClean(s: string)
    requires forall i :: 0 <= i < |s| ==> AmountChar(s[i])
    ensures FilterAmount(s) == s
  {
    if |s| > 0 {
      FilterAmountKeepsClean(s[..|s| - 1]);
      assert s == s[..|s| - 1] + [s[|s| - 1]];
    }
  }

  lemma {:induction false} FilterAmountAppend(a: string, b: string)
    ensures FilterAmount(a + b) == FilterAmount(a) + FilterAmount(b)
  {
    if |b| == 0 {
      assert a + b == a;
    } else {
      assert (a + b)[..|a + b| - 1] == a + b[..|b| - 1];
      FilterAmountAppend(a, b[..|b| - 1]);
    }
  }

  /** The body sent on submit (its date is left out). */
  datatype Payload = Payload(userId: Option<int>, description: string, amount: real,
                             transactionType: string, category: string)

  /** Without a user the payload goes straight to the callback; with one it is posted. */
  datatype Submission = Local(payload: Payload) | Post(payload: Payload)

  /** The form's state. */
  class Form {
    var transactionType: string
    var category: string
    var amount: string
    var description: string

    constructor ()
      ensures transactionType == EXPENSE && category == "" && amount == "" && description == ""
    {
      transactionType, category, amount, description := EXPENSE, "", "", "";
    }

    /** Opening resets the form to an expense in the first expense category. */
    method Open(open: bool, expenseCategories: seq<string>, savingsCategories: seq<string>)
      modifies this
      ensures open ==> transactionType == EXPENSE && amount == "" && description == ""
      ensures open ==> category == CategoriesFor(EXPENSE, expenseCategories, savingsCategories)[0]
      ensures !open ==> transactionType == old(transactionType) && category == old(category)
                        && amount == old(amount) && description == old(description)
    {
      if open {
        transactionType := EXPENSE;
        var list := if |expenseCategories| > 0 then expenseCategories else DEFAULT_EXPENSE_CATEGORIES;
        category := list[0];
        amount := "";
        description := "";
      }
    }

    /** Choosing a type selects the first category that type offers. */
    method SetType(transactionType': string, expenseCategories: seq<string>, savingsCategories: seq<string>)
      modifies this
      ensures transactionType == transactionType'
      ensures category == CategoriesFor(transactionType', expenseCategories, savingsCategories)[0]
      ensures category in CategoriesFor(transactionType', expenseCategories, savingsCategories)
      ensures amount == old(amount) && description == old(description)
    {
      transactionType := transactionType';
      var expenseList := if |expenseCategories| > 0 then expenseCategories else DEFAULT_EXPENSE_CATEGORIES;
      var savingsList := if |savingsCategories| > 0 then savingsCategories else DEFAULT_SAVINGS_CATEGORIES;
      if transactionType' == INCOME {
        category := INCOME_CATEGORIES[0];
      } else if transactionType' == SAVINGS {
        category := savingsList[0];
      } else {
        category := expenseList[0];
      }
    }

    /** The category select: the chosen option becomes the category. */
    method SetCategory(category': string)
      modifies this
      ensures category == category'
      ensures transactionType == old(transactionType) && amount == old(amount) && description == old(description)
    {
      category := category';
    }

    /** The amount input: its text is kept as typed; filtering and parsing
        happen on submit. */
    method SetAmount(text: string)
      modifies this
      ensures amount == text
      ensures transactionType == old(transactionType) && category == old(category) && description == old(description)
    {
      amount := text;
    }

    /** The description input. */
    method SetDescription(text: string)
      modifies this
      ensures description == text
      ensures transactionType == old(transactionType) && category == old(category) && amount == old(amount)
    {
      description := text;
    }

    /** `handleSubmit`: the amount is filtered to amount characters and parsed
        (`parse` stands for `parseFloat`; a failed parse gives 0), the type is
        mapped, and the payload goes to the callback when there is no user. */
    method Submit(userId: Option<int>, parse: string -> Option<real>) returns (s: Submission)
      ensures s.payload.amount == (if parse(FilterAmount(amount)).Some? then parse(FilterAmount(amount)).value else 0.0)
      ensures s.payload.transactionType == PayloadType(transactionType)
      ensures s.payload.category == category && s.payload.description == description && s.payload.userId == userId
      ensures s.Local? <==> userId.None? || userId.value == 0
    {
      var parsed := parse(FilterAmount(amount));
      var value := if parsed.Some? then parsed.value else 0.0;
      var payload := Payload(userId, description, value, PayloadType(transactionType), category);
      if userId.None? || userId.value == 0 {
        return Local(payload);
      }
      return Post(payload);
    }
  }
}
