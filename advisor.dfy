/** The budget advisor: the month summary behind the local fallback advice,
    the hints that advice carries, and the chat history kept while asking. */
module Advisor {
  import opened Collections
  import opened Records
  import Ranking

  /** One category and its month expenses, as `Object.entries` yields them. */
  datatype Entry = Entry(category: string, amount: int)

  /** The month summary: total expenses, income to date minus them, and up to
      three largest categories. */
  datatype Summary = Summary(totalExpenses: int, net: int, topCats: seq<Entry>)

  /** The entries of the listed keys in order, a missing amount counting 0. */
  function Entries(keys: seq<string>, values: map<string, int>): (r: seq<Entry>)
    ensures |r| == |keys|
    ensures forall i :: 0 <= i < |r| ==> r[i] == Entry(keys[i], Lookup(values, keys[i]))
  {
    if |keys| == 0 then []
    else Entries(keys[..|keys| - 1], values) + [Entry(keys[|keys| - 1], Lookup(values, keys[|keys| - 1]))]
  }

  function EntryAmount(e: Entry): int { e.amount }

  function EntrySum(entries: seq<Entry>): int {
    if |entries| == 0 then 0 else EntrySum(entries[..|entries| - 1]) + entries[|entries| - 1].amount
  }

  /** The entries add up to the sum of the amounts over the same keys. */
  lemma {:induction false} EntrySumIsSumOver(keys: seq<string>, values: map<string, int>)
    ensures EntrySum(Entries(keys, values)) == SumOver(keys, values)
  {
    if |keys| > 0 {
      EntrySumIsSumOver(keys[..|keys| - 1], values);
      assert Entries(keys, values)[..|keys| - 1] == Entries(keys[..|keys| - 1], values);
    }
  }

  /** Up to three entries, largest first, as `sort(...).slice(0, 3)` gives them. */
  function TopThree(entries: seq<Entry>): (top: seq<Entry>)
    ensures |top| == if |entries| < 3 then |entries| else 3
  {
    Ranking.Top(entries, EntryAmount, 3)
  }

  /** The top entries come from the input, largest first, and none left out is
      larger than one kept. */
  lemma TopThreeLargest(entries: seq<Entry>)
    ensures multiset(TopThree(entries)) <= multiset(entries)
    ensures forall i, j :: 0 <= i < j < |TopThree(entries)| ==> TopThree(entries)[i].amount >= TopThree(entries)[j].amount
    ensures forall x: Entry, y: Entry :: x in multiset(entries) - multiset(TopThree(entries)) && y in TopThree(entries)
              ==> x.amount <= y.amount
  {
    var top := TopThree(entries);
    Ranking.TopDrawnFromInput(entries, EntryAmount, 3);
    assert Ranking.NonIncreasing(top, EntryAmount);
    forall i, j | 0 <= i < j < |top|
      ensures top[i].amount >= top[j].amount
    {
      assert EntryAmount(top[i]) >= EntryAmount(top[j]);
    }
    forall x: Entry, y: Entry | x in multiset(entries) - multiset(top) && y in top
      ensures x.amount <= y.amount
    {
      Ranking.TopTakesLargest(entries, EntryAmount, 3, x, y);
    }
  }

  /** `buildContextSummary`: total expenses over the categories, income to
      date minus them, and the three largest categories. */
  function BuildContextSummary(incomeToDate: int, expenses: Amounts): (s: Summary)
    ensures s.totalExpenses == expenses.Total()
    ensures s.net == incomeToDate - expenses.Total()
    ensures s.topCats == TopThree(Entries(expenses.keys, expenses.values))
    ensures |s.topCats| == if |expenses.keys| < 3 then |expenses.keys| else 3
  {
    var total := expenses.Total();
    Summary(total, incomeToDate - total, TopThree(Entries(expenses.keys, expenses.values)))
  }

  /** A hint of the local advice. */
  datatype Hint =
    | Overspend(totalExpenses: int, projectedIncome: int)
    | ProjectedSavings(saved: int)
    | TopSpending(top: seq<Entry>)

  /** The local fallback advice: the snapshot figures and the hints. */
  datatype Advice = Advice(incomeToDate: int, totalExpenses: int, net: int, hints: seq<Hint>)

  /** The hint about the projected income: none without a positive projected
      income; otherwise the overspend hint when spending exceeds it, else the
      projected savings, never negative. */
  function IncomeHint(projectedIncome: int, totalExpenses: int): (r: seq<Hint>)
    ensures |r| == if projectedIncome > 0 then 1 else 0
    ensures |r| == 1 ==> (r[0].Overspend? || r[0].ProjectedSavings?)
    ensures |r| == 1 ==> (r[0].Overspend? <==> totalExpenses > projectedIncome)
    ensures |r| == 1 && r[0].ProjectedSavings? ==> r[0].saved >= 0 && r[0].saved == projectedIncome - totalExpenses
  {
    if projectedIncome > 0 && totalExpenses > projectedIncome then [Overspend(totalExpenses, projectedIncome)]
    else if projectedIncome > 0 then [ProjectedSavings(Max(0, projectedIncome - totalExpenses))]
    else []
  }

  /** `localAdvisorResponse`: the snapshot figures, the income hint, then the
      top categories when there are any. */
  function LocalAdvice(projectedIncome: int, incomeToDate: int, expenses: Amounts): (a: Advice)
    ensures a.incomeToDate == incomeToDate
    ensures a.totalExpenses == expenses.Total() && a.net == incomeToDate - expenses.Total()
    ensures |a.hints| == (if projectedIncome > 0 then 1 else 0) + (if |expenses.keys| > 0 then 1 else 0)
    ensures a.hints[..if projectedIncome > 0 then 1 else 0] == IncomeHint(projectedIncome, expenses.Total())
    ensures forall i :: (if projectedIncome > 0 then 1 else 0) <= i < |a.hints| ==>
              a.hints[i] == TopSpending(TopThree(Entries(expenses.keys, expenses.values)))
  {
    var s := BuildContextSummary(incomeToDate, expenses);
    var topHint := if |s.topCats| > 0 then [TopSpending(s.topCats)] else [];
    Advice(incomeToDate, s.totalExpenses, s.net, IncomeHint(projectedIncome, s.totalExpenses) + topHint)
  }

  /** Who wrote a chat message. */
  datatype Role = User | Assistant

  const GREETING: string := "Ask me about spending, saving, or budget trade-offs. I’ll use your current month context."
  const NO_RESPONSE: string := "No response."

  /** The answer of a round trip to the advice endpoint: `None` for a network
      or server failure, otherwise the `answer` field (possibly empty). */
  type Reply = Option<string>

  /** A message's content: text, or the local advice shown after a failure. */
  datatype Content = Text(text: string) | Fallback(advice: Advice)

  /** What the assistant says for a reply: the answer, a stand-in for an empty
      one, or the local advice after a failure. */
  function ReplyContent(reply: Reply, projectedIncome: int, incomeToDate: int, expenses: Amounts): (c: Content)
    ensures c.Fallback? <==> reply.None?
    ensures reply.Some? && reply.value != "" ==> c == Text(reply.value)
    ensures reply.Some? && reply.value == "" ==> c == Text(NO_RESPONSE)
  {
    match reply
    case None => Fallback(LocalAdvice(projectedIncome, incomeToDate, expenses))
    case Some(answer) => Text(if answer != "" then answer else NO_RESPONSE)
  }

  datatype Message = Message(role: Role, content: Content)

  /** The chat: its messages and the input box. */
  class Chat {
    var messages: seq<Message>
    var input: string

    constructor ()
      ensures messages == [] && input == ""
    {
      messages, input := [], "";
    }

    /** Opening an empty chat greets the user; a chat with messages is left as it is. */
    method Open(open: bool)
      modifies this
      ensures open && old(messages) == [] ==> messages == [Message(Assistant, Text(GREETING))]
      ensures !(open && old(messages) == []) ==> messages == old(messages)
      ensures input == old(input)
    {
      if open && messages == [] {
        messages := [Message(Assistant, Text(GREETING))];
      }
    }

    /** `handleSend`: input that is empty once trimmed is ignored; otherwise the
        trimmed question is appended, the input cleared, and exactly one
        assistant message follows with what the reply gives. */
    method Send(reply: Reply, projectedIncome: int, incomeToDate: int, expenses: Amounts)
      modifies this
      ensures Trim(old(input)) == "" ==> messages == old(messages) && input == old(input)
      ensures Trim(old(input)) != "" ==>
        && messages == old(messages) + [Message(User, Text(Trim(old(input)))),
                                        Message(Assistant, ReplyContent(reply, projectedIncome, incomeToDate, expenses))]
        && input == ""
    {
      var text := Trim(input);
      if text == "" {
        return;
      }
      messages := messages + [Message(User, Text(text))];
      input := "";
      messages := messages + [Message(Assistant, ReplyContent(reply, projectedIncome, incomeToDate, expenses))];
    }
  }
}
