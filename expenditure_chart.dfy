/** The expenditure breakdown chart: for every data row, in input order, a bar
    whose width is the row's amount relative to the largest one and a label
    showing the row's share of the total. */
module ExpenditureChart {
  import opened Collections
  import opened Records

  const ACCENT: string := "var(--accent)"

  /** One rendered bar: its name, amount, shown percentage, width in percent and colour. */
  datatype Bar = Bar(name: string, amount: int, shown: real, width: int, color: string)

  /** The placeholder for missing or empty data, or the bars. */
  datatype Chart = NoData | Bars(bars: seq<Bar>)

  /** `Math.round`: the nearest integer, halves rounded up. */
  function Round(x: real): (n: int)
    ensures n as real <= x + 0.5 < n as real + 1.0
  {
    (x + 0.5).Floor
  }

  /** The largest amount of a non-empty row list (`Math.max(...amounts)`). */
  function MaxAmount(rows: seq<Row>): (m: int)
    requires |rows| > 0
    ensures forall i :: 0 <= i < |rows| ==> rows[i].amount <= m
    ensures exists i :: 0 <= i < |rows| && rows[i].amount == m
  {
    if |rows| == 1 then rows[0].amount
    else
      var m := MaxAmount(rows[..|rows| - 1]);
      var last := rows[|rows| - 1].amount;
      assert forall i :: 0 <= i < |rows| - 1 ==> rows[..|rows| - 1][i] == rows[i];
      if last > m then last else m
  }

  /** The row's share of the total in percent, 0 when the total is 0. */
  function Share(amount: int, total: int): (p: real)
    ensures total == 0 ==> p == 0.0
    ensures total != 0 ==> p * (total as real) == (amount as real) * 100.0
  {
    if total != 0 then (amount as real / total as real) * 100.0 else 0.0
  }

  /** The bar width: the amount relative to the largest, in whole percent, 0 when the largest is 0. */
  function Width(amount: int, max: int): int {
    if max != 0 then Round((amount as real / max as real) * 100.0) else 0
  }

  /** A bar for a non-negative amount no larger than the maximum lies within
      0..100, and the largest amount gets the full width. */
  lemma WidthBounds(amount: int, max: int)
    requires 0 <= amount <= max
    ensures 0 <= Width(amount, max) <= 100
    ensures amount == max && max != 0 ==> Width(amount, max) == 100
  {
    if max != 0 {
      var x := (amount as real / max as real) * 100.0;
      assert x * (max as real) == (amount as real) * 100.0;
      assert 0.0 <= x <= 100.0;
      if amount == max {
        assert x == 100.0;
      }
    }
  }

  /** The bars for the rows, given the total and the largest amount. */
  function BuildBars(rows: seq<Row>, total: int, max: int): (bars: seq<Bar>)
    ensures |bars| == |rows|
    ensures forall i :: 0 <= i < |rows| ==>
      && bars[i].name == rows[i].name && bars[i].amount == rows[i].amount
      && bars[i].shown == (if rows[i].percentage != 0.0 then rows[i].percentage else Share(rows[i].amount, total))
      && bars[i].width == Width(rows[i].amount, max)
      && bars[i].color == (if rows[i].color != "" then rows[i].color else ACCENT)
  {
    if |rows| == 0 then []
    else
      var d := rows[|rows| - 1];
      BuildBars(rows[..|rows| - 1], total, max)
        + [Bar(d.name, d.amount, if d.percentage != 0.0 then d.percentage else Share(d.amount, total),
               Width(d.amount, max), if d.color != "" then d.color else ACCENT)]
  }

  /** The chart for the `data` prop; `None` stands for a value that is not an array. */
  function Render(data: Option<seq<Row>>): Chart {
    if data.None? || |data.value| == 0 then NoData
    else Bars(BuildBars(data.value, TotalAmount(data.value), MaxAmount(data.value)))
  }

  /** The placeholder shows exactly for missing or empty data; otherwise there
      is one bar per row, in input order. */
  lemma RenderShape(data: Option<seq<Row>>)
    ensures Render(data).NoData? <==> data.None? || |data.value| == 0
    ensures Render(data).Bars? ==> |Render(data).bars| == |data.value|
    ensures Render(data).Bars? ==> forall i :: 0 <= i < |data.value| ==> Render(data).bars[i].name == data.value[i].name
  {
  }

  /** With non-negative amounts every bar lies within 0..100, and every row
      carrying the largest amount, when it is not 0, gets the full width. */
  lemma RenderWidths(rows: seq<Row>)
    requires |rows| > 0 && forall i :: 0 <= i < |rows| ==> rows[i].amount >= 0
    ensures var bars := Render(Some(rows)).bars;
      && (forall i :: 0 <= i < |bars| ==> 0 <= bars[i].width <= 100)
      && (forall i :: 0 <= i < |bars| && rows[i].amount == MaxAmount(rows) && MaxAmount(rows) != 0 ==> bars[i].width == 100)
  {
    var max := MaxAmount(rows);
    forall i | 0 <= i < |rows|
      ensures 0 <= Width(rows[i].amount, max) <= 100
      ensures rows[i].amount == max && max != 0 ==> Width(rows[i].amount, max) == 100
    {
      WidthBounds(rows[i].amount, max);
    }
  }

  /** Sum of the computed shares. */
  function ShareTotal(rows: seq<Row>, total: int): real {
    if |rows| == 0 then 0.0 else ShareTotal(rows[..|rows| - 1], total) + Share(rows[|rows| - 1].amount, total)
  }

  lemma {:induction false} ShareTotalIsShareOfSum(rows: seq<Row>, total: int)
    ensures ShareTotal(rows, total) == Share(TotalAmount(rows), total)
  {
    if |rows| > 0 {
      ShareTotalIsShareOfSum(rows[..|rows| - 1], total);
    }
  }

  /** The computed shares of all rows add up to 100 whenever the total is not 0. */
  lemma SharesAddUpToHundred(rows: seq<Row>)
    requires TotalAmount(rows) != 0
    ensures ShareTotal(rows, TotalAmount(rows)) == 100.0
  {
    var t := TotalAmount(rows);
    ShareTotalIsShareOfSum(rows, t);
    Cancel(Share(t, t), 100.0, t as real);
  }

  /** A non-zero factor cancels. */
  lemma Cancel(x: real, y: real, b: real)
    requires b != 0.0 && x * b == y * b
    ensures x == y
  {
    assert (x - y) * b == 0.0;
  }
}
