/**
 * Rendering of the two leaderboard messages (`format_coin_detail` and the
 * `+=` loops of `track_price_changes`).
 *
 * Number formatting (`:.2f`) and the Python representation of the list of
 * Fibonacci levels are library behaviour; they are parameters of the model.
 */
module Report {
  import opened CoinDetails
  import opened Ranking
  import Delivery

  /** The number formatters the templates use. */
  datatype Formatter = Formatter(fixed2: real -> string, levels: seq<real> -> string)

  const GainersHeader: string := "**Top 3 Coins with the Highest Positive Percentage Change**:\n"
  const LosersHeader: string := "\n**Top 3 Coins with the Highest Negative Percentage Change**:\n"

  /** The labels that open lines 1 to 7 of a coin's block, in order. */
  const Labels: seq<string> := [
    "Price: $", "Change: ", "Profit per $100 Invested: ", "Support: $",
    "Resistance: $", "Fibonacci Levels: ", "24h Volume: $"]

  /** The change text: the formatted percentage, or "No Change" exactly when it is 0. */
  function ChangeText(fmt: Formatter, percentageChange: real): (t: string)
    ensures t == "No Change" <==> percentageChange == 0.0
  {
    if percentageChange != 0.0 then
      var t := fmt.fixed2(percentageChange) + "%";
      assert t[|t| - 1] == '%' != "No Change"[8];
      t
    else "No Change"
  }

  /** The profit text: a dollar amount, "$0.00" when the profit is 0. */
  function ProfitText(fmt: Formatter, profit: real): (t: string)
    ensures |t| > 0 && t[0] == '$'
    ensures profit == 0.0 ==> t == "$0.00"
  {
    if profit != 0.0 then "$" + fmt.fixed2(profit) else "$0.00"
  }

  predicate IsPrefix(p: string, s: string)
  {
    |p| <= |s| && s[..|p|] == p
  }

  /** The eight lines of a coin's block. */
  function DetailLines(fmt: Formatter, d: CoinDetail): (ls: seq<string>)
    ensures |ls| == 8 && ls[0] == d.coin + ":\n"
  {
    [ d.coin + ":\n",
      "Price: $" + fmt.fixed2(d.newPrice) + "\n",
      "Change: " + ChangeText(fmt, d.percentageChange) + "\n",
      "Profit per $100 Invested: " + ProfitText(fmt, d.profitPer100Invested) + "\n",
      "Support: $" + fmt.fixed2(d.support) + "\n",
      "Resistance: $" + fmt.fixed2(d.resistance) + "\n",
      "Fibonacci Levels: " + fmt.levels(d.fibonacciLevels) + "\n",
      "24h Volume: $" + fmt.fixed2(d.volume) + "\n\n" ]
  }

  /** `format_coin_detail`: the block of one coin, its lines one after the other. */
  function FormatCoinDetail(fmt: Formatter, d: CoinDetail): string
  {
    var ls := DetailLines(fmt, d);
    ls[0] + ls[1] + ls[2] + ls[3] + ls[4] + ls[5] + ls[6] + ls[7]
  }

  /** `format_coin_detail` with the formatters fixed. */
  function Block(fmt: Formatter): CoinDetail -> string
  {
    d => FormatCoinDetail(fmt, d)
  }

  /** The blocks `render` gives for `ds`, one after the other. */
  function RenderAll(render: CoinDetail -> string, ds: seq<CoinDetail>): string
  {
    if ds == [] then "" else RenderAll(render, ds[..|ds| - 1]) + render(ds[|ds| - 1])
  }

  /** The gainers message of a sorted list. */
  function GainersMessage(fmt: Formatter, sorted: seq<CoinDetail>): (m: string)
    ensures IsPrefix(GainersHeader, m)
  {
    GainersHeader + RenderAll(Block(fmt), Gainers(sorted))
  }

  /** The losers message of a sorted list. */
  function LosersMessage(fmt: Formatter, sorted: seq<CoinDetail>): (m: string)
    ensures IsPrefix(LosersHeader, m)
  {
    LosersHeader + RenderAll(Block(fmt), Losers(sorted))
  }

  /** The `+=` loop: appends each record's block, as `formatCoinDetail` renders it, to the header. */
  method AppendBlocks(header: string, formatCoinDetail: CoinDetail -> string, ds: seq<CoinDetail>)
    returns (message: string)
    ensures message == header + RenderAll(formatCoinDetail, ds)
  {
    message := header;
    for i := 0 to |ds|
      invariant message == header + RenderAll(formatCoinDetail, ds[..i])
    {
      assert ds[..i + 1][..i] == ds[..i];
      message := message + formatCoinDetail(ds[i]);
    }
    assert ds[..|ds|] == ds;
  }

  /**
   * A coin's block consists of eight newline-terminated lines: the display
   * name, then one line opening with each label of `Labels` in order; the
   * change line says "No Change" exactly for a zero change; the last line
   * ends with a blank line.
   */
  lemma BlockLines(fmt: Formatter, d: CoinDetail)
    ensures var ls := DetailLines(fmt, d);
      |ls| == 8 && ls[0] == d.coin + ":\n" &&
      (forall k :: 1 <= k < 8 ==> IsPrefix(Labels[k - 1], ls[k]) && ls[k][|ls[k]| - 1] == '\n') &&
      (ls[2] == "Change: No Change\n" <==> d.percentageChange == 0.0) &&
      ls[7][|ls[7]| - 2] == '\n'
  {
    var ls := DetailLines(fmt, d);
    var t := ChangeText(fmt, d.percentageChange);
    assert ls[2][8..|ls[2]| - 1] == t;
    forall k | 1 <= k < 8
      ensures IsPrefix(Labels[k - 1], ls[k]) && ls[k][|ls[k]| - 1] == '\n'
    {
      if k == 1 { LabelledLine(Labels[0], fmt.fixed2(d.newPrice), "\n"); }
      else if k == 2 { LabelledLine(Labels[1], t, "\n"); }
      else if k == 3 { LabelledLine(Labels[2], ProfitText(fmt, d.profitPer100Invested), "\n"); }
      else if k == 4 { LabelledLine(Labels[3], fmt.fixed2(d.support), "\n"); }
      else if k == 5 { LabelledLine(Labels[4], fmt.fixed2(d.resistance), "\n"); }
      else if k == 6 { LabelledLine(Labels[5], fmt.levels(d.fibonacciLevels), "\n"); }
      else { LabelledLine(Labels[6], fmt.fixed2(d.volume), "\n\n"); }
    }
  }

  /**
   * The text of a block is its eight lines joined in order, so it opens with
   * the coin name and ":" and carries the seven labels in template order.
   */
  lemma BlockText(fmt: Formatter, d: CoinDetail)
    ensures FormatCoinDetail(fmt, d) == Delivery.Flatten(DetailLines(fmt, d))
    ensures IsPrefix(d.coin + ":\n", FormatCoinDetail(fmt, d))
  {
    JoinEight(DetailLines(fmt, d));
  }

  /** Joining eight strings one after the other is flattening them; the first is a prefix. */
  lemma JoinEight(ls: seq<string>)
    requires |ls| == 8
    ensures ls[0] + ls[1] + ls[2] + ls[3] + ls[4] + ls[5] + ls[6] + ls[7] == Delivery.Flatten(ls)
    ensures IsPrefix(ls[0], ls[0] + ls[1] + ls[2] + ls[3] + ls[4] + ls[5] + ls[6] + ls[7])
  {
    forall k | 0 <= k < 8
      ensures Delivery.Flatten(ls[k..]) == ls[k] + Delivery.Flatten(ls[k + 1..])
    {
      assert ls[k..][1..] == ls[k + 1..];
    }
    assert ls[8..] == [] && ls[0..] == ls;
    var rest := ls[1] + ls[2] + ls[3] + ls[4] + ls[5] + ls[6] + ls[7];
    assert Delivery.Flatten(ls[1..]) == rest;
    assert ls[0] + ls[1] + ls[2] + ls[3] + ls[4] + ls[5] + ls[6] + ls[7] == ls[0] + rest;
  }

  lemma LabelledLine(caption: string, value: string, end: string)
    requires |end| > 0 && end[|end| - 1] == '\n'
    ensures var line := caption + value + end;
      IsPrefix(caption, line) && line[|line| - 1] == '\n'
  {
    var line := caption + value + end;
    assert line[..|caption|] == caption;
    assert line[|line| - 1] == end[|end| - 1];
  }

  /** Rendering distributes over concatenation: blocks appear in list order. */
  lemma {:induction false} RenderAllAppend(render: CoinDetail -> string, a: seq<CoinDetail>, b: seq<CoinDetail>)
    ensures RenderAll(render, a + b) == RenderAll(render, a) + RenderAll(render, b)
  {
    if b == [] {
      assert a + b == a;
    } else {
      var init, last := b[..|b| - 1], b[|b| - 1];
      RenderAllAppend(render, a, init);
      assert (a + b)[..|a + b| - 1] == a + init;
    }
  }

  /**
   * The gainers message is the header followed by the blocks of the first
   * `min(3, n)` sorted records, the losers message the other header and the
   * blocks of the last `min(3, n)`; with no record both are the header alone.
   */
  lemma {:induction false} Messages(fmt: Formatter, sorted: seq<CoinDetail>)
    ensures var n := |sorted|; var k := if n < 3 then n else 3;
      GainersMessage(fmt, sorted) == GainersHeader + RenderAll(Block(fmt), sorted[..k]) &&
      LosersMessage(fmt, sorted) == LosersHeader + RenderAll(Block(fmt), sorted[n - k..])
    ensures sorted == [] ==> GainersMessage(fmt, sorted) == GainersHeader && LosersMessage(fmt, sorted) == LosersHeader
  {
  }
}
