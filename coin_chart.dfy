/**
 * The price chart component: its default props, the date labels it
 * generates for the selected period, and the period-dependent styling.
 */
module CoinChart {
  import opened Wrappers

  /** The component's props after JavaScript's parameter defaults are applied. */
  datatype ChartProps = ChartProps(prices: seq<real>, title: string, isPositive: bool, timePeriod: string)

  /** Default parameters apply only to props that are not passed (`undefined`); an empty title stays empty. */
  function WithDefaults(prices: seq<real>, title: Option<string>, isPositive: Option<bool>, timePeriod: Option<string>): (p: ChartProps)
    ensures p.prices == prices
    ensures p.title == if title.Some? then title.value else "Price Chart"
    ensures p.isPositive == (isPositive.None? || isPositive.value)
    ensures p.timePeriod == if timePeriod.Some? then timePeriod.value else "30d"
  {
    ChartProps(
      prices,
      match title case Some(t) => t case None => "Price Chart",
      match isPositive case Some(b) => b case None => true,
      match timePeriod case Some(t) => t case None => "30d")
  }

  /** The `switch (timePeriod)` in `generateDates`: an unknown period charts 30 days. */
  function ChartDays(timePeriod: string): (days: nat)
    ensures days in {7, 30, 90, 365}
    ensures days == 7 <==> timePeriod == "7d"
    ensures days == 90 <==> timePeriod == "90d"
    ensures days == 365 <==> timePeriod == "1y"
    ensures days == 30 <==> timePeriod !in {"7d", "90d", "1y"}
  {
    match timePeriod
    case "7d" => 7
    case "30d" => 30
    case "90d" => 90
    case "1y" => 365
    case _ => 30
  }

  /**
   * `generateDates`, with each label as a day number (`today` is the current
   * day): the loop counts `i` down from `days - 1` to 0 and pushes
   * `today - i`, so the labels are consecutive days ending today.
   */
  method GenerateDates(timePeriod: string, today: int) returns (dates: seq<int>)
    ensures |dates| == ChartDays(timePeriod)
    ensures forall k :: 0 <= k < |dates| ==> dates[k] == today - (|dates| - 1 - k)
    ensures dates[|dates| - 1] == today
    ensures forall k :: 0 <= k < |dates| - 1 ==> dates[k + 1] == dates[k] + 1
  {
    var days := ChartDays(timePeriod);
    dates := [];
    var i := days - 1;
    while i >= 0
      invariant -1 <= i <= days - 1
      invariant |dates| == days - 1 - i
      invariant forall k :: 0 <= k < |dates| ==> dates[k] == today - (days - 1 - k)
    {
      dates := dates + [today - i];
      i := i - 1;
    }
  }

  datatype PaletteColour = SuccessMain | ErrorMain

  /** `chartColor`: the success colour for a rising coin, the error colour otherwise. */
  function ChartColor(isPositive: bool): (c: PaletteColour)
    ensures c == SuccessMain <==> isPositive
  {
    if isPositive then SuccessMain else ErrorMain
  }

  /** Points are drawn smaller on the one-year chart. */
  function PointRadius(timePeriod: string): (r: nat)
    ensures r == 1 <==> timePeriod == "1y"
    ensures r == 3 <==> timePeriod != "1y"
  {
    if timePeriod == "1y" then 1 else 3
  }

  /** The one-year chart allows more x-axis ticks. */
  function MaxTicksLimit(timePeriod: string): (n: nat)
    ensures n == 12 <==> timePeriod == "1y"
    ensures n == 6 <==> timePeriod != "1y"
  {
    if timePeriod == "1y" then 12 else 6
  }

  /** `display: !!title`: the title is shown only when it is non-empty. */
  function TitleDisplayed(title: string): (shown: bool)
    ensures shown <==> |title| > 0
  {
    title != ""
  }

  /** Without a title prop the chart shows its default title. */
  lemma DefaultTitleShown(prices: seq<real>, isPositive: Option<bool>, timePeriod: Option<string>)
    ensures TitleDisplayed(WithDefaults(prices, None, isPositive, timePeriod).title)
  {
  }
}
