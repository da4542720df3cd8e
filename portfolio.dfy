/**
 * The Portfolio page: holdings from the backend joined with live coin data,
 * the statistics loop over them, and the per-holding table rows.
 */
module Portfolio {
  import opened Wrappers
  import opened JsBuiltins
  import opened MarketData

  /** A holding as the backend stores it. */
  datatype PortfolioEntry = PortfolioEntry(coinId: string, quantity: real, buyPrice: real)

  /** A holding with the coin data fetched for it, when that fetch succeeded. */
  datatype PortfolioItem = PortfolioItem(coinId: string, quantity: real, buyPrice: real, coin: Option<CoinInfo>)

  /** The coin-detail request for one id; `None` when it fails. */
  type Fetcher = string -> Option<CoinInfo>

  /** The `Promise.all` map in `fetchPortfolio`: each holding gets its coin, or stays as it came when its request fails. */
  function AttachCoins(entries: seq<PortfolioEntry>, fetch: Fetcher): (r: seq<PortfolioItem>)
    ensures |r| == |entries|
    ensures forall k :: 0 <= k < |entries| ==>
              r[k] == PortfolioItem(entries[k].coinId, entries[k].quantity, entries[k].buyPrice, fetch(entries[k].coinId))
  {
    seq(|entries|, k requires 0 <= k < |entries| =>
      PortfolioItem(entries[k].coinId, entries[k].quantity, entries[k].buyPrice, fetch(entries[k].coinId)))
  }

  /** `if (item.coin)`: only holdings with coin data enter the statistics and the table. */
  predicate HasCoin(item: PortfolioItem) { item.coin.Some? }

  function CurrentValue(item: PortfolioItem): real
    requires HasCoin(item)
  {
    item.quantity * item.coin.value.priceUsd
  }

  function CostBasis(item: PortfolioItem): real
  {
    item.quantity * item.buyPrice
  }

  /** `((currentValue - costBasis) / costBasis) * 100`, with no guard against a zero cost basis. */
  function ItemPercentage(item: PortfolioItem): (p: Number)
    requires HasCoin(item)
    ensures CostBasis(item) != 0.0 ==> p.Finite?
    ensures p.PosInf? <==> CostBasis(item) == 0.0 && CurrentValue(item) > 0.0
    ensures p.NegInf? <==> CostBasis(item) == 0.0 && CurrentValue(item) < 0.0
    ensures p.NaN? <==> CostBasis(item) == 0.0 && CurrentValue(item) == 0.0
  {
    Scale(Divide(CurrentValue(item) - CostBasis(item), CostBasis(item)), 100.0)
  }

  /** Sum of the current values of the holdings that have coin data. */
  function TotalValue(items: seq<PortfolioItem>): real
  {
    if items == [] then 0.0
    else
      var last := items[|items| - 1];
      TotalValue(items[..|items| - 1]) + if HasCoin(last) then CurrentValue(last) else 0.0
  }

  /** Sum of the cost bases of the holdings that have coin data. */
  function TotalCost(items: seq<PortfolioItem>): real
  {
    if items == [] then 0.0
    else
      var last := items[|items| - 1];
      TotalCost(items[..|items| - 1]) + if HasCoin(last) then CostBasis(last) else 0.0
  }

  /** `{ symbol, percentage }` of the best-performing holding. */
  datatype BestPerformer = BestPerformer(symbol: string, percentage: Number)

  const NoBestPerformer := BestPerformer("N/A", Finite(0.0))

  /** The best performer after the loop has seen `items`: replaced only by a strictly greater percentage. */
  function Best(items: seq<PortfolioItem>): BestPerformer
  {
    if items == [] then NoBestPerformer
    else
      var b := Best(items[..|items| - 1]);
      var last := items[|items| - 1];
      if HasCoin(last) && Greater(ItemPercentage(last), b.percentage)
      then BestPerformer(ToUpper(last.coin.value.symbol), ItemPercentage(last))
      else b
  }

  /** `totalCost > 0 ? (totalPnL / totalCost) * 100 : 0`. */
  function PnLPercentage(totalValue: real, totalCost: real): (p: real)
    ensures totalCost <= 0.0 ==> p == 0.0
    ensures totalCost > 0.0 ==> (p > 0.0 <==> totalValue > totalCost) && (p < 0.0 <==> totalValue < totalCost)
  {
    if totalCost > 0.0 then (totalValue - totalCost) / totalCost * 100.0 else 0.0
  }

  datatype PortfolioStats = PortfolioStats(
    totalValue: real,
    totalPnL: real,
    totalPnLPercentage: real,
    assetCount: nat,
    bestPerformer: BestPerformer)

  /** `calculatePortfolioStats`: the `forEach` loop over the holdings. */
  method CalculatePortfolioStats(portfolio: seq<PortfolioItem>) returns (stats: PortfolioStats)
    ensures stats.totalValue == TotalValue(portfolio)
    ensures stats.totalPnL == TotalValue(portfolio) - TotalCost(portfolio)
    ensures stats.totalPnLPercentage == PnLPercentage(TotalValue(portfolio), TotalCost(portfolio))
    ensures stats.assetCount == |portfolio|
    ensures stats.bestPerformer == Best(portfolio)
  {
    var totalValue := 0.0;
    var totalCost := 0.0;
    var bestPerformer := NoBestPerformer;
    for i := 0 to |portfolio|
      invariant totalValue == TotalValue(portfolio[..i])
      invariant totalCost == TotalCost(portfolio[..i])
      invariant bestPerformer == Best(portfolio[..i])
    {
      assert portfolio[..i + 1][..i] == portfolio[..i];
      var item := portfolio[i];
      if item.coin.Some? {
        var currentValue := item.quantity * item.coin.value.priceUsd;
        var costBasis := item.quantity * item.buyPrice;
        totalValue := totalValue + currentValue;
        totalCost := totalCost + costBasis;
        var percentage := Scale(Divide(currentValue - costBasis, costBasis), 100.0);
        if Greater(percentage, bestPerformer.percentage) {
          bestPerformer := BestPerformer(ToUpper(item.coin.value.symbol), percentage);
        }
      }
    }
    assert portfolio[..|portfolio|] == portfolio;
    var totalPnL := totalValue - totalCost;
    var totalPnLPercentage := if totalCost > 0.0 then totalPnL / totalCost * 100.0 else 0.0;
    stats := PortfolioStats(totalValue, totalPnL, totalPnLPercentage, |portfolio|, bestPerformer);
  }

  /** Filtering the holdings one more element at a time. */
  lemma FilterHasCoinSnoc(items: seq<PortfolioItem>)
    requires items != []
    ensures var last := items[|items| - 1];
      Filter(items, HasCoin) == Filter(items[..|items| - 1], HasCoin) + if HasCoin(last) then [last] else []
  {
    var init, last := items[..|items| - 1], items[|items| - 1];
    assert items == init + [last];
    FilterConcat(init, [last], HasCoin);
  }

  /** Holdings whose coin request failed add nothing to the total value. */
  lemma {:induction false} MissingCoinsAddNoValue(items: seq<PortfolioItem>)
    ensures TotalValue(items) == TotalValue(Filter(items, HasCoin))
  {
    if items != [] {
      var init, last := items[..|items| - 1], items[|items| - 1];
      MissingCoinsAddNoValue(init);
      FilterHasCoinSnoc(items);
      var f, fi := Filter(items, HasCoin), Filter(init, HasCoin);
      if HasCoin(last) {
        assert f[..|f| - 1] == fi && f[|f| - 1] == last;
        assert TotalValue(f) == TotalValue(fi) + CurrentValue(last);
      } else {
        assert f == fi;
      }
    }
  }

  /** Holdings whose coin request failed add nothing to the total cost. */
  lemma {:induction false} MissingCoinsAddNoCost(items: seq<PortfolioItem>)
    ensures TotalCost(items) == TotalCost(Filter(items, HasCoin))
  {
    if items != [] {
      var init, last := items[..|items| - 1], items[|items| - 1];
      MissingCoinsAddNoCost(init);
      FilterHasCoinSnoc(items);
      var f, fi := Filter(items, HasCoin), Filter(init, HasCoin);
      if HasCoin(last) {
        assert f[..|f| - 1] == fi && f[|f| - 1] == last;
        assert TotalCost(f) == TotalCost(fi) + CostBasis(last);
      } else {
        assert f == fi;
      }
    }
  }

  /** Holdings whose coin request failed never become the best performer. */
  lemma {:induction false} MissingCoinsNeverBest(items: seq<PortfolioItem>)
    ensures Best(items) == Best(Filter(items, HasCoin))
  {
    if items != [] {
      var init, last := items[..|items| - 1], items[|items| - 1];
      MissingCoinsNeverBest(init);
      FilterHasCoinSnoc(items);
      var f, fi := Filter(items, HasCoin), Filter(init, HasCoin);
      if HasCoin(last) {
        assert f[..|f| - 1] == fi && f[|f| - 1] == last;
      } else {
        assert f == fi;
      }
    }
  }

  /** The best performer's percentage is never below the initial 0: a finite non-negative value or +Infinity. */
  lemma {:induction false} BestIsNonNegative(items: seq<PortfolioItem>)
    ensures AtLeast(Best(items).percentage, Finite(0.0))
  {
    if items != [] {
      BestIsNonNegative(items[..|items| - 1]);
      var b := Best(items[..|items| - 1]);
      GreaterIsStrictOrder(Best(items).percentage, b.percentage, Finite(0.0));
    }
  }

  /** No holding with coin data has a percentage greater than the best performer's. */
  lemma {:induction false} BestIsMaximal(items: seq<PortfolioItem>)
    ensures forall k :: 0 <= k < |items| && HasCoin(items[k]) ==> !Greater(ItemPercentage(items[k]), Best(items).percentage)
  {
    if items != [] {
      var init, last := items[..|items| - 1], items[|items| - 1];
      BestIsMaximal(init);
      BestIsNonNegative(init);
      var b, nb := Best(init), Best(items);
      forall k | 0 <= k < |items| && HasCoin(items[k])
        ensures !Greater(ItemPercentage(items[k]), nb.percentage)
      {
        var p := ItemPercentage(items[k]);
        if k == |items| - 1 {
          GreaterIsStrictOrder(p, b.percentage, b.percentage);
          GreaterIsStrictOrder(p, p, p);
        } else {
          assert items[k] == init[k];
          GreaterIsStrictOrder(p, b.percentage, b.percentage);
          GreaterIsStrictOrder(nb.percentage, b.percentage, p);
        }
      }
    }
  }

  /** The position of the holding that set the current best performer, if any did. */
  ghost function BestIndex(items: seq<PortfolioItem>): Option<nat>
  {
    if items == [] then None
    else
      var last := items[|items| - 1];
      if HasCoin(last) && Greater(ItemPercentage(last), Best(items[..|items| - 1]).percentage)
      then Some(|items| - 1)
      else BestIndex(items[..|items| - 1])
  }

  /**
   * A best performer other than "N/A" is one of the holdings, with its
   * upper-cased symbol and a percentage above 0, and ties keep the earliest:
   * no earlier holding's percentage is at least as large.
   */
  lemma {:induction false} BestIsEarliestHolding(items: seq<PortfolioItem>)
    ensures BestIndex(items).None? ==> Best(items) == NoBestPerformer
    ensures BestIndex(items).Some? ==>
              var k := BestIndex(items).value;
              k < |items| && HasCoin(items[k])
              && Best(items) == BestPerformer(ToUpper(items[k].coin.value.symbol), ItemPercentage(items[k]))
              && Greater(ItemPercentage(items[k]), Finite(0.0))
              && forall j :: 0 <= j < k && HasCoin(items[j]) ==> !AtLeast(ItemPercentage(items[j]), ItemPercentage(items[k]))
  {
    if items != [] {
      var init, last := items[..|items| - 1], items[|items| - 1];
      BestIsEarliestHolding(init);
      BestIsNonNegative(init);
      var b := Best(init);
      if BestIndex(items) == Some(|items| - 1) {
        var p := ItemPercentage(last);
        GreaterIsStrictOrder(p, b.percentage, Finite(0.0));
        BestIsMaximal(init);
        forall j | 0 <= j < |items| - 1 && HasCoin(items[j])
          ensures !AtLeast(ItemPercentage(items[j]), p)
        {
          assert items[j] == init[j];
          GreaterIsStrictOrder(ItemPercentage(items[j]), p, b.percentage);
        }
      } else if BestIndex(init).Some? {
        var k := BestIndex(init).value;
        assert items[k] == init[k];
        assert forall j :: 0 <= j < k ==> items[j] == init[j];
      }
    }
  }

  /** One rendered table row: `pnl` and `pnlPercentage` as the row computes them. */
  datatype HoldingRow = HoldingRow(coinId: string, currentValue: real, costBasis: real, pnl: real, pnlPercentage: Number)

  /** `portfolio.map(...)` in the table: a row per holding with coin data (`return null` for the rest). */
  function Rows(items: seq<PortfolioItem>): (rows: seq<HoldingRow>)
    ensures |rows| == |Filter(items, HasCoin)|
  {
    if items == [] then []
    else
      var last := items[|items| - 1];
      FilterConcat(items[..|items| - 1], [last], HasCoin);
      assert items[..|items| - 1] + [last] == items;
      Rows(items[..|items| - 1]) + if HasCoin(last) then [RowOf(last)] else []
  }

  /** The row of one holding with coin data. */
  function RowOf(item: PortfolioItem): HoldingRow
    requires HasCoin(item)
  {
    HoldingRow(item.coinId, CurrentValue(item), CostBasis(item),
               CurrentValue(item) - CostBasis(item),
               Scale(Divide(CurrentValue(item) - CostBasis(item), CostBasis(item)), 100.0))
  }

  /**
   * The k-th row belongs to the k-th holding with coin data: its value is
   * `quantity * current_price`, its P&L `quantity * current_price - quantity * buyPrice`.
   */
  lemma RowsFollowHoldings(items: seq<PortfolioItem>)
    ensures forall k :: 0 <= k < |Rows(items)| ==>
              var it := Filter(items, HasCoin)[k];
              Rows(items)[k] == HoldingRow(it.coinId, it.quantity * it.coin.value.priceUsd, it.quantity * it.buyPrice,
                                           it.quantity * it.coin.value.priceUsd - it.quantity * it.buyPrice,
                                           ItemPercentage(it))
  {
    RowsAreRowOf(items);
  }

  lemma {:induction false} RowsAreRowOf(items: seq<PortfolioItem>)
    ensures forall k :: 0 <= k < |Rows(items)| ==> Rows(items)[k] == RowOf(Filter(items, HasCoin)[k])
  {
    if items != [] {
      var init, last := items[..|items| - 1], items[|items| - 1];
      RowsAreRowOf(init);
      FilterConcat(init, [last], HasCoin);
      assert init + [last] == items;
      if HasCoin(last) {
        assert Filter(items, HasCoin) == Filter(init, HasCoin) + [last];
        assert Rows(items) == Rows(init) + [RowOf(last)];
      } else {
        assert Filter(items, HasCoin) == Filter(init, HasCoin);
        assert Rows(items) == Rows(init);
      }
    }
  }

  function SumPnL(rows: seq<HoldingRow>): real
  {
    if rows == [] then 0.0 else SumPnL(rows[..|rows| - 1]) + rows[|rows| - 1].pnl
  }

  lemma {:induction false} SumPnLAppend(a: seq<HoldingRow>, b: seq<HoldingRow>)
    ensures SumPnL(a + b) == SumPnL(a) + SumPnL(b)
  {
    if b != [] {
      SumPnLAppend(a, b[..|b| - 1]);
      assert (a + b)[..|a + b| - 1] == a + b[..|b| - 1];
    } else {
      assert a + b == a;
    }
  }

  /** The rows' profit-and-loss figures add up to the total P&L of the statistics, and each row's percentage is the one the best-performer search compares. */
  lemma {:induction false} RowsAgreeWithStats(items: seq<PortfolioItem>)
    ensures SumPnL(Rows(items)) == TotalValue(items) - TotalCost(items)
    ensures forall k :: 0 <= k < |Rows(items)| ==>
              exists j :: 0 <= j < |items| && HasCoin(items[j]) && Rows(items)[k].pnlPercentage == ItemPercentage(items[j])
  {
    if items != [] {
      var init, last := items[..|items| - 1], items[|items| - 1];
      RowsAgreeWithStats(init);
      var tail := if HasCoin(last) then [RowOf(last)] else [];
      assert Rows(items) == Rows(init) + tail;
      SumPnLAppend(Rows(init), tail);
      forall k | 0 <= k < |Rows(items)|
        ensures exists j :: 0 <= j < |items| && HasCoin(items[j]) && Rows(items)[k].pnlPercentage == ItemPercentage(items[j])
      {
        if k < |Rows(init)| {
          var j :| 0 <= j < |init| && HasCoin(init[j]) && Rows(init)[k].pnlPercentage == ItemPercentage(init[j]);
          assert items[j] == init[j];
        } else {
          assert Rows(items)[k] == RowOf(last) && RowOf(last).pnlPercentage == ItemPercentage(last);
        }
      }
    }
  }

  /** The page's state. */
  class PortfolioPage {
    var portfolio: seq<PortfolioItem>
    var loading: bool

    constructor ()
      ensures portfolio == [] && loading
    {
      portfolio, loading := [], true;
    }

    /**
     * `fetchPortfolio`: `response` is the `/api/portfolio` result (`None` when
     * that request fails, which keeps the holdings shown), `fetch` the per-coin
     * request.
     */
    method FetchPortfolio(response: Option<seq<PortfolioEntry>>, fetch: Fetcher)
      modifies this
      ensures portfolio == if response.Some? then AttachCoins(response.value, fetch) else old(portfolio)
      ensures !loading
    {
      loading := true;
      if response.Some? {
        portfolio := AttachCoins(response.value, fetch);
      }
      loading := false;
    }

    /** `calculatePortfolioStats()` over the page's holdings. */
    method Stats() returns (stats: PortfolioStats)
      ensures stats.assetCount == |portfolio|
      ensures stats.totalValue == TotalValue(portfolio) && stats.bestPerformer == Best(portfolio)
      ensures stats.totalPnL == TotalValue(portfolio) - TotalCost(portfolio)
      ensures stats.totalPnLPercentage == PnLPercentage(TotalValue(portfolio), TotalCost(portfolio))
    {
      stats := CalculatePortfolioStats(portfolio);
    }
  }
}
