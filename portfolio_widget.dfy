/**
 * The stand-alone portfolio table component: holdings priced against the
 * market listing, with a profit/loss column coloured by its sign.
 */
module PortfolioWidget {
  import opened Wrappers
  import opened JsBuiltins
  import opened MarketData
  import opened Portfolio

  /** `getCurrentPrice`: the price of the first listed coin with that id, or 0 when none is listed. */
  function GetCurrentPrice(coins: seq<Coin>, coinId: string): (price: real)
    ensures (forall k :: 0 <= k < |coins| ==> coins[k].id != coinId) ==> price == 0.0
    ensures forall k :: (0 <= k < |coins| && coins[k].id == coinId && forall j :: 0 <= j < k ==> coins[j].id != coinId)
              ==> price == coins[k].currentPrice
  {
    match FindIndex(coins, (c: Coin) => c.id == coinId)
    case Some(k) => coins[k].currentPrice
    case None => 0.0
  }

  /** `calculateProfit`: `(currentPrice - buyPrice) * quantity`. */
  function CalculateProfit(coins: seq<Coin>, item: PortfolioEntry): (profit: real)
    ensures profit == GetCurrentPrice(coins, item.coinId) * item.quantity - item.buyPrice * item.quantity
    ensures GetCurrentPrice(coins, item.coinId) == item.buyPrice ==> profit == 0.0
  {
    (GetCurrentPrice(coins, item.coinId) - item.buyPrice) * item.quantity
  }

  datatype Colour = Green | Red

  /** The profit cell is green for a strict profit and red otherwise, a zero profit included. */
  function ProfitColour(profit: real): (c: Colour)
    ensures c == Green <==> profit > 0.0
  {
    if profit > 0.0 then Green else Red
  }

  lemma ProductPositive(x: real, y: real)
    requires y > 0.0
    ensures x * y > 0.0 <==> x > 0.0
  {
    if x > 0.0 {
      assert x * y > 0.0;
    } else {
      assert x * y <= 0.0;
    }
  }

  /** For a positive quantity the cell is green exactly when the listed price is above the buy price. */
  lemma {:induction false} GreenIffPriceAboveBuy(coins: seq<Coin>, item: PortfolioEntry)
    requires item.quantity > 0.0
    ensures ProfitColour(CalculateProfit(coins, item)) == Green
            <==> GetCurrentPrice(coins, item.coinId) > item.buyPrice
  {
    ProductPositive(GetCurrentPrice(coins, item.coinId) - item.buyPrice, item.quantity);
  }

  /** A holding whose coin is missing from the listing is valued at 0, so it shows the whole cost as a loss. */
  lemma MissingCoinLoss(coins: seq<Coin>, item: PortfolioEntry)
    requires forall k :: 0 <= k < |coins| ==> coins[k].id != item.coinId
    ensures CalculateProfit(coins, item) == -(item.buyPrice * item.quantity)
  {
  }

  /** The component's state: the holdings and the market listing, each refreshed on its own. */
  class PortfolioWidget {
    var portfolio: seq<PortfolioEntry>
    var coins: seq<Coin>

    constructor ()
      ensures portfolio == [] && coins == []
    {
      portfolio, coins := [], [];
    }

    /** `fetchPortfolio`: a failed request keeps the holdings shown. */
    method FetchPortfolio(response: Option<seq<PortfolioEntry>>)
      modifies this`portfolio
      ensures portfolio == if response.Some? then response.value else old(portfolio)
    {
      if response.Some? {
        portfolio := response.value;
      }
    }

    /** `fetchCoins`: a failed request keeps the listing shown. */
    method FetchCoins(response: Option<seq<Coin>>)
      modifies this`coins
      ensures coins == if response.Some? then response.value else old(coins)
    {
      if response.Some? {
        coins := response.value;
      }
    }

    /** The profit column of the table, row by row. */
    function Profits(): (r: seq<real>)
      reads this
      ensures |r| == |portfolio|
      ensures forall k :: 0 <= k < |portfolio| ==> r[k] == CalculateProfit(coins, portfolio[k])
    {
      seq(|portfolio|, k requires 0 <= k < |portfolio| reads this => CalculateProfit(coins, portfolio[k]))
    }
  }
}
