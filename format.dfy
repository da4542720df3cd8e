/**
 * The `formatCurrency` and `formatPrice` helpers, which CoinTable, Markets,
 * Watchlist and the Portfolio page each define with identical bodies. Only
 * the tier they pick is modelled, not the digits `toFixed` or
 * `toLocaleString` print.
 */
module Format {

  /** The suffix `formatCurrency` appends. */
  datatype CurrencyTier = Trillions | Billions | Millions | Plain

  /** The scale the amount is divided by before printing with that suffix. */
  function Divisor(t: CurrencyTier): real
  {
    match t
    case Trillions => 1000000000000.0
    case Billions => 1000000000.0
    case Millions => 1000000.0
    case Plain => 1.0
  }

  function Rank(t: CurrencyTier): nat
  {
    match t
    case Plain => 0
    case Millions => 1
    case Billions => 2
    case Trillions => 3
  }

  /**
   * The tier of `formatCurrency(value)`: a suffix is chosen only for amounts
   * of at least a million, and then the printed mantissa is at least 1 and,
   * below the top tier, under 1000.
   */
  function CurrencyTierOf(value: real): (t: CurrencyTier)
    ensures t != Plain <==> value >= 1000000.0
    ensures t != Plain ==> 1.0 <= value / Divisor(t)
    ensures t != Plain && t != Trillions ==> value / Divisor(t) < 1000.0
    ensures t == Trillions <==> value >= 1000000000000.0
  {
    if value >= 1000000000000.0 then Trillions
    else if value >= 1000000000.0 then Billions
    else if value >= 1000000.0 then Millions
    else Plain
  }

  /** A larger amount never gets a smaller suffix. */
  lemma CurrencyTierMonotone(v: real, w: real)
    requires v <= w
    ensures Rank(CurrencyTierOf(v)) <= Rank(CurrencyTierOf(w))
  {
  }

  /** A negative amount, such as a loss, is printed without a suffix. */
  lemma NegativeAmountHasNoSuffix(v: real)
    requires v < 0.0
    ensures CurrencyTierOf(v) == Plain
  {
  }

  /** The precision `formatPrice` uses. */
  datatype PriceTier = Grouped | TwoDecimals | FourDecimals

  /** The tier of `formatPrice(price)`: sub-dollar prices get four decimals, prices from 1 to under 1000 two, larger ones digit grouping. */
  function PriceTierOf(price: real): (t: PriceTier)
    ensures t == Grouped <==> price >= 1000.0
    ensures t == TwoDecimals <==> 1.0 <= price < 1000.0
    ensures t == FourDecimals <==> price < 1.0
  {
    if price >= 1000.0 then Grouped
    else if price >= 1.0 then TwoDecimals
    else FourDecimals
  }
}
