/**
 * The coin records the pages receive from the proxy, the sort keys of the
 * Markets page, and the gainer/loser counts that Markets and Watchlist both
 * compute.
 */
module MarketData {
  import opened JsBuiltins

  /** One row of the `/api/coins` market listing. */
  datatype Coin = Coin(
    id: string,
    name: string,
    symbol: string,
    currentPrice: real,
    marketCap: real,
    totalVolume: real,
    change24h: real,
    sparkline: seq<real>)

  /** The fields of a `/api/coin/:id` detail response that the pages read. */
  datatype CoinInfo = CoinInfo(
    id: string,
    name: string,
    symbol: string,
    priceUsd: real,
    change24h: real)

  /** The orderings the Markets page offers. */
  datatype SortKey = MarketCap | Price | Volume | Change

  /** The `sortBy` value as the comparator's `switch` reads it: anything unrecognised sorts by market cap. */
  function SortKeyOf(sortBy: string): (k: SortKey)
    ensures k == Price <==> sortBy == "price"
    ensures k == Volume <==> sortBy == "volume"
    ensures k == Change <==> sortBy == "change"
    ensures k == MarketCap <==> sortBy !in {"price", "volume", "change"}
  {
    if sortBy == "market_cap" then MarketCap
    else if sortBy == "price" then Price
    else if sortBy == "volume" then Volume
    else if sortBy == "change" then Change
    else MarketCap
  }

  /** The field a sort key compares. */
  function KeyValue(c: Coin, k: SortKey): real
  {
    match k
    case MarketCap => c.marketCap
    case Price => c.currentPrice
    case Volume => c.totalVolume
    case Change => c.change24h
  }

  /** Largest first: every coin's key is at least that of any coin after it. */
  ghost predicate Descending(s: seq<Coin>, k: SortKey)
  {
    forall i, j :: 0 <= i < j < |s| ==> KeyValue(s[i], k) >= KeyValue(s[j], k)
  }

  predicate IsGainer(change: real) { change > 0.0 }
  predicate IsLoser(change: real) { change < 0.0 }
  predicate IsFlat(change: real) { change == 0.0 }

  /** The `{ gainers, losers }` statistics over a list of 24h changes. */
  datatype MoveStats = MoveStats(gainers: nat, losers: nat)

  function MoveStatsOf(changes: seq<real>): (st: MoveStats)
    ensures st.gainers == CountWhere(changes, IsGainer)
    ensures st.losers == CountWhere(changes, IsLoser)
    ensures st.gainers + st.losers <= |changes|
  {
    FilterDisjoint(changes, IsGainer, IsLoser);
    FilterLengthCounts(changes, IsGainer);
    FilterLengthCounts(changes, IsLoser);
    MoveStats(|Filter(changes, IsGainer)|, |Filter(changes, IsLoser)|)
  }

  /** Gainers, losers and unchanged coins together account for every coin: a zero change counts as neither. */
  lemma {:induction false} MovesPartition(changes: seq<real>)
    ensures var st := MoveStatsOf(changes);
      st.gainers + st.losers + |Filter(changes, IsFlat)| == |changes|
  {
    if changes != [] {
      MovesPartition(changes[1..]);
    }
  }

  /** The 24h changes of a list of coin records, in order; `change` picks the field. */
  function Changes<T>(items: seq<T>, change: T -> real): (changes: seq<real>)
    ensures |changes| == |items|
    ensures forall k :: 0 <= k < |items| ==> changes[k] == change(items[k])
  {
    seq(|items|, k requires 0 <= k < |items| => change(items[k]))
  }

  /** Counting over the extracted changes is counting over the records, with a record predicate r that asks q of the record's change. */
  lemma {:induction false} CountChanges<T>(items: seq<T>, change: T -> real, q: real -> bool, r: T -> bool)
    requires forall x :: r(x) == q(change(x))
    ensures CountWhere(Changes(items, change), q) == CountWhere(items, r)
  {
    if items != [] {
      CountChanges(items[..|items| - 1], change, q, r);
      assert Changes(items, change)[..|items| - 1] == Changes(items[..|items| - 1], change);
    }
  }

  lemma ChangesAppend<T>(front: seq<T>, back: seq<T>, change: T -> real)
    ensures Changes(front + back, change) == Changes(front, change) + Changes(back, change)
  {
  }

  /** A single change is a gainer, a loser or neither. */
  lemma MoveStatsOfSingle(change: real)
    ensures MoveStatsOf([change]) == MoveStats(if change > 0.0 then 1 else 0, if change < 0.0 then 1 else 0)
  {
  }

  /** The counts over a list are the sums of the counts over its parts. */
  lemma MoveStatsOfAppend(front: seq<real>, back: seq<real>)
    ensures var st, f, b := MoveStatsOf(front + back), MoveStatsOf(front), MoveStatsOf(back);
      st == MoveStats(f.gainers + b.gainers, f.losers + b.losers)
  {
    FilterConcat(front, back, IsGainer);
    FilterConcat(front, back, IsLoser);
  }
}
