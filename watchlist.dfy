/**
 * The Watchlist page: the saved list of coin ids, the coins fetched for
 * them, and the gainer/loser statistics over those coins.
 */
module Watchlist {
  import opened Wrappers
  import opened MarketData
  import opened JsBuiltins
  import WatchlistOps
  import Storage

  /** The result of one `/api/coin/:id` request, by id: the coin, or nothing when the request failed. */
  type Fetcher = string -> Option<CoinInfo>

  /** `coinsData.filter(coin => coin !== null)` over one request per id: the coins that arrived, in watchlist order. */
  function FetchedCoins(ids: seq<string>, fetch: Fetcher): (coins: seq<CoinInfo>)
    ensures |coins| <= |ids|
  {
    if ids == [] then []
    else (match fetch(ids[0]) case Some(c) => [c] case None => []) + FetchedCoins(ids[1..], fetch)
  }

  /** Fetching a list in two parts gives the two results one after the other: the watchlist order is kept. */
  lemma {:induction false} FetchedCoinsAppend(a: seq<string>, b: seq<string>, fetch: Fetcher)
    ensures FetchedCoins(a + b, fetch) == FetchedCoins(a, fetch) + FetchedCoins(b, fetch)
  {
    if a != [] {
      assert (a + b)[0] == a[0];
      assert (a + b)[1..] == a[1..] + b;
      FetchedCoinsAppend(a[1..], b, fetch);
    } else {
      assert a + b == b;
    }
  }

  /** Every coin shown was fetched for some id on the watchlist. */
  lemma {:induction false} FetchedCoinsComeFromIds(ids: seq<string>, fetch: Fetcher, k: int)
    requires 0 <= k < |FetchedCoins(ids, fetch)|
    ensures exists i :: 0 <= i < |ids| && fetch(ids[i]) == Some(FetchedCoins(ids, fetch)[k])
  {
    var rest := FetchedCoins(ids[1..], fetch);
    if fetch(ids[0]).Some? && k == 0 {
      assert fetch(ids[0]) == Some(FetchedCoins(ids, fetch)[0]);
    } else {
      var k' := if fetch(ids[0]).Some? then k - 1 else k;
      assert FetchedCoins(ids, fetch)[k] == rest[k'];
      FetchedCoinsComeFromIds(ids[1..], fetch, k');
      var i :| 0 <= i < |ids[1..]| && fetch(ids[1..][i]) == Some(rest[k']);
      assert fetch(ids[i + 1]) == Some(FetchedCoins(ids, fetch)[k]);
    }
  }

  /** When no request fails, the page shows one coin per id, position by position. */
  lemma {:induction false} FetchedCoinsAllSucceed(ids: seq<string>, fetch: Fetcher)
    requires forall i :: 0 <= i < |ids| ==> fetch(ids[i]).Some?
    ensures |FetchedCoins(ids, fetch)| == |ids|
    ensures forall i :: 0 <= i < |ids| ==> FetchedCoins(ids, fetch)[i] == fetch(ids[i]).value
  {
    if ids != [] {
      FetchedCoinsAllSucceed(ids[1..], fetch);
      assert forall i :: 1 <= i < |ids| ==> FetchedCoins(ids, fetch)[i] == FetchedCoins(ids[1..], fetch)[i - 1];
    }
  }

  predicate Gains(c: CoinInfo) { c.change24h > 0.0 }
  predicate Loses(c: CoinInfo) { c.change24h < 0.0 }

  /** `getWatchlistStats`: gainers are the watched coins with a positive 24h change, losers those with a negative one. */
  function WatchlistStats(coins: seq<CoinInfo>): (st: MoveStats)
    ensures st.gainers == CountWhere(coins, Gains)
    ensures st.losers == CountWhere(coins, Loses)
    ensures st.gainers + st.losers <= |coins|
  {
    CountChanges(coins, (c: CoinInfo) => c.change24h, IsGainer, Gains);
    CountChanges(coins, (c: CoinInfo) => c.change24h, IsLoser, Loses);
    MoveStatsOf(Changes(coins, (c: CoinInfo) => c.change24h))
  }

  /** One watched coin counts as a gainer iff its change is positive and as a loser iff it is negative. */
  lemma WatchlistStatsSingle(c: CoinInfo)
    ensures WatchlistStats([c]) == MoveStats(if c.change24h > 0.0 then 1 else 0, if c.change24h < 0.0 then 1 else 0)
  {
    assert Changes([c], (c: CoinInfo) => c.change24h) == [c.change24h];
    MoveStatsOfSingle(c.change24h);
  }

  /** The statistics of the watched coins are the sums over their parts. */
  lemma WatchlistStatsAppend(front: seq<CoinInfo>, back: seq<CoinInfo>)
    ensures var st, f, b := WatchlistStats(front + back), WatchlistStats(front), WatchlistStats(back);
      st == MoveStats(f.gainers + b.gainers, f.losers + b.losers)
  {
    ChangesAppend(front, back, (c: CoinInfo) => c.change24h);
    MoveStatsOfAppend(Changes(front, (c: CoinInfo) => c.change24h), Changes(back, (c: CoinInfo) => c.change24h));
  }

  class WatchlistPage {
    var watchlist: seq<string>
    var watchlistCoins: seq<CoinInfo>
    var loading: bool
    const store: Storage.Slot<seq<string>>

    constructor (store: Storage.Slot<seq<string>>)
      ensures this.store == store
      ensures watchlist == [] && watchlistCoins == [] && loading
    {
      this.store := store;
      watchlist, watchlistCoins, loading := [], [], true;
    }

    /** `loadWatchlist`: a saved list replaces the state; with nothing saved the state stays. */
    method LoadWatchlist()
      modifies this`watchlist
      ensures watchlist == if store.value.Some? then store.value.value else old(watchlist)
    {
      if store.value.Some? {
        watchlist := store.value.value;
      }
    }

    /** `saveWatchlist`: the same list goes to storage and to the state. */
    method SaveWatchlist(newWatchlist: seq<string>)
      modifies this`watchlist, store
      ensures watchlist == newWatchlist && store.value == Some(newWatchlist)
    {
      store.value := Some(newWatchlist);
      watchlist := newWatchlist;
    }

    /** `toggleWatchlist`: the id's membership flips, every other id keeps its membership and order, and the result is saved. */
    method ToggleWatchlist(coinId: string)
      modifies this`watchlist, store
      ensures watchlist == WatchlistOps.Toggle(old(watchlist), coinId)
      ensures store.value == Some(watchlist)
    {
      SaveWatchlist(WatchlistOps.Toggle(watchlist, coinId));
    }

    /**
     * `fetchWatchlistCoins`: an empty watchlist clears the coins without a
     * request; otherwise one request per id, and the coins that arrived are
     * kept in watchlist order. Returns the ids requested.
     */
    method FetchWatchlistCoins(fetch: Fetcher) returns (requested: seq<string>)
      modifies this`watchlistCoins, this`loading
      ensures watchlist == [] ==> requested == [] && watchlistCoins == []
      ensures watchlist != [] ==> requested == watchlist && watchlistCoins == FetchedCoins(watchlist, fetch)
      ensures !loading
    {
      if |watchlist| == 0 {
        watchlistCoins := [];
        loading := false;
        requested := [];
        return;
      }
      requested := watchlist;
      watchlistCoins := FetchedCoins(watchlist, fetch);
      loading := false;
    }
  }
}
