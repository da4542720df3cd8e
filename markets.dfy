/**
 * The Markets page: the search filter and the descending sort, the
 * gainer/loser statistics, and the watchlist it keeps in local storage.
 */
module Markets {
  import opened Wrappers
  import opened JsBuiltins
  import opened MarketData
  import WatchlistOps
  import Storage

  /** The search test: the lower-cased name or symbol includes the lower-cased search text. */
  predicate Matches(c: Coin, search: string)
  {
    Includes(ToLower(c.name), ToLower(search)) || Includes(ToLower(c.symbol), ToLower(search))
  }

  /** `coins.filter(...)`: the coins that match, in listing order. */
  function FilterCoins(coins: seq<Coin>, search: string): (r: seq<Coin>)
    ensures |r| <= |coins|
    ensures forall k :: 0 <= k < |r| ==> r[k] in coins && Matches(r[k], search)
    ensures forall k :: 0 <= k < |coins| && Matches(coins[k], search) ==> coins[k] in r
    ensures multiset(r) <= multiset(coins)
  {
    FilterSubMultiset(coins, c => Matches(c, search));
    Filter(coins, c => Matches(c, search))
  }

  /** One coin is kept exactly when it matches. */
  lemma FilterCoinsSingle(c: Coin, search: string)
    ensures FilterCoins([c], search) == if Matches(c, search) then [c] else []
  {
  }

  /** Filtering works part by part, so the kept coins stay in listing order. */
  lemma FilterCoinsAppend(front: seq<Coin>, back: seq<Coin>, search: string)
    ensures FilterCoins(front + back, search) == FilterCoins(front, search) + FilterCoins(back, search)
  {
    FilterConcat(front, back, c => Matches(c, search));
  }

  /** An empty search keeps every coin. */
  lemma EmptySearchKeepsAll(coins: seq<Coin>)
    ensures FilterCoins(coins, "") == coins
  {
    forall k | 0 <= k < |coins| ensures Matches(coins[k], "") {
      IncludesEmpty(ToLower(coins[k].name));
    }
    FilterKeepsAll(coins, c => Matches(c, ""));
  }

  /** The first n elements of a are in descending key order. */
  ghost predicate DescendingUpTo(a: array<Coin>, n: int, key: SortKey)
    reads a
    requires 0 <= n <= a.Length
  {
    forall p, q :: 0 <= p < q < n ==> KeyValue(a[p], key) >= KeyValue(a[q], key)
  }

  /** Exchange two neighbouring elements. */
  method SwapDown(a: array<Coin>, j: int)
    requires 0 < j < a.Length
    modifies a
    ensures a[j - 1] == old(a[j]) && a[j] == old(a[j - 1])
    ensures forall m :: 0 <= m < a.Length && m != j - 1 && m != j ==> a[m] == old(a[m])
    ensures multiset(a[..]) == multiset(old(a[..]))
  {
    a[j - 1], a[j] := a[j], a[j - 1];
  }

  /** Move a[i] down into the sorted prefix a[..i]. */
  method InsertDown(a: array<Coin>, i: int, key: SortKey)
    requires 0 <= i < a.Length && DescendingUpTo(a, i, key)
    modifies a
    ensures DescendingUpTo(a, i + 1, key)
    ensures multiset(a[..]) == multiset(old(a[..]))
  {
    var j := i;
    while j > 0 && KeyValue(a[j - 1], key) < KeyValue(a[j], key)
      invariant 0 <= j <= i
      invariant multiset(a[..]) == multiset(old(a[..]))
      invariant forall p, q :: 0 <= p < q <= i && q != j ==> KeyValue(a[p], key) >= KeyValue(a[q], key)
      invariant 0 < j < i ==> KeyValue(a[j - 1], key) >= KeyValue(a[j + 1], key)
    {
      SwapDown(a, j);
      j := j - 1;
    }
  }

  /** `filtered.sort(...)`: sorts in place, largest key first. */
  method SortDescending(a: array<Coin>, key: SortKey)
    modifies a
    ensures Descending(a[..], key)
    ensures multiset(a[..]) == multiset(old(a[..]))
  {
    var i := 0;
    while i < a.Length
      invariant 0 <= i <= a.Length
      invariant DescendingUpTo(a, i, key)
      invariant multiset(a[..]) == multiset(old(a[..]))
    {
      InsertDown(a, i, key);
      i := i + 1;
    }
  }

  /**
   * `filterAndSortCoins`: the matching coins, largest first by the chosen
   * key; nothing is added, dropped or duplicated on the way.
   */
  method FilterAndSortCoins(coins: seq<Coin>, search: string, sortBy: string) returns (sorted: seq<Coin>)
    ensures multiset(sorted) == multiset(FilterCoins(coins, search))
    ensures Descending(sorted, SortKeyOf(sortBy))
    ensures forall k :: 0 <= k < |sorted| ==> sorted[k] in coins && Matches(sorted[k], search)
  {
    var filtered := FilterCoins(coins, search);
    var a := new Coin[|filtered|](k requires 0 <= k < |filtered| => filtered[k]);
    assert a[..] == filtered;
    SortDescending(a, SortKeyOf(sortBy));
    sorted := a[..];
    forall k | 0 <= k < |sorted| ensures sorted[k] in coins && Matches(sorted[k], search) {
      assert sorted[k] in multiset(filtered);
    }
  }

  predicate Gains(c: Coin) { c.change24h > 0.0 }
  predicate Loses(c: Coin) { c.change24h < 0.0 }

  /** `getMarketStats`: gainers are the coins with a positive 24h change, losers those with a negative one. */
  function MarketStats(coins: seq<Coin>): (st: MoveStats)
    ensures st.gainers == CountWhere(coins, Gains)
    ensures st.losers == CountWhere(coins, Loses)
    ensures st.gainers + st.losers <= |coins|
  {
    CountChanges(coins, (c: Coin) => c.change24h, IsGainer, Gains);
    CountChanges(coins, (c: Coin) => c.change24h, IsLoser, Loses);
    MoveStatsOf(Changes(coins, (c: Coin) => c.change24h))
  }

  /** One coin counts as a gainer iff its change is positive and as a loser iff it is negative. */
  lemma MarketStatsSingle(c: Coin)
    ensures MarketStats([c]) == MoveStats(if c.change24h > 0.0 then 1 else 0, if c.change24h < 0.0 then 1 else 0)
  {
    assert Changes([c], (c: Coin) => c.change24h) == [c.change24h];
    MoveStatsOfSingle(c.change24h);
  }

  /** The statistics of a listing are the sums over its parts. */
  lemma MarketStatsAppend(front: seq<Coin>, back: seq<Coin>)
    ensures var st, f, b := MarketStats(front + back), MarketStats(front), MarketStats(back);
      st == MoveStats(f.gainers + b.gainers, f.losers + b.losers)
  {
    ChangesAppend(front, back, (c: Coin) => c.change24h);
    MoveStatsOfAppend(Changes(front, (c: Coin) => c.change24h), Changes(back, (c: Coin) => c.change24h));
  }

  /** The Markets page's state and the `watchlist` storage key it shares with the Watchlist page. */
  class MarketsPage {
    var coins: seq<Coin>
    var filteredCoins: seq<Coin>
    var search: string
    var sortBy: string
    var loading: bool
    var watchlist: seq<string>
    const store: Storage.Slot<seq<string>>

    constructor (store: Storage.Slot<seq<string>>)
      ensures this.store == store
      ensures coins == [] && filteredCoins == [] && search == "" && sortBy == "market_cap"
      ensures loading && watchlist == []
    {
      this.store := store;
      coins, filteredCoins, search, sortBy, loading, watchlist := [], [], "", "market_cap", true, [];
    }

    /** `fetchCoins`: a listing replaces the coins, a failed request keeps them; loading ends either way. */
    method FetchCoins(response: Option<seq<Coin>>)
      modifies this`coins, this`loading
      ensures coins == if response.Some? then response.value else old(coins)
      ensures !loading
    {
      if response.Some? {
        coins := response.value;
      }
      loading := false;
    }

    /** Typing in the search box. */
    method SetSearch(text: string)
      modifies this`search
      ensures search == text
    {
      search := text;
    }

    /** Picking an entry of the "Sort By" menu. */
    method SetSortBy(key: string)
      modifies this`sortBy
      ensures sortBy == key
    {
      sortBy := key;
    }

    /** `loadWatchlist`: a saved list replaces the state; with nothing saved the state stays. */
    method LoadWatchlist()
      modifies this`watchlist
      ensures watchlist == if store.value.Some? then store.value.value else old(watchlist)
    {
      if store.value.Some? {
        watchlist := store.value.value;
      }
    }

    /** `toggleWatchlist`: the toggled list is both written to storage and set as state. */
    method ToggleWatchlist(coinId: string)
      modifies this`watchlist, store
      ensures watchlist == WatchlistOps.Toggle(old(watchlist), coinId)
      ensures store.value == Some(watchlist)
    {
      var newWatchlist := WatchlistOps.Toggle(watchlist, coinId);
      store.value := Some(newWatchlist);
      watchlist := newWatchlist;
    }

    /** The effect on `coins`, `search` and `sortBy`: recompute the displayed list. */
    method Refresh()
      modifies this`filteredCoins
      ensures multiset(filteredCoins) == multiset(FilterCoins(coins, search))
      ensures Descending(filteredCoins, SortKeyOf(sortBy))
    {
      filteredCoins := FilterAndSortCoins(coins, search, sortBy);
    }
  }
}
