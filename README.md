# Crypto Dashboard frontend — a verified Dafny model

This project models the client-side logic of the Crypto Dashboard React
frontend. That logic covers:

- the paginated coin table and its page window
- the Markets search/sort
- the watchlist kept in local storage
- price alerts
- the portfolio statistics and the portfolio table component
- the news feed helpers
- the settings page
- the coin detail page and its price chart
- the notification context

Each core source file becomes one Dafny module:

| source file | module |
|---|---|
| `components/Pagination.tsx` | `Pagination` |
| `components/CoinTable.tsx` | `CoinTable` |
| `pages/Markets.tsx` | `Markets` |
| `pages/Watchlist.tsx` | `Watchlist` |
| `pages/Alerts.tsx` | `Alerts` |
| `pages/Portfolio.tsx` | `Portfolio` |
| `components/Portfolio.tsx` | `PortfolioWidget` |
| `pages/News.tsx` | `News` |
| `pages/CoinDetail.tsx` | `CoinDetail` |
| `components/CoinChart.tsx` | `CoinChart` |
| `contexts/NotificationContext.tsx` | `NotificationContext` |
| `pages/Settings.tsx` | `Settings` |

Several modules are shared:

- `Wrappers`: `Option` and `Result`.
- `JsBuiltins`: the JavaScript built-ins the pages rely on.
  - `Array.prototype.slice` with negative and clamped indices.
  - `filter` and `find`.
  - ASCII `toLowerCase`/`toUpperCase` and `String.prototype.includes`.
  - `substring`.
  - Division whose result can be `Infinity` or `NaN`, with JavaScript's `>` and `>=` on such numbers.
- `Storage`: a `localStorage` key as a mutable slot.
- `Format`: the `formatCurrency`/`formatPrice` tiers. Four pages define these with identical bodies; they are modelled once.
- `MarketData`: coin records, sort keys and gainer/loser counts.
- `WatchlistOps`: the toggle expression that Markets and Watchlist share.

Page state that React keeps in `useState` and changes through setters is
modelled as a class. Each handler becomes a method whose `modifies` clause
names what it changes. Its `ensures` clause states the whole new state,
usually through a specification function that lemmas reason about. Pure
helpers are functions with lemmas.

These inputs are parameters of the model:

- HTTP responses: `Option`, with `None` for a failed request.
- The per-coin fetch: a function from id to `Option`.
- Ids from `Date.now()`, the current time and the current day.
- The result of `parseFloat`.

## Model

| member | source | states |
|---|---|---|
| Pagination.Delta | frontend/src/components/Pagination.tsx:43 | the window half-width is 1 exactly on a narrow screen and 2 otherwise |
| Pagination.GetVisiblePages | frontend/src/components/Pagination.tsx:42-70 | the loop-built list equals `VisiblePages` (page 1, optional marker, window run, optional marker, last page); it has at least two entries, starts at page 1 and ends at `totalPages` |
| Pagination.VisiblePagesMarkers | frontend/src/components/Pagination.tsx:55-67 | first entry is page 1 and last is `totalPages`; a leading `...` appears iff `current - delta > 2`; a trailing one iff `current + delta < total - 1` |
| Pagination.VisiblePagesMiddle | frontend/src/components/Pagination.tsx:47-61 | the entries between the markers are exactly the pages `max(2, c-d)..min(t-1, c+d)`, all strictly between 1 and `totalPages` |
| Pagination.VisiblePagesContiguous | frontend/src/components/Pagination.tsx:47-67 | for `totalPages >= 2` and a valid current page, the page numbers strictly increase, consecutive numbers are adjacent unless a `...` sits between them |
| Pagination.CurrentPageListed | frontend/src/components/Pagination.tsx:47-67 | for any valid current page and any window width of at least one, the current page appears among the buttons |
| Pagination.SinglePageListedTwice | frontend/src/components/Pagination.tsx:55-67 | with one page in total, page 1 is emitted twice |
| Pagination.HandlePageClick | frontend/src/components/Pagination.tsx:72-76 | a number entry forwards exactly its page; a `...` entry forwards nothing |
| Pagination.ClickStaysInRange | frontend/src/components/Pagination.tsx:72-76 | clicking any visible entry from a valid page requests a page in `1..totalPages` |
| Pagination.StartItem | frontend/src/components/Pagination.tsx:78 | the first shown position is at least 1 on a page >= 1, and a full page's worth before the end of that page |
| Pagination.ShowingRange | frontend/src/components/Pagination.tsx:78-79 | on a page holding at least one item, `1 <= first <= last <= total`, at most a page's worth, exactly a page's worth unless it is the last page |
| Pagination.EndItem | frontend/src/components/Pagination.tsx:78-79 | the last shown position is `min(currentPage*itemsPerPage, totalItems)`, so never beyond the total |
| Pagination.NavigationStaysInRange | frontend/src/components/Pagination.tsx:142-220 | first/previous are disabled exactly at page 1 and next/last exactly at `totalPages`; every enabled button leads to a page in range |
| CoinTable.TotalPages | frontend/src/components/CoinTable.tsx:43-44 | the ceiling: the fewest pages of that size holding all items |
| CoinTable.StartIndex | frontend/src/components/CoinTable.tsx:45 | the number of coins before a page >= 1 is non-negative, and it is one less than the first position the pagination footer reports |
| CoinTable.CurrentCoins | frontend/src/components/CoinTable.tsx:45-47 | with pagination on, the clamped slice `[(p-1)*k, (p-1)*k + k)` of at most `itemsPerPage` coins; with it off, the list unchanged |
| CoinTable.PagesUpToPrefix | frontend/src/components/CoinTable.tsx:45-47 | pages 1..n read in order are the first n*k coins (all of them when fewer) |
| CoinTable.PagesPartitionCoins | frontend/src/components/CoinTable.tsx:43-47 | pages 1..totalPages together are exactly the coin list: paging drops and repeats nothing |
| CoinTable.ShowingMatchesSlice | frontend/src/components/CoinTable.tsx:43-47 | on an existing page, "Showing X-Y of N" has `1 <= X <= Y <= N` and counts exactly the coins the table shows |
| CoinTable.ControlsVisible | frontend/src/components/CoinTable.tsx:163 | the pagination bar shows iff pagination is on and there are at least two pages |
| CoinTable.CoinTableState.constructor | frontend/src/components/CoinTable.tsx:39-40 | a table starts on page 1 with 25 coins per page |
| CoinTable.CoinTableState.SetPage | frontend/src/components/CoinTable.tsx:170 | `onPageChange` makes the requested page current |
| CoinTable.CoinTableState.ChangeItemsPerPage | frontend/src/components/CoinTable.tsx:171-174 | a new page size is taken and the page goes back to 1 |
| CoinTable.CoinTableState.CoinsChanged | frontend/src/components/CoinTable.tsx:50-52 | a change in the number of coins resets the page to 1; the same count leaves it |
| CoinTable.CoinTableState.Shown | frontend/src/components/CoinTable.tsx:47 | the rendered coins are `CurrentCoins` of the table's page and page size: at most a page's worth with pagination on, all of them with it off |
| CoinTable.SparklineColor | frontend/src/components/CoinTable.tsx:67-72 | red iff there are at least two points and the last is below the first |
| CoinTable.SeqMax | frontend/src/components/CoinTable.tsx:78 | `Math.max` of a non-empty series is one of its values and bounds all of them |
| CoinTable.SeqMin | frontend/src/components/CoinTable.tsx:79 | `Math.min` of a non-empty series is one of its values and is below all of them |
| CoinTable.BarHeight | frontend/src/components/CoinTable.tsx:80-85 | every bar is in [5, 25]; 12 for a flat series; otherwise the minimum maps to exactly 5 and the maximum to exactly 25 |
| CoinTable.BarHeightMonotone | frontend/src/components/CoinTable.tsx:85 | larger values never get shorter bars |
| CoinTable.RenderSparkline | frontend/src/components/CoinTable.tsx:74-85 | nothing for an empty series; otherwise `min(7, n)` bars, bar k being `BarHeight` of the k-th of the last `min(7, n)` points scaled against the whole series' min and max, each in [5, 25] |
| Format.CurrencyTierOf | frontend/src/components/CoinTable.tsx:54-59 | a T/B/M suffix is used iff the value is at least 1e6; T iff at least 1e12; a suffixed mantissa is >= 1, and < 1000 for B and M |
| Format.CurrencyTierMonotone | frontend/src/components/CoinTable.tsx:54-59 | a larger amount never gets a smaller suffix |
| Format.NegativeAmountHasNoSuffix | frontend/src/pages/Markets.tsx:94-99 | a negative amount is printed without a suffix |
| Format.PriceTierOf | frontend/src/components/CoinTable.tsx:61-65 | grouped digits iff >= 1000; two decimals iff in [1, 1000); four decimals iff below 1 |
| MarketData.SortKeyOf | frontend/src/pages/Markets.tsx:77-88 | "price", "volume" and "change" select their fields; any other value sorts by market cap |
| MarketData.MoveStatsOf | frontend/src/pages/Markets.tsx:107-111 | gainers is the number of changes > 0 and losers the number < 0, each against an independent count; together they never exceed the number of coins |
| MarketData.MoveStatsOfSingle | frontend/src/pages/Markets.tsx:107-111 | one change counts as a gainer iff positive and as a loser iff negative |
| MarketData.MoveStatsOfAppend | frontend/src/pages/Markets.tsx:107-111 | the counts over a list are the sums of the counts over its parts |
| MarketData.MovesPartition | frontend/src/pages/Markets.tsx:108-109 | gainers, losers and zero-change coins together count every coin exactly once |
| Markets.FilterCoins | frontend/src/pages/Markets.tsx:69-73 | keeps exactly the coins whose lower-cased name or symbol includes the lower-cased search, adding and duplicating none (sub-multiset) |
| Markets.FilterCoinsSingle | frontend/src/pages/Markets.tsx:69-73 | a single coin is kept iff it matches |
| Markets.FilterCoinsAppend | frontend/src/pages/Markets.tsx:69-73 | filtering distributes over concatenation, so the kept coins stay in listing order |
| Markets.EmptySearchKeepsAll | frontend/src/pages/Markets.tsx:69-73 | an empty search keeps every coin in order |
| Markets.SortDescending | frontend/src/pages/Markets.tsx:76-89 | the in-place sort leaves the array non-increasing by the key and a permutation of its old contents |
| Markets.FilterAndSortCoins | frontend/src/pages/Markets.tsx:68-92 | the result is a permutation of the filtered coins and non-increasing by the selected key; every element is a matching coin of the listing |
| Markets.MarketStats | frontend/src/pages/Markets.tsx:107-111 | gainers is the number of coins with a positive 24h change, losers the number with a negative one; gainers + losers <= number of coins |
| Markets.MarketStatsSingle | frontend/src/pages/Markets.tsx:107-111 | one coin is a gainer iff its change is positive and a loser iff negative |
| Markets.MarketStatsAppend | frontend/src/pages/Markets.tsx:107-111 | the statistics of a listing are the sums over its parts |
| Markets.MarketsPage.constructor | frontend/src/pages/Markets.tsx:36-41 | empty lists, empty search, sorted by "market_cap", loading |
| Markets.MarketsPage.FetchCoins | frontend/src/pages/Markets.tsx:57-66 | a listing replaces the coins, a failed request keeps them, and loading ends either way |
| Markets.MarketsPage.SetSearch | frontend/src/pages/Markets.tsx:261 | the typed text becomes the search and nothing else changes |
| Markets.MarketsPage.SetSortBy | frontend/src/pages/Markets.tsx:318 | the chosen key becomes `sortBy` and nothing else changes |
| Markets.MarketsPage.LoadWatchlist | frontend/src/pages/Markets.tsx:113-118 | a saved list replaces the state; with nothing saved the state stays |
| Markets.MarketsPage.ToggleWatchlist | frontend/src/pages/Markets.tsx:120-126 | the state becomes the toggled list and storage holds that same list |
| Markets.MarketsPage.Refresh | frontend/src/pages/Markets.tsx:53-55 | the displayed list is the filtered coins, sorted by the selected key |
| WatchlistOps.Without | frontend/src/pages/Markets.tsx:122 | every occurrence of the id goes; every other id keeps its membership; an absent id changes nothing |
| WatchlistOps.WithoutAppend | frontend/src/pages/Markets.tsx:122 | removing an id distributes over concatenation, so relative order is kept |
| WatchlistOps.Toggle | frontend/src/pages/Markets.tsx:121-123 | the id's membership flips, other ids keep theirs and their order, an absent id is appended at the end |
| WatchlistOps.ToggleTwiceRestores | frontend/src/pages/Markets.tsx:121-123 | starring then unstarring an absent coin restores the list |
| WatchlistOps.ToggleTwiceMovesToEnd | frontend/src/pages/Markets.tsx:121-123 | unstarring then starring moves the coin to the end, once |
| Watchlist.FetchedCoins | frontend/src/pages/Watchlist.tsx:63-75 | failed requests are dropped, so there are at most as many coins as ids |
| Watchlist.FetchedCoinsAppend | frontend/src/pages/Watchlist.tsx:63-75 | fetching a list in two parts gives the two results in order: watchlist order is kept |
| Watchlist.FetchedCoinsComeFromIds | frontend/src/pages/Watchlist.tsx:63-75 | every coin shown was returned for some id on the watchlist |
| Watchlist.FetchedCoinsAllSucceed | frontend/src/pages/Watchlist.tsx:63-75 | when no request fails, one coin per id, position by position |
| Watchlist.WatchlistStats | frontend/src/pages/Watchlist.tsx:103-107 | gainers is the number of watched coins with a positive 24h change, losers the number with a negative one; gainers + losers <= number of watched coins |
| Watchlist.WatchlistStatsSingle | frontend/src/pages/Watchlist.tsx:103-107 | one watched coin is a gainer iff its change is positive and a loser iff negative |
| Watchlist.WatchlistStatsAppend | frontend/src/pages/Watchlist.tsx:103-107 | the statistics of the watched coins are the sums over their parts |
| Watchlist.WatchlistPage.constructor | frontend/src/pages/Watchlist.tsx:29-31 | empty watchlist and coins, loading |
| Watchlist.WatchlistPage.LoadWatchlist | frontend/src/pages/Watchlist.tsx:43-48 | a saved list replaces the state only when one exists |
| Watchlist.WatchlistPage.SaveWatchlist | frontend/src/pages/Watchlist.tsx:50-53 | the same list goes to storage and to the state |
| Watchlist.WatchlistPage.ToggleWatchlist | frontend/src/pages/Watchlist.tsx:83-88 | the toggled list is saved and becomes the state |
| Watchlist.WatchlistPage.FetchWatchlistCoins | frontend/src/pages/Watchlist.tsx:55-81 | an empty watchlist clears the coins and requests nothing; otherwise every id is requested and the arrived coins are kept in order; loading ends |
| NotificationContext.WithoutId | frontend/src/contexts/NotificationContext.tsx:46-48 | every notification with the id goes; the others stay, none added or duplicated (sub-multiset) |
| NotificationContext.WithoutIdSingle | frontend/src/contexts/NotificationContext.tsx:46-48 | one notification stays iff its id differs |
| NotificationContext.WithoutIdAppend | frontend/src/contexts/NotificationContext.tsx:46-48 | clearing distributes over concatenation, so the remaining notifications keep their order |
| NotificationContext.ClearUnknownIdIsNoOp | frontend/src/contexts/NotificationContext.tsx:46-48 | clearing an unknown id leaves the queue unchanged |
| NotificationContext.ClearTwiceIsClearOnce | frontend/src/contexts/NotificationContext.tsx:46-48 | clearing is idempotent |
| NotificationContext.ClearAfterShow | frontend/src/contexts/NotificationContext.tsx:34-48 | clearing the id of the notification just shown undoes the show, up to clearing that id from the earlier queue |
| NotificationContext.SameIdClearsBoth | frontend/src/contexts/NotificationContext.tsx:34-48 | two notifications shown in the same millisecond share an id and are cleared together |
| NotificationContext.UseNotification | frontend/src/contexts/NotificationContext.tsx:19-25 | the context inside a provider; the documented error outside one |
| NotificationContext.NotificationProvider.constructor | frontend/src/contexts/NotificationContext.tsx:32 | no notifications at start |
| NotificationContext.NotificationProvider.ShowNotification | frontend/src/contexts/NotificationContext.tsx:34-38 | appends exactly one notification at the end, with severity "info" and 4000 ms unless given |
| NotificationContext.NotificationProvider.DurationElapsed | frontend/src/contexts/NotificationContext.tsx:41-43 | when the timer fires, that id is cleared |
| NotificationContext.NotificationProvider.ClearNotification | frontend/src/contexts/NotificationContext.tsx:46-48 | the queue becomes `WithoutId` of the old queue |
| NotificationContext.NotificationProvider.HandleClose | frontend/src/contexts/NotificationContext.tsx:50-52 | same effect as `ClearNotification` |
| Alerts.ToggleActive | frontend/src/pages/Alerts.tsx:88-90 | same length and order; `isActive` flips exactly on alerts with the id; every other field of every alert is unchanged |
| Alerts.ToggleActiveTwice | frontend/src/pages/Alerts.tsx:88-90 | toggling the same id twice restores the list |
| Alerts.ToggleMovesActiveCountByOne | frontend/src/pages/Alerts.tsx:88-90 | for a unique id, the `active` counter moves by exactly one and `above`/`below` stay the same |
| Alerts.DeleteById | frontend/src/pages/Alerts.tsx:100 | no alert with the id remains; every other alert does; none is added or duplicated (sub-multiset) |
| Alerts.DeleteByIdSingle | frontend/src/pages/Alerts.tsx:100 | one alert is kept iff its id differs |
| Alerts.DeleteByIdAppend | frontend/src/pages/Alerts.tsx:100 | deleting distributes over concatenation, so the kept alerts stay in order |
| Alerts.DeleteUnknownIsNoOp | frontend/src/pages/Alerts.tsx:100 | deleting an unknown id changes nothing |
| Alerts.DeleteCount | frontend/src/pages/Alerts.tsx:100 | the alerts kept plus the alerts with the id make up the whole list |
| Alerts.FindAlert | frontend/src/pages/Alerts.tsx:87 | finds an alert iff one has the id; the found alert has it and no earlier alert does (the first match) |
| Alerts.ToggleStatus | frontend/src/pages/Alerts.tsx:93 | "activated" iff the alert was inactive before the toggle, "deactivated" iff it was active |
| Alerts.ToggleStatusReportsNewState | frontend/src/pages/Alerts.tsx:86-95 | with unique ids, the toggle message finds that alert and says "activated" iff it is active afterwards |
| Alerts.AlertStatsOf | frontend/src/pages/Alerts.tsx:107-112 | active, above and below are the numbers of active, "above" and "below" alerts, each against an independent count; above + below equals the number of alerts |
| Alerts.AlertStatsOfSingle | frontend/src/pages/Alerts.tsx:107-112 | the counters of one alert |
| Alerts.AlertStatsOfAppend | frontend/src/pages/Alerts.tsx:107-112 | the counters of a list are the sums over its parts |
| Alerts.FormCompleteRequiredFields | frontend/src/pages/Alerts.tsx:117 | completeness ignores the optional coin id and image, and the reset form is never complete |
| Alerts.BuildAlert | frontend/src/pages/Alerts.tsx:118-128 | active; coinId defaults to the lower-cased symbol; the image defaults to the CoinGecko URL with the form's `coinId` field in it (not the fallback id); the other fields come from the form |
| Alerts.BuildAlertFromDialog | frontend/src/pages/Alerts.tsx:118-128 | for a form with an empty `coinId`, as every form on the page has, the id is the lower-cased symbol and the default image is `.../coins//image`, with an empty coin segment |
| Alerts.AlertsPage.constructor | frontend/src/pages/Alerts.tsx:54-64 | no alerts, loading, dialog closed, empty form with type "above", so `coinId` starts blank |
| Alerts.AlertsPage.LoadAlerts | frontend/src/pages/Alerts.tsx:73-79 | saved alerts replace the state only when they exist; loading ends |
| Alerts.AlertsPage.SaveAlerts | frontend/src/pages/Alerts.tsx:81-84 | the same list goes to storage and to the state |
| Alerts.AlertsPage.ToggleAlert | frontend/src/pages/Alerts.tsx:86-96 | saves the toggled list; one "info" notification naming the coin and its new status iff the id existed |
| Alerts.AlertsPage.DeleteAlert | frontend/src/pages/Alerts.tsx:98-105 | saves the list without the id; one "… deleted" notification iff the id existed |
| Alerts.AlertsPage.HandleAddAlert | frontend/src/pages/Alerts.tsx:116-145 | a complete form appends exactly one built alert at the end, saves, closes the dialog, resets the form and reports success; an incomplete one changes nothing but reports the error; `coinId` stays blank, and the appended alert's id is the lower-cased symbol and, without an image, its image URL is `.../coins//image` |
| Alerts.AlertsPage.HandleCloseDialog | frontend/src/pages/Alerts.tsx:147-157 | closes the dialog and resets the form, `coinId` blank |
| Alerts.AlertsPage.OpenAddDialog | frontend/src/pages/Alerts.tsx:175 | the "Add Alert" buttons open the dialog and leave the form as it is |
| Alerts.AlertsPage.SetCoinName | frontend/src/pages/Alerts.tsx:449 | only the form's coin name changes; `coinId` stays blank |
| Alerts.AlertsPage.SetCoinSymbol | frontend/src/pages/Alerts.tsx:462 | only the form's symbol changes; `coinId` stays blank |
| Alerts.AlertsPage.SetCoinImage | frontend/src/pages/Alerts.tsx:475 | only the form's image URL changes; `coinId` stays blank |
| Alerts.AlertsPage.SetDirection | frontend/src/pages/Alerts.tsx:488 | only the form's direction changes; `coinId` stays blank |
| Alerts.AlertsPage.SetPrice | frontend/src/pages/Alerts.tsx:500 | only the form's price text changes; `coinId` stays blank |
| Settings.DefaultSwitches | frontend/src/pages/Settings.tsx:41-53 | every switch is on by default except personalised ads |
| Settings.UpdateSetting | frontend/src/pages/Settings.tsx:75-83 | the chosen switch takes the value; every other switch, the theme and the currency are unchanged |
| Settings.LastWriteWins | frontend/src/pages/Settings.tsx:75-83 | writing a switch twice keeps only the second value |
| Settings.WriteCurrentIsNoOp | frontend/src/pages/Settings.tsx:75-83 | writing a switch's current value changes nothing |
| Settings.UpdatesCommute | frontend/src/pages/Settings.tsx:75-83 | writes to different switches commute |
| Settings.SettingsPage.constructor | frontend/src/pages/Settings.tsx:41-54 | starts from the defaults, not saved |
| Settings.SettingsPage.LoadSettings | frontend/src/pages/Settings.tsx:61-66 | stored settings replace the state only when they exist |
| Settings.SettingsPage.SaveSettings | frontend/src/pages/Settings.tsx:68-73 | stores the current settings unchanged, sets `saved`, and reports "Settings saved successfully!" as a success |
| Settings.SettingsPage.SavedTimerFired | frontend/src/pages/Settings.tsx:72 | the saved flag drops when the timer fires |
| Settings.SettingsPage.UpdateSettings | frontend/src/pages/Settings.tsx:75-83 | the state becomes `UpdateSetting` of the old state |
| Settings.SettingsPage.SetTheme | frontend/src/pages/Settings.tsx:132 | only the theme changes |
| Settings.SettingsPage.SetCurrency | frontend/src/pages/Settings.tsx:154 | only the currency changes |
| Settings.SaveThenLoad | frontend/src/pages/Settings.tsx:61-73 | saving and then loading on a new page restores exactly the saved settings |
| Portfolio.AttachCoins | frontend/src/pages/Portfolio.tsx:60-73 | one item per holding, in order, carrying the coin from its request, or no coin when that request failed |
| Portfolio.ItemPercentage | frontend/src/pages/Portfolio.tsx:94 | finite whenever the cost basis is non-zero; +Infinity, -Infinity or NaN for a zero cost basis with positive, negative or zero value |
| Portfolio.PnLPercentage | frontend/src/pages/Portfolio.tsx:105 | 0 when the total cost is <= 0; otherwise its sign is the sign of value minus cost |
| Portfolio.CalculatePortfolioStats | frontend/src/pages/Portfolio.tsx:82-114 | the loop's totals equal `TotalValue`/`TotalCost`, P&L is their difference, the guarded percentage, assetCount is the full length, and the best performer is `Best` |
| Portfolio.MissingCoinsAddNoValue | frontend/src/pages/Portfolio.tsx:87-92 | holdings without coin data add nothing to the total value |
| Portfolio.MissingCoinsAddNoCost | frontend/src/pages/Portfolio.tsx:87-92 | holdings without coin data add nothing to the total cost |
| Portfolio.MissingCoinsNeverBest | frontend/src/pages/Portfolio.tsx:87-100 | holdings without coin data never affect the best performer |
| Portfolio.BestIsNonNegative | frontend/src/pages/Portfolio.tsx:85-100 | the best percentage is always >= 0 (a finite non-negative value or +Infinity) |
| Portfolio.BestIsMaximal | frontend/src/pages/Portfolio.tsx:94-100 | no holding with coin data has a greater percentage than the best performer |
| Portfolio.BestIsEarliestHolding | frontend/src/pages/Portfolio.tsx:85-100 | a best performer other than "N/A" is a holding's upper-cased symbol and percentage, above 0; no earlier holding's percentage is at least as large, so ties keep the earliest |
| Portfolio.Rows | frontend/src/pages/Portfolio.tsx:449-455 | one row per holding with coin data |
| Portfolio.RowsFollowHoldings | frontend/src/pages/Portfolio.tsx:449-455 | row k belongs to the k-th holding with coin data: value `quantity*price`, cost `quantity*buyPrice`, P&L their difference, and that holding's percentage |
| Portfolio.RowsAgreeWithStats | frontend/src/pages/Portfolio.tsx:449-455 | the rows' P&L values add up to the statistics' total P&L, and each row's percentage is some holding's `ItemPercentage` |
| Portfolio.PortfolioPage.constructor | frontend/src/pages/Portfolio.tsx:41-42 | no holdings, loading |
| Portfolio.PortfolioPage.FetchPortfolio | frontend/src/pages/Portfolio.tsx:53-80 | a successful listing becomes `AttachCoins` of it; a failed one keeps the holdings; loading ends either way |
| Portfolio.PortfolioPage.Stats | frontend/src/pages/Portfolio.tsx:129 | the statistics over the page's holdings, as `CalculatePortfolioStats` states them |
| PortfolioWidget.GetCurrentPrice | frontend/src/components/Portfolio.tsx:46-49 | the price of the first listed coin with the id, or 0 when none has it |
| PortfolioWidget.ProfitColour | frontend/src/components/Portfolio.tsx:85 | green iff the profit is strictly positive; zero is red |
| PortfolioWidget.GreenIffPriceAboveBuy | frontend/src/components/Portfolio.tsx:51-54 | for a positive quantity, green iff the current price exceeds the buy price |
| PortfolioWidget.CalculateProfit | frontend/src/components/Portfolio.tsx:51-54 | the profit is the current value minus the purchase cost, zero when the price has not moved |
| PortfolioWidget.MissingCoinLoss | frontend/src/components/Portfolio.tsx:46-54 | a coin missing from the listing shows a profit of `-(buyPrice*quantity)` |
| PortfolioWidget.PortfolioWidget.constructor | frontend/src/components/Portfolio.tsx:15-16 | empty holdings and listing |
| PortfolioWidget.PortfolioWidget.FetchPortfolio | frontend/src/components/Portfolio.tsx:28-35 | a failed request keeps the holdings |
| PortfolioWidget.PortfolioWidget.FetchCoins | frontend/src/components/Portfolio.tsx:37-44 | a failed request keeps the listing |
| PortfolioWidget.PortfolioWidget.Profits | frontend/src/components/Portfolio.tsx:83-88 | one profit per holding, each `CalculateProfit` against the current listing |
| News.FormatTimeAgo | frontend/src/pages/News.tsx:62-76 | minutes iff the age is under 3600 s, hours iff in [3600, 86400), days beyond; each count is the floor of the age over its unit (hours 1-23, days >= 1) |
| News.FormatTimeAgoMonotone | frontend/src/pages/News.tsx:62-76 | within one unit, an older article never shows a smaller count |
| News.FeaturedNews | frontend/src/pages/News.tsx:78-80 | the first article, or nothing iff the feed is empty |
| News.RecentNews | frontend/src/pages/News.tsx:82-84 | the articles at indices 1..3: at most three, shifted by one |
| News.FeaturedNotInRecent | frontend/src/pages/News.tsx:78-84 | in a duplicate-free feed the featured article is never among the recent ones |
| News.NewsImage | frontend/src/pages/News.tsx:86-99 | the article's own non-empty image; else the picture for one of the four known sources; else the default; never empty (for source names that are not `Object.prototype` members) |
| News.Truncate | frontend/src/pages/News.tsx:185-187 | text of at most n characters is unchanged; longer text becomes its first n characters followed by "..." |
| News.TruncateFixedPoints | frontend/src/pages/News.tsx:185-187 | the preview equals the text iff the text fits, or is n+3 long ending in "..." |
| News.TruncateIdempotent | frontend/src/pages/News.tsx:185-187 | truncating a preview again changes nothing |
| News.FeaturedBody | frontend/src/pages/News.tsx:185-187 | the featured body is at most 203 characters and unchanged when it fits in 200 |
| News.RecentTitle | frontend/src/pages/News.tsx:277-279 | a recent title is at most 83 characters and unchanged when it fits in 80 |
| News.RecentBody | frontend/src/pages/News.tsx:283-285 | a recent body is at most 123 characters and unchanged when it fits in 120 |
| News.NewsPage.constructor | frontend/src/pages/News.tsx:39-41 | empty feed, loading, category "all" |
| News.NewsPage.FetchNews | frontend/src/pages/News.tsx:51-60 | a failed request keeps the feed; loading ends either way |
| News.NewsPage.SetCategory | frontend/src/pages/News.tsx:122 | the chosen category becomes current |
| CoinChart.WithDefaults | frontend/src/components/CoinChart.tsx:27-36 | missing props default to "Price Chart", positive and "30d"; passed props, an empty title included, are kept |
| CoinChart.ChartDays | frontend/src/components/CoinChart.tsx:49-64 | 7, 90 and 365 for "7d", "90d" and "1y"; 30 for "30d" and every other period |
| CoinChart.GenerateDates | frontend/src/components/CoinChart.tsx:44-81 | exactly `days` labels, consecutive days, oldest first, the last one today |
| CoinChart.ChartColor | frontend/src/components/CoinChart.tsx:39-41 | the success colour iff `isPositive` |
| CoinChart.PointRadius | frontend/src/components/CoinChart.tsx:101 | 1 iff the period is "1y", else 3 |
| CoinChart.MaxTicksLimit | frontend/src/components/CoinChart.tsx:150 | 12 iff the period is "1y", else 6 |
| CoinChart.TitleDisplayed | frontend/src/components/CoinChart.tsx:114 | the title is shown iff it is non-empty |
| CoinChart.DefaultTitleShown | frontend/src/components/CoinChart.tsx:29 | without a title prop the default title is shown |
| CoinDetail.HistoryDays | frontend/src/pages/CoinDetail.tsx:91 | 7, 30 and 90 for "7d", "30d" and "90d"; 365 for anything else |
| CoinDetail.HistoryMatchesChart | frontend/src/pages/CoinDetail.tsx:89-92 | the page's history request and the chart's labels span the same number of days iff the period is one of the four offered |
| CoinDetail.CapNews | frontend/src/pages/CoinDetail.tsx:104 | the first `min(5, n)` articles |
| CoinDetail.GetSocialIcon | frontend/src/pages/CoinDetail.tsx:112-131 | each of the seven icons iff the lower-cased platform is its name; the generic link icon iff it is none of them |
| CoinDetail.SocialIconIgnoresCase | frontend/src/pages/CoinDetail.tsx:113 | the icon does not depend on letter case |
| CoinDetail.IsPositive | frontend/src/pages/CoinDetail.tsx:165-166 | positive iff the 24h change is >= 0 |
| CoinDetail.Capitalize | frontend/src/pages/CoinDetail.tsx:532 | same length; first character upper-cased; the rest unchanged |
| CoinDetail.SocialLinks | frontend/src/pages/CoinDetail.tsx:524-542 | one link per entry whose first URL exists and is non-empty; every link target is non-empty |
| CoinDetail.SocialLinksAreListedEntries | frontend/src/pages/CoinDetail.tsx:524-532 | the links are exactly the listed entries, in order, each with its icon, capitalised name and first URL |
| CoinDetail.PreviewBody | frontend/src/pages/CoinDetail.tsx:603 | the first 100 characters followed by "..." whatever the length |
| CoinDetail.PreviewDiffersFromNewsTruncate | frontend/src/pages/CoinDetail.tsx:603 | it agrees with the News page's truncation iff the body is longer than 100 characters |
| CoinDetail.Dividers | frontend/src/pages/CoinDetail.tsx:609 | a divider after every article but the last |
| CoinDetail.DividerCount | frontend/src/pages/CoinDetail.tsx:609 | n articles get n-1 dividers (none for an empty list) |
| CoinDetail.ChartPrices | frontend/src/pages/CoinDetail.tsx:441 | the price of each [timestamp, price] pair, in order |
| CoinDetail.DetailChartProps | frontend/src/pages/CoinDetail.tsx:440-445 | the chart shows no title, is coloured by the sign of the 24h change and gets the selected period |
| CoinDetail.CoinDetailPage.constructor | frontend/src/pages/CoinDetail.tsx:51-59 | no coin, history or news; loading; period "30d" |
| CoinDetail.CoinDetailPage.FetchCoinDetails | frontend/src/pages/CoinDetail.tsx:78-87 | a failed request keeps the coin; loading ends either way |
| CoinDetail.CoinDetailPage.FetchCoinHistory | frontend/src/pages/CoinDetail.tsx:89-99 | requests `HistoryDays` of the current period; a failed request keeps the history |
| CoinDetail.CoinDetailPage.FetchCoinNews | frontend/src/pages/CoinDetail.tsx:101-110 | keeps at most the first five articles; a failed request keeps the list; news loading ends |
| CoinDetail.CoinDetailPage.SetTimePeriod | frontend/src/pages/CoinDetail.tsx:414-433 | a period button selects its period, for which request and chart agree on the day count |

## Left out

- HTTP: every `axios` request and the whole backend are outside the model. Each response is an `Option` parameter and each per-coin request a function from id to `Option`. The `Promise.all` fan-out is a sequential map.
- Timers: `setInterval` polling, the notification auto-dismiss `setTimeout` and the three-second reset of the settings `saved` flag are not scheduled. The timer callbacks are methods (`DurationElapsed`, `SavedTimerFired`) that a caller invokes.
- React scheduling: effects and their dependency lists are not modelled. Each effect body is a method, e.g. `Refresh` and `CoinsChanged`. Setters take effect immediately, not on the next render.
- Rendering: JSX, MUI components, themes, responsive breakpoints (except the `isMobile` flag) and chart.js options beyond point radius, tick limit, colour and title display.
- Exact strings: the model picks the branch of `toFixed`, `toLocaleString` and `toLocaleDateString` (a tier, a unit, a day number), not the characters they print. The time-ago labels are a unit and a count. The alert-created message takes the printed price as a parameter.
- `Date.now()`, `new Date()` and `parseFloat` are parameters. A `NaN` from `parseFloat` on a non-numeric price is not represented: the price is a `real`. The `createdAt` date is an integer timestamp; its JSON round trip through `localStorage` is not modelled.
- Letter case: `toLowerCase`/`toUpperCase` are modelled on ASCII letters only.
- String length: JavaScript's `length`, `substring`, `slice` and `charAt` count UTF-16 code units, the model counts Unicode scalar values. Text with characters outside the Basic Multilingual Plane (emoji, say) is therefore cut later by `News.FeaturedBody`, `News.RecentTitle`, `News.RecentBody` and `CoinDetail.PreviewBody` than the page cuts it.
- News.NewsImage: `fallbackImages[source]` is a plain object lookup, so a source named after an `Object.prototype` member (`toString`, `constructor`) finds a function there; the model only knows the four listed sources and returns the default image for every other name.
- Floating point: amounts are exact reals, so there is no rounding. The one unguarded division, the per-holding percentage, keeps its `Infinity`/`NaN` results. The Markets sort compares exact reals; a `NaN` field in the comparator is not modelled.
- Markets.SortDescending: proves order and permutation but not the stability of `Array.prototype.sort`. Ties may come out in any order.
- Settings.UpdateSetting: covers the five section/key pairs the page's switches use; the untyped `updateSettings(section, key, value)` with arbitrary keys or non-boolean values is not modelled.
- `JSON.parse` of a corrupted storage value is not modelled: a slot either holds a value or is empty.
- Files other than the twelve listed above (the sidebar, navbar, router, home page and backend controllers) are not part of this model.
