/**
 * The News page: relative publication times, the featured/recent split of
 * the feed, image fallbacks by source, and the length-capped previews.
 */
module News {
  import opened Wrappers
  import opened JsBuiltins

  /** One article of the `/api/news` feed; `publishedOn` is in Unix seconds. */
  datatype NewsItem = NewsItem(
    id: string,
    title: string,
    body: string,
    url: string,
    source: string,
    publishedOn: int,
    imageUrl: Option<string>)

  /** The three shapes of `formatTimeAgo`'s result: `Nm ago`, `Nh ago`, `Nd ago`. */
  datatype TimeAgo = MinutesAgo(minutes: int) | HoursAgo(hours: int) | DaysAgo(days: int)

  /**
   * `formatTimeAgo(timestamp)` with the current time `now` in Unix seconds:
   * whole minutes under an hour, whole hours under a day, whole days beyond,
   * each rounded down (so a future timestamp gives a negative minute count).
   */
  function FormatTimeAgo(timestamp: int, now: int): (r: TimeAgo)
    ensures r.MinutesAgo? <==> now - timestamp < 3600
    ensures r.HoursAgo? <==> 3600 <= now - timestamp < 86400
    ensures r.DaysAgo? <==> 86400 <= now - timestamp
    ensures r.MinutesAgo? ==> r.minutes * 60 <= now - timestamp < r.minutes * 60 + 60 && r.minutes <= 59
    ensures r.HoursAgo? ==> r.hours * 3600 <= now - timestamp < r.hours * 3600 + 3600 && 1 <= r.hours <= 23
    ensures r.DaysAgo? ==> r.days * 86400 <= now - timestamp < r.days * 86400 + 86400 && 1 <= r.days
  {
    var diff := now - timestamp;
    if diff < 3600 then MinutesAgo(diff / 60)
    else if diff < 86400 then HoursAgo(diff / 3600)
    else DaysAgo(diff / 86400)
  }

  /** The label grows with the age of the article: an older article never shows a smaller count in the same unit. */
  lemma FormatTimeAgoMonotone(t1: int, t2: int, now: int)
    requires t2 <= t1
    ensures FormatTimeAgo(t1, now).MinutesAgo? && FormatTimeAgo(t2, now).MinutesAgo? ==>
              FormatTimeAgo(t1, now).minutes <= FormatTimeAgo(t2, now).minutes
    ensures FormatTimeAgo(t1, now).HoursAgo? && FormatTimeAgo(t2, now).HoursAgo? ==>
              FormatTimeAgo(t1, now).hours <= FormatTimeAgo(t2, now).hours
    ensures FormatTimeAgo(t1, now).DaysAgo? && FormatTimeAgo(t2, now).DaysAgo? ==>
              FormatTimeAgo(t1, now).days <= FormatTimeAgo(t2, now).days
  {
  }

  /** `getFeaturedNews`: the first article, or nothing for an empty feed. */
  function FeaturedNews(news: seq<NewsItem>): (r: Option<NewsItem>)
    ensures r.Some? <==> news != []
    ensures r.Some? ==> r.value == news[0]
  {
    if news == [] then None else Some(news[0])
  }

  /** `getRecentNews`: `news.slice(1, 4)`, the up-to-three articles after the featured one. */
  function RecentNews(news: seq<NewsItem>): (r: seq<NewsItem>)
    ensures |r| == if |news| <= 1 then 0 else Min(3, |news| - 1)
    ensures forall k :: 0 <= k < |r| ==> r[k] == news[k + 1]
  {
    Slice(news, 1, 4)
  }

  /** The featured article is never repeated among the recent ones when the feed has no duplicates. */
  lemma FeaturedNotInRecent(news: seq<NewsItem>)
    requires forall i, j :: 0 <= i < j < |news| ==> news[i] != news[j]
    ensures FeaturedNews(news).Some? ==> FeaturedNews(news).value !in RecentNews(news)
  {
  }

  const DefaultImage := "https://images.unsplash.com/photo-1639762681485-074b7f938ba0?w=400&h=200&fit=crop"

  /** The `fallbackImages` table: a picture per known source. */
  function FallbackImage(source: string): Option<string>
  {
    if source == "CryptoNews" then Some("https://images.unsplash.com/photo-1639762681485-074b7f938ba0?w=400&h=200&fit=crop")
    else if source == "BlockchainDaily" then Some("https://images.unsplash.com/photo-1639762681057-408e52192e55?w=400&h=200&fit=crop")
    else if source == "DeFi Times" then Some("https://images.unsplash.com/photo-1551288049-bebda4e38f71?w=400&h=200&fit=crop")
    else if source == "Financial Tribune" then Some("https://images.unsplash.com/photo-1554224155-6726b3ff858f?w=400&h=200&fit=crop")
    else None
  }

  /** `getNewsImage`: the article's own non-empty image, else its source's picture, else the default; never empty. */
  function NewsImage(item: NewsItem): (url: string)
    ensures url != ""
    ensures item.imageUrl.Some? && item.imageUrl.value != "" ==> url == item.imageUrl.value
    ensures (item.imageUrl.None? || item.imageUrl.value == "") ==>
              url == if FallbackImage(item.source).Some? then FallbackImage(item.source).value else DefaultImage
    ensures (item.imageUrl.None? || item.imageUrl.value == "") ==>
              (FallbackImage(item.source).Some? <==> item.source in {"CryptoNews", "BlockchainDaily", "DeFi Times", "Financial Tribune"})
  {
    if item.imageUrl.Some? && item.imageUrl.value != "" then item.imageUrl.value
    else match FallbackImage(item.source)
      case Some(u) => u
      case None => DefaultImage
  }

  /** `text.length > n ? text.substring(0, n) + "..." : text`. */
  function Truncate(text: string, n: nat): (r: string)
    ensures |text| <= n ==> r == text
    ensures |text| > n ==> |r| == n + 3 && r[..n] == text[..n] && r[n..] == "..."
    ensures |r| <= n + 3
  {
    if |text| > n then Prefix(text, n) + "..." else text
  }

  /**
   * A preview equals its text exactly when the text fits, or when it is
   * n + 3 characters long and already ends in "..." (so truncation is
   * idempotent on its own output).
   */
  lemma TruncateFixedPoints(text: string, n: nat)
    ensures Truncate(text, n) == text <==> |text| <= n || (|text| == n + 3 && text[n..] == "...")
  {
    if |text| == n + 3 && text[n..] == "..." {
      assert text == text[..n] + text[n..];
    }
  }

  /** Truncating a preview again to the same width changes nothing. */
  lemma TruncateIdempotent(text: string, n: nat)
    ensures Truncate(Truncate(text, n), n) == Truncate(text, n)
  {
    if |text| > n {
      TruncateFixedPoints(Truncate(text, n), n);
    }
  }

  /** The featured body is capped at 200 characters. */
  function FeaturedBody(item: NewsItem): (r: string)
    ensures |r| <= 203 && (|item.body| <= 200 ==> r == item.body)
  {
    Truncate(item.body, 200)
  }

  /** A recent card's title is capped at 80 characters. */
  function RecentTitle(item: NewsItem): (r: string)
    ensures |r| <= 83 && (|item.title| <= 80 ==> r == item.title)
  {
    Truncate(item.title, 80)
  }

  /** A recent card's body is capped at 120 characters. */
  function RecentBody(item: NewsItem): (r: string)
    ensures |r| <= 123 && (|item.body| <= 120 ==> r == item.body)
  {
    Truncate(item.body, 120)
  }

  /** The page's state: the feed, the loading flag and the chosen category. */
  class NewsPage {
    var news: seq<NewsItem>
    var loading: bool
    var category: string

    constructor ()
      ensures news == [] && loading && category == "all"
    {
      news, loading, category := [], true, "all";
    }

    /** `fetchNews`: a failed request keeps the feed shown; loading ends either way. */
    method FetchNews(response: Option<seq<NewsItem>>)
      modifies this`news, this`loading
      ensures news == if response.Some? then response.value else old(news)
      ensures !loading
    {
      if response.Some? {
        news := response.value;
      }
      loading := false;
    }

    /** Choosing a category; the effect that depends on it refetches. */
    method SetCategory(c: string)
      modifies this`category
      ensures category == c
    {
      category := c;
    }
  }
}
