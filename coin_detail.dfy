/**
 * The coin detail page: the history request for the selected period, the
 * capped news list, the social links, and the props it hands the chart.
 */
module CoinDetail {
  import opened Wrappers
  import opened JsBuiltins
  import CoinChart
  import News

  /** The periods the page's button group offers. */
  const OfferedPeriods := ["7d", "30d", "90d", "1y"]

  /** `days` for the history request: an unrecognised period asks for a year. */
  function HistoryDays(timePeriod: string): (days: nat)
    ensures days == 7 <==> timePeriod == "7d"
    ensures days == 30 <==> timePeriod == "30d"
    ensures days == 90 <==> timePeriod == "90d"
    ensures days == 365 <==> timePeriod !in {"7d", "30d", "90d"}
  {
    if timePeriod == "7d" then 7
    else if timePeriod == "30d" then 30
    else if timePeriod == "90d" then 90
    else 365
  }

  /**
   * The page's history request and the chart's date labels span the same
   * number of days exactly for the four offered periods; for any other
   * period the page fetches a year while the chart labels 30 days.
   */
  lemma HistoryMatchesChart(timePeriod: string)
    ensures HistoryDays(timePeriod) == CoinChart.ChartDays(timePeriod) <==> timePeriod in OfferedPeriods
  {
    if timePeriod !in OfferedPeriods {
      assert timePeriod !in {"7d", "90d", "1y"};
    }
  }

  /** `data.slice(0, 5)`: at most the first five coin articles. */
  function CapNews<T>(news: seq<T>): (r: seq<T>)
    ensures |r| == Min(5, |news|)
    ensures r == news[..|r|]
  {
    Slice(news, 0, 5)
  }

  datatype SocialIcon = TwitterIcon | RedditIcon | GitHubIcon | TelegramIcon
                      | FacebookIcon | LinkedInIcon | YouTubeIcon | LinkIcon

  /** `getSocialIcon`: the lower-cased platform name picks the icon; unknown platforms get a plain link icon. */
  function GetSocialIcon(platform: string): (icon: SocialIcon)
    ensures icon == LinkIcon <==>
              ToLower(platform) !in {"twitter", "reddit", "github", "telegram", "facebook", "linkedin", "youtube"}
    ensures icon == TwitterIcon <==> ToLower(platform) == "twitter"
    ensures icon == GitHubIcon <==> ToLower(platform) == "github"
    ensures icon == RedditIcon <==> ToLower(platform) == "reddit"
    ensures icon == TelegramIcon <==> ToLower(platform) == "telegram"
    ensures icon == FacebookIcon <==> ToLower(platform) == "facebook"
    ensures icon == LinkedInIcon <==> ToLower(platform) == "linkedin"
    ensures icon == YouTubeIcon <==> ToLower(platform) == "youtube"
  {
    match ToLower(platform)
    case "twitter" => TwitterIcon
    case "reddit" => RedditIcon
    case "github" => GitHubIcon
    case "telegram" => TelegramIcon
    case "facebook" => FacebookIcon
    case "linkedin" => LinkedInIcon
    case "youtube" => YouTubeIcon
    case _ => LinkIcon
  }

  /** The icon does not depend on the platform name's letter case. */
  lemma SocialIconIgnoresCase(platform: string)
    ensures GetSocialIcon(ToLower(platform)) == GetSocialIcon(platform)
  {
    ToLowerIdempotent(platform);
  }

  /** `priceChange >= 0`: an unchanged price counts as positive. */
  function IsPositive(priceChange: real): (b: bool)
    ensures b <==> priceChange >= 0.0
  {
    priceChange >= 0.0
  }

  /** `platform.charAt(0).toUpperCase() + platform.slice(1)`. */
  function Capitalize(s: string): (r: string)
    ensures |r| == |s|
    ensures |s| > 0 ==> r[0] == UpperChar(s[0]) && r[1..] == s[1..]
  {
    if s == [] then [] else [UpperChar(s[0])] + s[1..]
  }

  /** A `social_media` entry: the platform and its URL list, which may be missing. */
  datatype SocialEntry = SocialEntry(platform: string, urls: Option<seq<string>>)

  /** `if (url && url[0])`: an entry is listed when its first URL exists and is non-empty. */
  predicate Listed(e: SocialEntry)
  {
    e.urls.Some? && |e.urls.value| > 0 && e.urls.value[0] != ""
  }

  /** One listed social link: icon, capitalised platform name and target. */
  datatype SocialLink = SocialLink(icon: SocialIcon, text: string, href: string)

  function LinkOf(e: SocialEntry): SocialLink
    requires Listed(e)
  {
    SocialLink(GetSocialIcon(e.platform), Capitalize(e.platform), e.urls.value[0])
  }

  /** The social-media section: one link per listed entry, in order; the rest render nothing. */
  function SocialLinks(entries: seq<SocialEntry>): (links: seq<SocialLink>)
    ensures |links| == |Filter(entries, Listed)|
    ensures forall k :: 0 <= k < |links| ==> links[k].href != ""
  {
    if entries == [] then []
    else
      (if Listed(entries[0]) then [LinkOf(entries[0])] else []) + SocialLinks(entries[1..])
  }

  /** The links are exactly the listed entries, each rendered by `LinkOf`. */
  lemma {:induction false} SocialLinksAreListedEntries(entries: seq<SocialEntry>)
    ensures var listed := Filter(entries, Listed);
      |SocialLinks(entries)| == |listed|
      && forall k :: 0 <= k < |listed| ==> SocialLinks(entries)[k] == LinkOf(listed[k])
  {
    if entries != [] {
      SocialLinksAreListedEntries(entries[1..]);
    }
  }

  /** The coin-news body preview: the first 100 characters, and always "..." after them. */
  function PreviewBody(body: string): (r: string)
    ensures |r| == Min(100, |body|) + 3
    ensures r[..|r| - 3] <= body && r[|r| - 3..] == "..."
  {
    Prefix(body, 100) + "..."
  }

  /**
   * Unlike the News page's previews, the ellipsis is appended even to a body
   * that fits: the two agree exactly on bodies longer than 100 characters.
   */
  lemma PreviewDiffersFromNewsTruncate(body: string)
    ensures PreviewBody(body) == News.Truncate(body, 100) <==> |body| > 100
  {
    if |body| <= 100 {
      assert |PreviewBody(body)| == |body| + 3;
    }
  }

  /** `index < news.length - 1 && <Divider />`: a divider after every article but the last. */
  function Dividers(count: nat): (r: seq<bool>)
    ensures |r| == count
    ensures forall k :: 0 <= k < count ==> (r[k] <==> k + 1 < count)
  {
    seq(count, k => k < count - 1)
  }

  /** A list of n articles draws n - 1 dividers (none for an empty list). */
  lemma {:induction false} DividerCount(count: nat)
    ensures |Filter(Dividers(count), (d: bool) => d)| == if count == 0 then 0 else count - 1
  {
    if count > 0 {
      var ones := seq(count - 1, k => true);
      assert Dividers(count) == ones + [false];
      FilterConcat(ones, [false], (d: bool) => d);
      FilterKeepsAll(ones, (d: bool) => d);
    }
  }

  /** `history.prices.map((p) => p[1])`: the price of each [timestamp, price] pair. */
  function ChartPrices(history: seq<(int, real)>): (prices: seq<real>)
    ensures |prices| == |history|
    ensures forall k :: 0 <= k < |history| ==> prices[k] == history[k].1
  {
    seq(|history|, k requires 0 <= k < |history| => history[k].1)
  }

  /** The props the page passes: an empty title (so the chart shows none), its colour from the 24h change, and the selected period. */
  function DetailChartProps(history: seq<(int, real)>, priceChange: real, timePeriod: string): (p: CoinChart.ChartProps)
    ensures !CoinChart.TitleDisplayed(p.title)
    ensures CoinChart.ChartColor(p.isPositive) == CoinChart.SuccessMain <==> priceChange >= 0.0
    ensures p.timePeriod == timePeriod && p.prices == ChartPrices(history)
  {
    CoinChart.WithDefaults(ChartPrices(history), Some(""), Some(IsPositive(priceChange)), Some(timePeriod))
  }

  /** The fields of the coin-detail response that the page reads. */
  datatype CoinDetails = CoinDetails(id: string, name: string, symbol: string, priceUsd: real,
                                     priceChange24h: real, socialMedia: seq<SocialEntry>)

  /** The page's state. */
  class CoinDetailPage {
    const id: string
    var coin: Option<CoinDetails>
    var history: seq<(int, real)>
    var news: seq<News.NewsItem>
    var loading: bool
    var newsLoading: bool
    var timePeriod: string

    constructor (id: string)
      ensures this.id == id && coin.None? && history == [] && news == []
      ensures loading && newsLoading && timePeriod == "30d"
    {
      this.id := id;
      coin, history, news := None, [], [];
      loading, newsLoading, timePeriod := true, true, "30d";
    }

    /** `fetchCoinDetails`: a failed request leaves the coin as it was; loading ends either way. */
    method FetchCoinDetails(response: Option<CoinDetails>)
      modifies this`coin, this`loading
      ensures coin == if response.Some? then response else old(coin)
      ensures !loading
    {
      if response.Some? {
        coin := response;
      }
      loading := false;
    }

    /** `fetchCoinHistory`: returns the `days` it requests; a failed request keeps the history. */
    method FetchCoinHistory(response: Option<seq<(int, real)>>) returns (days: nat)
      modifies this`history
      ensures days == HistoryDays(timePeriod)
      ensures history == if response.Some? then response.value else old(history)
    {
      days := HistoryDays(timePeriod);
      if response.Some? {
        history := response.value;
      }
    }

    /** `fetchCoinNews`: keeps at most five articles; a failed request keeps the list. */
    method FetchCoinNews(response: Option<seq<News.NewsItem>>)
      modifies this`news, this`newsLoading
      ensures news == if response.Some? then CapNews(response.value) else old(news)
      ensures !newsLoading && (|news| <= 5 || news == old(news))
    {
      if response.Some? {
        news := CapNews(response.value);
      }
      newsLoading := false;
    }

    /** A period button: selects that period (the history is then refetched). */
    method SetTimePeriod(p: string)
      requires p in OfferedPeriods
      modifies this`timePeriod
      ensures timePeriod == p && HistoryDays(timePeriod) == CoinChart.ChartDays(timePeriod)
    {
      timePeriod := p;
      HistoryMatchesChart(p);
    }
  }
}
