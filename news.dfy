/**
 * Headlines per ticker: the news search page is fetched and parsed outside the
 * model; what is modelled is which URL is asked for, the cut to the first three
 * matched links, the shape of each item, and how a failure travels.
 */
module News {
  import opened Wrappers

  /** A matched `div.BNeawe a` element: its text and its `href` attribute, if it has one. */
  datatype Anchor = Anchor(text: string, href: Option<string>)

  datatype NewsItem = NewsItem(title: string, link: string)

  /**
   * The search for one URL: None when the request raised, else the anchors the
   * page's selector matched, in document order.
   */
  type Search = string -> Option<seq<Anchor>>

  /** At most this many headlines are kept per ticker. */
  const HeadlineLimit: nat := 3

  const UrlPrefix: string := "https://www.google.com/search?q="
  const UrlSuffix: string := "+stock+news&tbm=nws"

  /** The news-search URL; the ticker is pasted in as it is, without escaping. */
  function SearchUrl(ticker: string): (url: string)
    ensures |url| == |UrlPrefix| + |ticker| + |UrlSuffix|
    ensures url[..|UrlPrefix|] == UrlPrefix
    ensures url[|UrlPrefix|..|UrlPrefix| + |ticker|] == ticker
    ensures url[|UrlPrefix| + |ticker|..] == UrlSuffix
  {
    UrlPrefix + ticker + UrlSuffix
  }

  /** Different tickers give different URL strings (before any re-quoting by the HTTP client). */
  lemma SearchUrlInjective(a: string, b: string)
    requires SearchUrl(a) == SearchUrl(b)
    ensures a == b
  {
  }

  /**
   * `[{"title": item.text, "link": item['href']} for item in items]`: one item
   * per anchor, in order; an anchor without `href` raises, and so fails the whole list.
   */
  function Items(anchors: seq<Anchor>): (r: Option<seq<NewsItem>>)
    ensures r.Some? <==> forall i :: 0 <= i < |anchors| ==> anchors[i].href.Some?
    ensures r.Some? ==> |r.value| == |anchors|
    ensures r.Some? ==> forall i :: 0 <= i < |anchors| ==>
      r.value[i] == NewsItem(anchors[i].text, anchors[i].href.value)
  {
    if anchors == [] then Some([])
    else
      match anchors[0].href
      case None => None
      case Some(link) =>
        match Items(anchors[1..])
        case None => None
        case Some(rest) => Some([NewsItem(anchors[0].text, link)] + rest)
  }

  /**
   * `get_stock_news` after the request: the first three matched anchors,
   * in order, each turned into an item.
   */
  function Headlines(matched: seq<Anchor>): (r: Option<seq<NewsItem>>)
    ensures r.Some? <==> forall i :: 0 <= i < Min(HeadlineLimit, |matched|) ==> matched[i].href.Some?
    ensures r.Some? ==> |r.value| == Min(HeadlineLimit, |matched|)
    ensures r.Some? ==> forall i :: 0 <= i < |r.value| ==>
      r.value[i] == NewsItem(matched[i].text, matched[i].href.value)
  {
    Items(matched[..Min(HeadlineLimit, |matched|)])
  }

  /** `get_stock_news(ticker)`: a failed request is not caught, so it fails the call. */
  function StockNews(ticker: string, search: Search): (r: Option<seq<NewsItem>>)
    ensures search(SearchUrl(ticker)).None? ==> r.None?
    ensures r.Some? ==> |r.value| <= HeadlineLimit
    ensures search(SearchUrl(ticker)).Some? ==> r == Headlines(search(SearchUrl(ticker)).value)
  {
    match search(SearchUrl(ticker))
    case None => None
    case Some(matched) => Headlines(matched)
  }

  /**
   * `{ticker: get_stock_news(ticker) for ticker in portfolio.keys()}`: a
   * headline list for exactly the stored tickers, or a failure as soon as one
   * ticker's news fails.
   */
  function NewsMap(tickers: set<string>, search: Search): (r: Option<map<string, seq<NewsItem>>>)
    ensures r.Some? <==> forall t :: t in tickers ==> StockNews(t, search).Some?
    ensures r.Some? ==> r.value.Keys == tickers
    ensures r.Some? ==> forall t :: t in tickers ==>
      |r.value[t]| <= HeadlineLimit && Some(r.value[t]) == StockNews(t, search)
  {
    if forall t :: t in tickers ==> StockNews(t, search).Some? then
      Some(map t | t in tickers :: StockNews(t, search).value)
    else None
  }
}
