/**
 * The process-wide portfolio (a dictionary from ticker to record) and the three
 * routes that use it: adding a ticker on the home page, removing one, and
 * exporting the lot.
 */
module Portfolio {
  import opened Wrappers
  import opened Tickers
  import opened StockData
  import opened News

  /** A request to the home page: a plain view, or a submitted form with its `ticker` field. */
  datatype Request = Get | Post(ticker: string)

  /** What the home page renders, or the server error an uncaught exception becomes. */
  datatype Page =
    | Rendered(portfolio: map<string, Record>, news: map<string, seq<NewsItem>>, error: Option<string>)
    | ServerError

  /** The export route's answer: a plain-text refusal with its status code, or the CSV download of these records. */
  datatype Export = Refused(body: string, code: int) | Download(records: map<string, Record>)

  /** The market data for one ticker, as the provider and libraries would return it. */
  type Market = string -> Option<MarketData>

  const EmptyMessage: string := "Portfolio is empty!"
  const InvalidPrefix: string := "Invalid ticker: "
  const BadRequest: int := 400

  class Store {
    var entries: map<string, Record>

    /** Every stored key is a normalised ticker, and its record is one the builder could produce for it. */
    ghost predicate Valid()
      reads this
    {
      forall t :: t in entries ==> IsNormalized(t) && WellFormed(t, entries[t])
    }

    /** `portfolio = {}` at start-up. */
    constructor ()
      ensures Valid()
      ensures entries == map[]
    {
      entries := map[];
    }

    /**
     * The POST branch of `home`: normalise the ticker, build its record, and
     * either store it (replacing any earlier one) or report the failure and
     * leave the portfolio exactly as it was.
     */
    method Submit(raw: string, market: Market) returns (error: Option<string>)
      requires Valid()
      modifies this
      ensures Valid()
      ensures var t := Normalize(raw);
        match Build(t, market(t))
        case Some(record) => entries == old(entries)[t := record] && error == None
        case None => entries == old(entries) && error == Some(InvalidPrefix + t)
      ensures forall k :: k in old(entries) && k != Normalize(raw) ==> k in entries && entries[k] == old(entries)[k]
    {
      var ticker := Normalize(raw);
      var data := Build(ticker, market(ticker));
      if data.Some? {
        entries := entries[ticker := data.value];
        error := None;
      } else {
        error := Some(InvalidPrefix + ticker);
      }
    }

    /**
     * `home`: a POST first goes through Submit; then the news of every stored
     * ticker is fetched, and a failing news fetch turns the page into a server
     * error without undoing the insertion.
     */
    method Home(request: Request, market: Market, search: Search) returns (page: Page)
      requires Valid()
      modifies this
      ensures Valid()
      ensures request.Get? ==> entries == old(entries)
      ensures request.Post? ==>
        var t := Normalize(request.ticker);
        entries == (match Build(t, market(t)) case Some(record) => old(entries)[t := record] case None => old(entries))
      ensures var news := NewsMap(entries.Keys, search);
        match news
        case None => page == ServerError
        case Some(m) => page.Rendered? && page.portfolio == entries && page.news == m
      ensures page.Rendered? && request.Get? ==> page.error == None
      ensures page.Rendered? && request.Post? ==>
        var t := Normalize(request.ticker);
        page.error == (if Build(t, market(t)).Some? then None else Some(InvalidPrefix + t))
    {
      var error: Option<string> := None;
      if request.Post? {
        error := Submit(request.ticker, market);
      }
      var news := NewsMap(entries.Keys, search);
      if news.Some? {
        page := Rendered(entries, news.value, error);
      } else {
        page := ServerError;
      }
    }

    /**
     * `remove_stock`: `portfolio.pop(ticker, None)` on the ticker exactly as it
     * appears in the URL (it is not normalised), always answering success.
     */
    method Remove(ticker: string) returns (status: string)
      requires Valid()
      modifies this
      ensures Valid()
      ensures status == "success"
      ensures ticker !in entries
      ensures entries == old(entries) - {ticker}
      ensures forall k :: k in old(entries) && k != ticker ==> k in entries && entries[k] == old(entries)[k]
      ensures ticker !in old(entries) ==> entries == old(entries)
      ensures !IsNormalized(ticker) ==> entries == old(entries)
    {
      entries := entries - {ticker};
      status := "success";
    }

    /** `export_portfolio`: an empty portfolio is refused with status 400, otherwise every record is exported. */
    method ExportPortfolio() returns (response: Export)
      ensures response == Refused(EmptyMessage, BadRequest) <==> entries == map[]
      ensures response.Download? <==> entries != map[]
      ensures response.Download? ==> response.records == entries
    {
      if entries == map[] {
        response := Refused(EmptyMessage, BadRequest);
      } else {
        response := Download(entries);
      }
    }
  }
}
