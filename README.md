# Portfolio dashboard core, modelled in Dafny

The system is a small stock-portfolio web app. A user submits a ticker. The
app fetches the ticker's quote and 30 days of daily closes. It computes a
20-day moving average, a 14-day RSI and a 7-day forecast, and builds one
record per ticker. The record holds a Buy/Sell/Hold decision, the percent
change against the previous close, the last closes for a chart, and an eco
score from a static table. Records live in a process-wide dictionary keyed by
ticker. Routes add a ticker, remove one, or export them all as CSV. Each view
of the home page scrapes up to three news headlines per stored ticker.

The model covers the logic the repository itself decides. The provider's and
the libraries' answers are inputs.

- `Numbers` holds the float values the builder distinguishes: finite (a real), NaN and the infinities. It also defines comparison against NaN and Python's `round(x, 2)` (half to even).
- `Tickers` is the normalisation `upper().strip()` of the submitted ticker.
- `EcoScores` is the static eco-score table and its defaulting lookup.
- `StockData` is the record builder of `get_stock_data`: field fallbacks, the decision rule, percent change, chart data, and the failure cases that make the build return `None`.
- `News` covers which URL is searched, the cut to the first three matched links, the item shape, and how a failure propagates.
- `Portfolio.Store` is a class whose `entries` map is the global `portfolio` dictionary. Its methods are the add (home POST), remove and export routes, plus the home view.

Some of the code's behaviours are easy to miss. The model keeps them as written:

- The news fetch is not guarded in the code. A failed request, or a matched link without `href`, raises inside `home`, so the page becomes a server error. The ticker added by the same POST stays stored.
- The remove route uses the ticker exactly as it appears in the URL, without normalising it. A key that is not already normalised is never stored, so removing one changes nothing.
- When the moving average is NaN (fewer than 20 closes), both comparisons are false and the decision is Hold.
- A zero previous close gives NumPy's infinity or NaN, not an error.
- The decision compares the unrounded price with the unrounded average. The record stores the rounded ones, so the stored values can be equal while the decision says Sell (`DecisionUsesUnroundedValues`).

## Model

| member | source | states |
|---|---|---|
| Numbers.RoundHalfEven | app.py:43 | the result is an integer within one half of the input, and on an exact tie it is the even neighbour |
| Numbers.RoundHalfEvenUnique | app.py:43 | any integer with those two properties is the result, so the rounding is fully determined |
| Numbers.Round2 | app.py:43-45 | the result is a whole number of hundredths within 0.005 of the input, and an exact tie goes to an even number of hundredths |
| Numbers.Round2OfCents | app.py:43 | a value that is already whole hundredths is left unchanged by rounding |
| Numbers.RoundFloat | app.py:44-45 | a finite value comes back as Round2 of it (whole hundredths, within 0.005, ties to even hundredths); NaN and infinities come back unchanged |
| Tickers.UpperChar | app.py:76 | the result is never a lower-case letter; whitespace stays whitespace and non-whitespace stays non-whitespace; lower-case letters map to their capitals, all else is unchanged |
| Tickers.Upper | app.py:76 | keeps the length, maps every character through UpperChar, leaves no lower-case letter |
| Tickers.UpperOfNoLower | app.py:76 | a string without lower-case letters is a fixed point of upper-casing |
| Tickers.LeadingSpace | app.py:76 | counts the whitespace run that starts the string; the next character, if any, is not whitespace |
| Tickers.TrailingSpace | app.py:76 | counts the whitespace run that ends the string; the character before it, if any, is not whitespace |
| Tickers.Strip | app.py:76 | the result neither starts nor ends with whitespace and is the slice of the input between a leading and a trailing run of whitespace |
| Tickers.StripOfBare | app.py:76 | stripping a string that does not start or end with whitespace returns it unchanged |
| Tickers.StripKeepsNoLower | app.py:76 | stripping cannot introduce a lower-case letter |
| Tickers.Normalize | app.py:76 | the normalised ticker is the input's characters between its leading and its trailing whitespace run, each upper-cased; it has no lower-case letter and no surrounding whitespace |
| Tickers.NormalizedIffFixed | app.py:76 | a string is in normal form if and only if normalising it returns it unchanged |
| Tickers.NormalizeIdempotent | app.py:76 | normalising twice gives the same result as normalising once |
| Tickers.NormalizeExample | app.py:76 | " aapl" followed by a newline normalises to "AAPL" |
| EcoScores.Lookup | app.py:51 | AAPL, MSFT and TSLA get their table entries (75/4500, 80/3800, 95/2000); any other string, including a lower-case one, gets exactly score 50 and carbon 5000 |
| StockData.Decide | app.py:46 | against a finite average: Buy iff price is below it, Sell iff above, Hold iff equal; Hold against NaN |
| StockData.Change | app.py:48 | for a non-zero previous close, change times previous close equals 100 times the difference; for a positive one, the sign of the change is the sign of the move; a zero previous close gives NaN or a signed infinity |
| StockData.ChartData | app.py:31 | the last min(30, n) closes, in their original order |
| StockData.Build | app.py:23-54 | a record exists iff the provider answered, there are at least two closes and the forecast succeeded; the price is the live quote, falling back to the last close; the name falls back to the ticker and the volume to 0; the decision uses the unrounded price; the change is against the second-to-last close; the eco score is the table lookup; every record is well formed (rounded values, 2 to 30 chart points) |
| StockData.DecisionUsesUnroundedValues | app.py:43-46 | a price of 100.004 against an average of 100 is stored as 100.0 beside 100.0, yet the decision is Sell |
| StockData.RisingHistoryExample | app.py:42-51 | closes 100..120 with a live price of 120, and a supplied 20-day average of 110.5 (rsi 100 and forecast 125 also supplied), give change 0.84, Sell, name AAPL, volume 0, AAPL's eco score and all 21 closes as chart data |
| News.SearchUrl | app.py:57 | the URL is the fixed prefix, the unescaped ticker and the fixed suffix |
| News.SearchUrlInjective | app.py:57 | distinct tickers give distinct URL strings (the HTTP client's re-quoting is not modelled) |
| News.Items | app.py:62 | one item per anchor, in order, with the anchor's text and link; the list fails iff some anchor lacks an href |
| News.Headlines | app.py:61-62 | exactly the first min(3, n) matched anchors, in order, as items; fails iff one of those lacks an href |
| News.StockNews | app.py:56-62 | a failed request fails the call; otherwise the result is the headlines of the matched anchors, at most three |
| News.NewsMap | app.py:83 | the map's keys are exactly the given tickers and each list is that ticker's news (at most three items); it fails iff some ticker's news fails |
| Portfolio.Store.constructor | app.py:15 | the portfolio starts empty |
| Portfolio.Store.Submit | app.py:75-81 | on a successful build the normalised ticker maps to the new record, overwriting any old one, and the error is None; on failure the portfolio is unchanged and the error is "Invalid ticker: " plus the normalised ticker; every other entry is untouched; keys stay normalised and records well formed |
| Portfolio.Store.Home | app.py:73-85 | a GET leaves the portfolio as it was; a POST changes it exactly as Submit does; the page shows the whole portfolio with news for exactly its keys, or is a server error when some news fails, in which case the insertion stays |
| Portfolio.Store.Remove | app.py:88-90 | the ticker is absent afterwards, every other entry is unchanged, removing an absent or non-normalised ticker changes nothing, and the status is always "success" |
| Portfolio.Store.ExportPortfolio | app.py:93-104 | an empty portfolio is refused with "Portfolio is empty!" and code 400; otherwise the download carries exactly the stored records |

## Left out

- Market data, indicators and forecast (app.py:25-39): the `yfinance` calls, the rolling mean, the RSI and the Prophet fit belong to foreign libraries. Their results, or their failure, are the `MarketData` input. The model does not compute the moving average from the closes.
- Binary floating point: values are exact reals. `round` is modelled as exact round-half-to-even on the real value, not on its binary approximation.
- Quote fields that are present but hold `None` are not modelled; a `Quote` field is either absent or holds a value of its type. A `regularMarketPrice` of `None` makes `round` raise, so the source's build fails. A `longName` or `volume` of `None` does not raise: `info.get` returns the stored `None`, and the source stores a record whose name or volume is `None`. The model's `string` and `int` fields cannot hold such a record.
- The closes, the live quote and the forecast are taken to be finite reals. In the source a NaN last close would give a NaN price and a Hold; `closes: seq<real>` cannot express that. NaN is kept only for the moving average, the RSI and the change.
- Tickers.UpperChar: maps only the ASCII letters. Python's `str.upper()` also maps other letters, some of them to several characters (ß to SS).
- History indexing: `history['Close'][-1]` is taken to be positional, as in pandas versions before 3.
- The news request and the HTML parsing (app.py:57-60) are network I/O and a foreign parser. They are the `Search` input, indexed by URL.
- Tips (app.py:64-70): a random choice from a constant list; nothing to prove.
- Web layer: routing, a missing `ticker` form field (Flask answers 400), templates, the timestamp, `jsonify`, the CSV serialisation with its file name, and the `PORT` variable (app.py:1-13, 85, 96-107).
- Display order: the dictionary's insertion order is not kept; the portfolio is a map.
- `user_scores` (app.py:16) is declared and never used.
- Concurrency: the source has no locking; requests are modelled one at a time.
