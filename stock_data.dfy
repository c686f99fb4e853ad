/**
 * The record that `get_stock_data` assembles for one ticker, built from the
 * market-data provider's answers, which are taken as inputs: the quote fields,
 * the daily closes, the 20-day moving average, the 14-day RSI and the forecast.
 */
module StockData {
  import opened Wrappers
  import opened Numbers
  import EcoScores

  datatype Decision = Buy | Sell | Hold

  /** The three fields of the provider's quote (`stock.info`) that are read; each may be absent. */
  datatype Quote = Quote(regularMarketPrice: Option<real>, longName: Option<string>, volume: Option<int>)

  /**
   * What the provider and the indicator and forecasting libraries returned for
   * one ticker: `closes` is the daily close column, oldest first; `sma20` and
   * `rsi` are the last values of the two indicator series (NaN when the window
   * is not filled); `forecast` is the last predicted value, or None when the
   * forecasting model raised.
   */
  datatype MarketData = MarketData(
    info: Quote,
    closes: seq<real>,
    sma20: Float,
    rsi: Float,
    forecast: Option<real>)

  /** The dictionary `get_stock_data` returns. */
  datatype Record = Record(
    name: string,
    price: real,
    sma20: Float,
    rsi: Float,
    decision: Decision,
    volume: int,
    change: Float,
    chartData: seq<real>,
    prediction: real,
    ecoScore: EcoScores.EcoScore)

  /** The number of closes kept for the chart. */
  const ChartLength: nat := 30

  /**
   * The trading rule: Buy below the moving average, Sell above it, Hold
   * otherwise, including when the average is NaN (every comparison with NaN is false).
   */
  function Decide(price: real, sma: Float): (d: Decision)
    ensures sma.Finite? ==> (d == Buy <==> price < sma.value)
    ensures sma.Finite? ==> (d == Sell <==> price > sma.value)
    ensures sma.Finite? ==> (d == Hold <==> price == sma.value)
    ensures sma.NaN? ==> d == Hold
    ensures sma.Infinity? ==> d == (if sma.positive then Buy else Sell)
  {
    if Less(price, sma) then Buy
    else if Greater(price, sma) then Sell
    else Hold
  }

  /**
   * The change in percent from the previous close, `(price - prev) / prev * 100`,
   * with NumPy's division: a zero previous close gives an infinity of the
   * numerator's sign, or NaN when the numerator is zero too.
   */
  function Change(price: real, prev: real): (c: Float)
    ensures prev != 0.0 ==> c.Finite? && c.value * prev == (price - prev) * 100.0
    ensures prev > 0.0 ==> c.Finite? && (c.value > 0.0 <==> price > prev) && (c.value == 0.0 <==> price == prev)
    ensures prev == 0.0 ==> (c.NaN? <==> price == 0.0)
    ensures prev == 0.0 && price != 0.0 ==> c == Infinity(price > 0.0)
  {
    if prev != 0.0 then
      var q := (price - prev) / prev;
      assert q * prev == price - prev;
      Finite(q * 100.0)
    else if price == 0.0 then NaN
    else Infinity(price > 0.0)
  }

  /** `history['Close'].tail(30)`: the last (up to) thirty closes, in order. */
  function ChartData(closes: seq<real>): (c: seq<real>)
    ensures |c| == Min(ChartLength, |closes|)
    ensures c == closes[|closes| - |c|..]
  {
    closes[|closes| - Min(ChartLength, |closes|)..]
  }

  /** Properties every record the builder returns for `ticker` has. */
  predicate WellFormed(ticker: string, r: Record)
  {
    && IsCents(r.price)
    && IsCents(r.prediction)
    && (r.sma20.Finite? ==> IsCents(r.sma20.value))
    && (r.change.Finite? ==> IsCents(r.change.value))
    && 2 <= |r.chartData| <= ChartLength
    && r.ecoScore == EcoScores.Lookup(ticker)
  }

  /**
   * The body of `get_stock_data` after the provider calls. The current price
   * is the live quote when present, else the last close; but the last close is
   * read in either case, so an empty history fails the build. A failing
   * provider, a failing forecast or a history with fewer than two closes
   * makes the whole build fail.
   */
  function Build(ticker: string, market: Option<MarketData>): (r: Option<Record>)
    ensures r.Some? <==> market.Some? && |market.value.closes| >= 2 && market.value.forecast.Some?
    ensures r.Some? ==> WellFormed(ticker, r.value)
    ensures r.Some? ==>
      var m := market.value;
      var n := |m.closes|;
      var price := if m.info.regularMarketPrice.Some? then m.info.regularMarketPrice.value else m.closes[n - 1];
      && r.value.name == (if m.info.longName.Some? then m.info.longName.value else ticker)
      && r.value.price == Round2(price)
      && r.value.volume == (if m.info.volume.Some? then m.info.volume.value else 0)
      && r.value.decision == Decide(price, m.sma20)
      && r.value.change == RoundFloat(Change(price, m.closes[n - 2]))
      && r.value.sma20 == RoundFloat(m.sma20)
      && r.value.rsi == RoundFloat(m.rsi)
      && r.value.chartData == m.closes[n - Min(ChartLength, n)..]
      && r.value.prediction == Round2(m.forecast.value)
      && r.value.ecoScore == EcoScores.Lookup(ticker)
  {
    match market
    case None => None
    case Some(m) =>
      if |m.closes| == 0 then None
      else
        var current := m.info.regularMarketPrice.GetOr(m.closes[|m.closes| - 1]);
        if m.forecast.None? then None
        else if |m.closes| < 2 then None
        else
          Some(Record(
            name := m.info.longName.GetOr(ticker),
            price := Round2(current),
            sma20 := RoundFloat(m.sma20),
            rsi := RoundFloat(m.rsi),
            decision := Decide(current, m.sma20),
            volume := m.info.volume.GetOr(0),
            change := RoundFloat(Change(current, m.closes[|m.closes| - 2])),
            chartData := ChartData(m.closes),
            prediction := Round2(m.forecast.value),
            ecoScore := EcoScores.Lookup(ticker)))
  }

  /**
   * The decision compares the unrounded price with the unrounded average: a
   * price of 100.004 against an average of 100 is stored as 100.0 and 100.0,
   * yet the record says Sell.
   */
  lemma DecisionUsesUnroundedValues()
    ensures var r := Build("ZZZZ", Some(MarketData(Quote(Some(100.004), None, None), [99.0, 100.0], Finite(100.0), NaN, Some(101.0))));
      && r.Some?
      && r.value.price == 100.0
      && r.value.sma20 == Finite(100.0)
      && r.value.decision == Sell
  {
  }

  /**
   * Twenty-one rising closes from 100 to 120, a live price of 120 and an
   * average of 110.5: the change is (120 - 119) / 119 * 100, stored as 0.84,
   * the decision is Sell, and an unknown name and volume fall back to the
   * ticker and 0.
   */
  lemma RisingHistoryExample()
    ensures var closes := seq(21, i => 100.0 + i as real);
      var r := Build("AAPL", Some(MarketData(Quote(Some(120.0), None, None), closes, Finite(110.5), Finite(100.0), Some(125.0))));
      && r.Some?
      && r.value.name == "AAPL"
      && r.value.volume == 0
      && r.value.change == Finite(0.84)
      && r.value.decision == Sell
      && r.value.ecoScore == EcoScores.EcoScore(75, 4500)
      && r.value.chartData == closes
  {
  }
}
