/** The static eco-score table and its lookup with a default for unknown tickers. */
module EcoScores {

  datatype EcoScore = EcoScore(score: int, carbon: int)

  /** The three tickers the table knows. */
  const Table: map<string, EcoScore> := map[
    "AAPL" := EcoScore(75, 4500),
    "MSFT" := EcoScore(80, 3800),
    "TSLA" := EcoScore(95, 2000)
  ]

  /** What an unknown ticker is given. */
  const Default: EcoScore := EcoScore(50, 5000)

  /**
   * `eco_scores.get(ticker, {"score": 50, "carbon": 5000})`: the key is matched
   * exactly, so only the three upper-case symbols get a table entry.
   */
  function Lookup(ticker: string): (e: EcoScore)
    ensures ticker == "AAPL" ==> e == EcoScore(75, 4500)
    ensures ticker == "MSFT" ==> e == EcoScore(80, 3800)
    ensures ticker == "TSLA" ==> e == EcoScore(95, 2000)
    ensures ticker != "AAPL" && ticker != "MSFT" && ticker != "TSLA" ==> e == EcoScore(50, 5000)
  {
    if ticker in Table then Table[ticker] else Default
  }
}
