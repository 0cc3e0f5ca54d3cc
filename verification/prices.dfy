/** The fixed-table share price oracle (`get_share_price`). */
module Prices {
  import opened Wrappers

  /** The symbols the table can price. */
  const Listed: set<string> := {"AAPL", "TSLA", "GOOGL"}

  /** The price table, one entry per listed symbol. */
  const Table: map<string, real> := map["AAPL" := 150.0, "TSLA" := 700.0, "GOOGL" := 2800.0]

  /** The current price of `symbol`, or `None` for a symbol the table does not know. */
  function SharePrice(symbol: string): (r: Option<real>)
    ensures r.Some? <==> symbol in Listed
    ensures r.Some? ==> r.value > 0.0
  {
    if symbol !in Table then None else Some(Table[symbol])
  }

  /** The three quoted prices. */
  lemma QuotedPrices()
    ensures SharePrice("AAPL") == Some(150.0)
    ensures SharePrice("TSLA") == Some(700.0)
    ensures SharePrice("GOOGL") == Some(2800.0)
  {
  }
}
