/** The canonical quote record and the persisted `stock_prices` row keyed on (symbol, timestamp). */
module Records {
  import opened Timestamps

  /** One hourly bar as the parser emits it: the tuple handed to the bulk insert. */
  datatype StockRecord = StockRecord(
    symbol: string, timestamp: DateTime,
    open: real, high: real, low: real, close: real, volume: int)

  /** The price and volume columns the upsert overwrites. */
  datatype Quote = Quote(open: real, high: real, low: real, close: real, volume: int)

  /** A stored row: the overwritten columns plus `updated_at`, refreshed on every insert or update. */
  datatype Row = Row(quote: Quote, updatedAt: int)

  type Key = (string, DateTime)

  /** The table: at most one row per key, by construction of a map. */
  type Db = map<Key, Row>

  function KeyOf(r: StockRecord): Key {
    (r.symbol, r.timestamp)
  }

  function QuoteOf(r: StockRecord): Quote {
    Quote(r.open, r.high, r.low, r.close, r.volume)
  }

  function KeysOf(batch: seq<StockRecord>): set<Key> {
    set i | 0 <= i < |batch| :: KeyOf(batch[i])
  }

  /** No two records of the batch share a key. */
  predicate UniqueKeys(batch: seq<StockRecord>) {
    forall i, j | 0 <= i < j < |batch| :: KeyOf(batch[i]) != KeyOf(batch[j])
  }
}
