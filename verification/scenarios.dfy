/** End-to-end runs: one symbol with two good bars next to one the provider rejects, the same
    run repeated, and a run in which every call is rate-limited. */
module Scenarios {
  import opened Wrappers
  import opened Digits
  import opened Json
  import opened Timestamps
  import opened Conversions
  import opened Records
  import opened Fetch
  import opened Parse
  import opened Store
  import opened Pipeline
  import opened Symbols
  import Dag

  /** One bar of the series as the provider sends it: every price the text `price`, the volume the text `volume`. */
  function Bar(price: string, volume: string): Value {
    Object([(OpenField, Str(price)), (HighField, Str(price)), (LowField, Str(price)),
            (CloseField, Str(price)), (VolumeField, Str(volume))])
  }

  /** The provider's answer to an unknown symbol. */
  function ErrorDocument(): Response {
    Http(200, Decoded(Object([(ErrorKey, Str("Invalid API call."))])))
  }

  /** The provider's answer once the free quota is spent. */
  function NoteDocument(): Response {
    Http(200, Decoded(Object([(NoteKey, Str("Thank you for using Alpha Vantage!"))])))
  }

  /** Each field of a bar is found under its name. */
  lemma BarFields(price: string, volume: string)
    ensures var values := Bar(price, volume).fields;
            && Field(values, OpenField) == Str(price) && Field(values, HighField) == Str(price)
            && Field(values, LowField) == Str(price) && Field(values, CloseField) == Str(price)
            && Field(values, VolumeField) == Str(volume)
  {
    FieldNamesDistinct();
    LookupFive(Bar(price, volume).fields, OpenField, HighField, LowField, CloseField, VolumeField,
               Str(price), Str(price), Str(price), Str(price), Str(volume));
  }

  /** In an object of five distinct keys, each key finds its own value. */
  lemma LookupFive(fields: seq<(string, Value)>, k0: string, k1: string, k2: string, k3: string, k4: string,
                   v0: Value, v1: Value, v2: Value, v3: Value, v4: Value)
    requires fields == [(k0, v0), (k1, v1), (k2, v2), (k3, v3), (k4, v4)]
    requires k0 != k1 && k0 != k2 && k0 != k3 && k0 != k4 && k1 != k2 && k1 != k3 && k1 != k4
    requires k2 != k3 && k2 != k4 && k3 != k4
    ensures && Get(fields, k0, Int(0)) == v0 && Get(fields, k1, Int(0)) == v1 && Get(fields, k2, Int(0)) == v2
            && Get(fields, k3, Int(0)) == v3 && Get(fields, k4, Int(0)) == v4
  {
    GetFirstMatch(fields, k0, Int(0), 0);
    GetFirstMatch(fields, k1, Int(0), 1);
    GetFirstMatch(fields, k2, Int(0), 2);
    GetFirstMatch(fields, k3, Int(0), 3);
    GetFirstMatch(fields, k4, Int(0), 4);
  }

  /** An entry whose five fields are texts the conversions accept parses to the record with those values. */
  lemma EntryParses(lib: Library, symbol: string, t: string, d: DateTime, values: seq<(string, Value)>, price: string, volume: string)
    requires lib.strptime(t) == Some(d) && lib.floatText(price).Some? && lib.intText(volume).Some?
    requires Field(values, OpenField) == Str(price) && Field(values, HighField) == Str(price)
    requires Field(values, LowField) == Str(price) && Field(values, CloseField) == Str(price)
    requires Field(values, VolumeField) == Str(volume)
    ensures var x := lib.floatText(price).value;
            ParseEntry(lib, symbol, (t, Object(values)))
              == Return(StockRecord(symbol, d, x, x, x, x, lib.intText(volume).value))
  {
  }

  lemma BarParses(lib: Library, symbol: string, t: string, d: DateTime, price: string, volume: string)
    requires lib.strptime(t) == Some(d) && lib.floatText(price).Some? && lib.intText(volume).Some?
    ensures var x := lib.floatText(price).value;
            ParseEntry(lib, symbol, (t, Bar(price, volume)))
              == Return(StockRecord(symbol, d, x, x, x, x, lib.intText(volume).value))
  {
    BarFields(price, volume);
    EntryParses(lib, symbol, t, d, Bar(price, volume).fields, price, volume);
  }

  /** With the plain library, two bars stamped with canonical timestamps, every price "1.5"
      and volume "100", parse to the two records carrying exactly those numbers. */
  lemma PlainBarsParse(d1: DateTime, d2: DateTime)
    requires Valid(d1) && Valid(d2)
    ensures ParseStockData(Plain(), "AAPL", TwoBars(Format(d1), Format(d2), "1.5", "100"))
            == Records([StockRecord("AAPL", d1, 1.5, 1.5, 1.5, 1.5, 100),
                        StockRecord("AAPL", d2, 1.5, 1.5, 1.5, 1.5, 100)])
  {
    FormatThenParse(d1);
    FormatThenParse(d2);
    PlainNumbers();
    TwoBarsParse(Plain(), "AAPL", Format(d1), Format(d2), d1, d2, "1.5", "100");
  }

  /** The plain grammars read "1.5" and "100" as the numbers they spell. */
  lemma PlainNumbers()
    ensures Plain().floatText("1.5") == Some(1.5) && Plain().intText("100") == Some(100)
  {
    PlainPrice();
    PlainVolume();
  }

  lemma PlainPrice()
    ensures DecimalText("1.5") == Some(1.5)
  {
    assert Padded(1, 1) == "1" && Padded(5, 1) == "5";
    assert Padded(1, 1) + "." + Padded(5, 1) == "1.5";
    DecimalTextOfPadded(1, 1, 5, 1);
    assert Pow10(1) == 10;
  }

  lemma PlainVolume()
    ensures IntegerText("100") == Some(100)
  {
    assert Padded(1, 1) == "1";
    assert Padded(10, 2) == "10";
    assert Padded(100, 3) == "100";
    assert Pow10(3) == 1000;
    IntegerTextOfPadded(100, 3);
  }

  /** The series of two bars stamped `t1` and `t2`. */
  function TwoBars(t1: string, t2: string, price: string, volume: string): Value {
    Object([(t1, Bar(price, volume)), (t2, Bar(price, volume))])
  }

  /** A document carrying a series of two bars, stamped `t1` and `t2`. */
  function SeriesDocument(t1: string, t2: string, price: string, volume: string): Response {
    Http(200, Decoded(Object([(SeriesKey, TwoBars(t1, t2, price, volume))])))
  }

  lemma SeriesFetched(symbol: string, t1: string, t2: string, price: string, volume: string)
    ensures FetchStockData(symbol, SeriesDocument(t1, t2, price, volume)) == Fetched(symbol, TwoBars(t1, t2, price, volume))
  {
    var fields := SeriesDocument(t1, t2, price, volume).body.data.fields;
    assert fields[0].0 == SeriesKey;
    assert !HasKey(fields, ErrorKey) && !HasKey(fields, NoteKey);
  }

  /** The records the two bars parse to. */
  function TwoRecords(lib: Library, symbol: string, d1: DateTime, d2: DateTime, price: string, volume: string): seq<StockRecord>
    requires lib.floatText(price).Some? && lib.intText(volume).Some?
  {
    var x := lib.floatText(price).value;
    var n := lib.intText(volume).value;
    [StockRecord(symbol, d1, x, x, x, x, n), StockRecord(symbol, d2, x, x, x, x, n)]
  }

  lemma TwoBarsParse(lib: Library, symbol: string, t1: string, t2: string, d1: DateTime, d2: DateTime,
                     price: string, volume: string)
    requires lib.strptime(t1) == Some(d1) && lib.strptime(t2) == Some(d2)
    requires lib.floatText(price).Some? && lib.intText(volume).Some?
    ensures ParseStockData(lib, symbol, TwoBars(t1, t2, price, volume)) == Records(TwoRecords(lib, symbol, d1, d2, price, volume))
  {
    BarParses(lib, symbol, t1, d1, price, volume);
    BarParses(lib, symbol, t2, d2, price, volume);
    var entries := TwoBars(t1, t2, price, volume).fields;
    var batch := TwoRecords(lib, symbol, d1, d2, price, volume);
    assert entries[0] == (t1, Bar(price, volume)) && entries[1] == (t2, Bar(price, volume));
    var r := ParseStockData(lib, symbol, TwoBars(t1, t2, price, volume));
    assert r.Records?;
    assert Return(r.records[0]) == ParseEntry(lib, symbol, entries[0]);
    assert Return(r.records[1]) == ParseEntry(lib, symbol, entries[1]);
    assert r.records == batch;
  }

  /** Two records of one symbol at different times commit both rows, each with its own values. */
  lemma TwoRecordsCommit(db: Db, a: StockRecord, b: StockRecord, now: int)
    requires KeyOf(a) != KeyOf(b)
    ensures StoreStockData(db, [a, b], now, false).db == db[KeyOf(a) := RowOf(a, now)][KeyOf(b) := RowOf(b, now)]
  {
    var batch := [a, b];
    assert PagesDistinct(batch);
    assert batch[..1] == [a] && [a][..0] == [];
    assert UpsertAll(db, batch[..1], now) == db[KeyOf(a) := RowOf(a, now)];
  }

  /** The two-bar document yields one symbol step that commits both bars. */
  lemma SeriesStep(lib: Library, db: Db, t1: string, t2: string, d1: DateTime, d2: DateTime,
                   price: string, volume: string, now: int)
    requires lib.strptime(t1) == Some(d1) && lib.strptime(t2) == Some(d2) && d1 != d2
    requires lib.floatText(price).Some? && lib.intText(volume).Some?
    ensures var x := lib.floatText(price).value;
            ProcessSymbol(lib, db, "AAPL", Attempt(SeriesDocument(t1, t2, price, volume), false, now))
              == SymbolRun(true, WithBars(db, d1, d2, Quote(x, x, x, x, lib.intText(volume).value), now))
  {
    var response := SeriesDocument(t1, t2, price, volume);
    SeriesFetched("AAPL", t1, t2, price, volume);
    TwoBarsParse(lib, "AAPL", t1, t2, d1, d2, price, volume);
    var batch := TwoRecords(lib, "AAPL", d1, d2, price, volume);
    assert ParsedBatch(lib, "AAPL", response) == batch;
    TwoRecordsCommit(db, batch[0], batch[1], now);
    assert [batch[0], batch[1]] == batch;
    ProcessSymbolOk(lib, db, "AAPL", Attempt(response, false, now));
  }

  /** The run over two symbols, spelled out: the first step on the initial table, the second on
      what the first left. */
  lemma RunOfTwo(step: StepFn, db: Db, a: string, b: string, first: SymbolRun, second: SymbolRun)
    requires step(db, a, 0) == first && step(first.db, b, 1) == second
    ensures var r := Run(step, db, [a, b]);
            r.results == map[a := first.ok][b := second.ok] && r.db == second.db
  {
    assert [a, b][..1] == [a] && [a][..0] == [];
    assert Run(step, db, [a]) == Extend(BatchRun(map[], [], db), a, first);
  }

  /** The two AAPL rows written at time `now` over `db`. */
  function WithBars(db: Db, d1: DateTime, d2: DateTime, q: Quote, now: int): Db {
    db[("AAPL", d1) := Row(q, now)][("AAPL", d2) := Row(q, now)]
  }

  /** `["AAPL", "BAD"]` over any table: AAPL's step commits its two bars, BAD's rejection is
      recorded as false and writes nothing. */
  lemma RunOverTable(lib: Library, env: Env, db: Db, t1: string, t2: string, d1: DateTime, d2: DateTime,
                     price: string, volume: string, now: int)
    requires lib.strptime(t1) == Some(d1) && lib.strptime(t2) == Some(d2) && d1 != d2
    requires lib.floatText(price).Some? && lib.intText(volume).Some?
    requires env(0) == Attempt(SeriesDocument(t1, t2, price, volume), false, now)
    requires env(1).response == ErrorDocument()
    ensures var r := ProcessMultipleSymbols(lib, env, db, ["AAPL", "BAD"]);
            var x := lib.floatText(price).value;
            && r.results == map["AAPL" := true, "BAD" := false]
            && r.db == WithBars(db, d1, d2, Quote(x, x, x, x, lib.intText(volume).value), now)
  {
    var x := lib.floatText(price).value;
    var table := WithBars(db, d1, d2, Quote(x, x, x, x, lib.intText(volume).value), now);
    SeriesStep(lib, db, t1, t2, d1, d2, price, volume, now);
    BadStep(lib, table, "BAD", env(1));
    RunOfTwo(Steps(lib, env), db, "AAPL", "BAD", SymbolRun(true, table), SymbolRun(false, table));
  }

  /** `["AAPL", "BAD"]` against an empty table: AAPL's two bars are stored, BAD's rejection is
      recorded as false, and the table then holds exactly the two AAPL rows. */
  lemma MixedRun(lib: Library, env: Env, t1: string, t2: string, d1: DateTime, d2: DateTime,
                 price: string, volume: string, now: int)
    requires lib.strptime(t1) == Some(d1) && lib.strptime(t2) == Some(d2) && d1 != d2
    requires lib.floatText(price).Some? && lib.intText(volume).Some?
    requires env(0) == Attempt(SeriesDocument(t1, t2, price, volume), false, now)
    requires env(1).response == ErrorDocument()
    ensures var r := ProcessMultipleSymbols(lib, env, map[], ["AAPL", "BAD"]);
            var x := lib.floatText(price).value;
            var q := Quote(x, x, x, x, lib.intText(volume).value);
            && r.results == map["AAPL" := true, "BAD" := false]
            && r.db == map[("AAPL", d1) := Row(q, now), ("AAPL", d2) := Row(q, now)]
            && |r.db| == 2
  {
    RunOverTable(lib, env, map[], t1, t2, d1, d2, price, volume, now);
    var x := lib.floatText(price).value;
    TwoRows(("AAPL", d1), ("AAPL", d2), Row(Quote(x, x, x, x, lib.intText(volume).value), now));
  }

  /** A table built from the empty one by two writes under distinct keys holds exactly two rows. */
  lemma TwoRows(k1: (string, DateTime), k2: (string, DateTime), row: Row)
    requires k1 != k2
    ensures var t: Db := map[][k1 := row][k2 := row];
            t == map[k1 := row, k2 := row] && |t| == 2
  {
    var t: Db := map[][k1 := row][k2 := row];
    assert t.Keys == {k1, k2};
  }

  /** A rejected symbol's step fails and writes nothing. */
  lemma BadStep(lib: Library, db: Db, symbol: string, attempt: Attempt)
    requires attempt.response == ErrorDocument()
    ensures ProcessSymbol(lib, db, symbol, attempt) == SymbolRun(false, db)
  {
    ErrorRejected(symbol);
    NotFetchedFails(lib, db, symbol, attempt);
  }

  lemma ErrorRejected(symbol: string)
    ensures FetchStockData(symbol, ErrorDocument()) == NoData(ApiError)
  {
    assert ErrorDocument().body.data.fields[0].0 == ErrorKey;
  }

  lemma NoteRejected(symbol: string)
    ensures FetchStockData(symbol, NoteDocument()) == NoData(RateLimited)
  {
    var fields := NoteDocument().body.data.fields;
    assert fields[0].0 == NoteKey;
    assert !HasKey(fields, ErrorKey);
  }

  /** Running the same list again with the same AAPL data still leaves two rows with the same
      prices and volumes; only `updated_at` moves to the second run's time. */
  lemma MixedRunAgain(lib: Library, env: Env, env': Env, t1: string, t2: string, d1: DateTime, d2: DateTime,
                      price: string, volume: string, now: int, later: int)
    requires lib.strptime(t1) == Some(d1) && lib.strptime(t2) == Some(d2) && d1 != d2
    requires lib.floatText(price).Some? && lib.intText(volume).Some?
    requires env(0) == Attempt(SeriesDocument(t1, t2, price, volume), false, now)
    requires env'(0) == Attempt(SeriesDocument(t1, t2, price, volume), false, later)
    requires env(1).response == ErrorDocument() && env'(1).response == ErrorDocument()
    ensures var once := ProcessMultipleSymbols(lib, env, map[], ["AAPL", "BAD"]);
            var twice := ProcessMultipleSymbols(lib, env', once.db, ["AAPL", "BAD"]);
            && twice.results == once.results
            && twice.db.Keys == once.db.Keys
            && |twice.db| == 2
            && forall k | k in once.db :: twice.db[k].quote == once.db[k].quote && twice.db[k].updatedAt == later
  {
    MixedRun(lib, env, t1, t2, d1, d2, price, volume, now);
    var once := ProcessMultipleSymbols(lib, env, map[], ["AAPL", "BAD"]);
    RunOverTable(lib, env', once.db, t1, t2, d1, d2, price, volume, later);
  }

  /** Once the quota is spent every call is answered with a note: each symbol fails, nothing is
      written, and the workflow task raises "All symbols failed to process". */
  lemma AllRateLimited(lib: Library, env: Env, db: Db, apiKey: Option<string>, symbolsVar: Option<string>)
    requires NewFetcher(apiKey).Return?
    requires forall i: nat :: env(i).response == NoteDocument()
    ensures Dag.FetchAndStoreStockData(lib, env, db, apiKey, symbolsVar) == Dag.Raised(Dag.AllSymbolsFailed, db)
  {
    var symbols := SymbolList(symbolsVar);
    forall i | 0 <= i < |symbols| ensures !FetchStockData(symbols[i], env(i).response).Fetched? {
      NoteRejected(symbols[i]);
    }
    NoFetchNoSuccess(lib, env, db, symbols);
  }

  /** `SYMBOLS="AAPL,AAPL"` lists the symbol twice. */
  lemma TwiceListed()
    ensures SymbolList(Some("AAPL,AAPL")) == ["AAPL", "AAPL"]
  {
    var parts := ["AAPL", "AAPL"];
    assert parts[1..] == ["AAPL"];
    assert Join(parts) == "AAPL,AAPL";
    ParseJoin(parts);
  }

  /** `["AAPL", "AAPL"]` whose first call stores the two bars and whose second is rejected: the
      dict ends with the last outcome only, yet the table keeps the first call's rows. */
  lemma RepeatedRun(lib: Library, env: Env, db: Db, t1: string, t2: string, d1: DateTime, d2: DateTime,
                    price: string, volume: string, now: int)
    requires lib.strptime(t1) == Some(d1) && lib.strptime(t2) == Some(d2) && d1 != d2
    requires lib.floatText(price).Some? && lib.intText(volume).Some?
    requires env(0) == Attempt(SeriesDocument(t1, t2, price, volume), false, now)
    requires env(1).response == ErrorDocument()
    ensures var r := ProcessMultipleSymbols(lib, env, db, ["AAPL", "AAPL"]);
            var x := lib.floatText(price).value;
            && r.results == map["AAPL" := false]
            && r.db == WithBars(db, d1, d2, Quote(x, x, x, x, lib.intText(volume).value), now)
  {
    var x := lib.floatText(price).value;
    var table := WithBars(db, d1, d2, Quote(x, x, x, x, lib.intText(volume).value), now);
    SeriesStep(lib, db, t1, t2, d1, d2, price, volume, now);
    BadStep(lib, table, "AAPL", env(1));
    RunOfTwo(Steps(lib, env), db, "AAPL", "AAPL", SymbolRun(true, table), SymbolRun(false, table));
    Overwritten("AAPL", true, false);
  }

  /** Writing a key twice leaves only the second value. */
  lemma Overwritten(key: string, first: bool, second: bool)
    ensures map[key := first][key := second] == map[key := second]
  {
  }

  /** A symbol listed twice whose first call stores its bars and whose second call is rejected:
      the dict keeps only the last outcome, false, so the task raises "All symbols failed to
      process" although the first call's two rows stay committed. */
  lemma RepeatedSymbolRaisesAfterWriting(lib: Library, env: Env, apiKey: Option<string>, t1: string, t2: string,
                                         d1: DateTime, d2: DateTime, price: string, volume: string, now: int)
    requires NewFetcher(apiKey).Return?
    requires lib.strptime(t1) == Some(d1) && lib.strptime(t2) == Some(d2) && d1 != d2
    requires lib.floatText(price).Some? && lib.intText(volume).Some?
    requires env(0) == Attempt(SeriesDocument(t1, t2, price, volume), false, now)
    requires env(1).response == ErrorDocument()
    ensures var task := Dag.FetchAndStoreStockData(lib, env, map[], apiKey, Some("AAPL,AAPL"));
            var x := lib.floatText(price).value;
            var q := Quote(x, x, x, x, lib.intText(volume).value);
            && task == Dag.Raised(Dag.AllSymbolsFailed, map[("AAPL", d1) := Row(q, now), ("AAPL", d2) := Row(q, now)])
            && |task.db| == 2
  {
    TwiceListed();
    RepeatedRun(lib, env, map[], t1, t2, d1, d2, price, volume, now);
    NoneSucceeded("AAPL");
    var x := lib.floatText(price).value;
    TwoRows(("AAPL", d1), ("AAPL", d2), Row(Quote(x, x, x, x, lib.intText(volume).value), now));
  }

  /** A dict whose one outcome is false counts no success. */
  lemma NoneSucceeded(symbol: string)
    ensures SuccessCount(map[symbol := false]) == 0
  {
    assert Successes(map[symbol := false]) == {};
  }
}
