/** The orchestration: `process_symbol` (fetch, parse, store, never raising) and
    `process_multiple_symbols` (every symbol in list order, a 12-second pause between
    consecutive symbols, outcomes collected in a dict). */
module Pipeline {
  import opened Wrappers
  import opened Conversions
  import opened Records
  import opened Fetch
  import opened Parse
  import opened Store

  /** The pause between two API calls: the free tier allows 5 calls per minute. */
  const PauseSeconds: nat := 12

  /** What the outside world does on one call: the provider's response, whether the database
      refuses the transaction, and the transaction's `CURRENT_TIMESTAMP`. */
  datatype Attempt = Attempt(response: Response, dbFails: bool, now: int)

  /** The outside world of a run, indexed by the position of the symbol being processed. */
  type Env = nat -> Attempt

  datatype SymbolRun = SymbolRun(ok: bool, db: Db)

  /** The records a symbol's pipeline hands to the store: the parsed records when the fetch
      and the parse succeed, and none otherwise. */
  function ParsedBatch(lib: Library, symbol: string, response: Response): seq<StockRecord> {
    match FetchStockData(symbol, response)
    case Fetched(_, series) => (
      match ParseStockData(lib, symbol, series)
      case Records(records) => records
      case _ => [])
    case _ => []
  }

  /** `process_symbol`: true iff data was fetched, parsed to a non-empty list and stored with a
      positive row count. Every failure, raised or returned, becomes false. */
  function ProcessSymbol(lib: Library, db: Db, symbol: string, attempt: Attempt): (r: SymbolRun)
    // a symbol that fails leaves the table exactly as it was
    ensures !r.ok ==> r.db == db
  {
    match FetchStockData(symbol, attempt.response)
    case NoData(_) => SymbolRun(false, db)
    case FetchRaised(_) => SymbolRun(false, db)
    case Fetched(_, series) =>
      var parse := ParseStockData(lib, symbol, series);
      if parse.ParseRaised? then SymbolRun(false, db)
      else
        var parsed := AsList(parse);
        if parsed == [] then SymbolRun(false, db)
        else
          match StoreStockData(db, parsed, attempt.now, attempt.dbFails)
          case RolledBack(_) => SymbolRun(false, db)
          case Committed(db', rows) => SymbolRun(rows > 0, db')
  }

  /** A symbol succeeds exactly when its fetch and parse produce records, the database accepts
      the transaction and no page repeats a key; it then holds what the store committed. */
  lemma ProcessSymbolOk(lib: Library, db: Db, symbol: string, attempt: Attempt)
    ensures var r := ProcessSymbol(lib, db, symbol, attempt);
            var batch := ParsedBatch(lib, symbol, attempt.response);
            && (r.ok <==> batch != [] && !attempt.dbFails && PagesDistinct(batch))
            && (r.ok ==> r.db == StoreStockData(db, batch, attempt.now, false).db)
  {
  }

  /** A symbol that succeeds has written its own records: every key of its batch, with the
      prices and volume of the last record carrying it, and left every other row alone. */
  lemma SuccessStoresBatch(lib: Library, db: Db, symbol: string, attempt: Attempt)
    requires ProcessSymbol(lib, db, symbol, attempt).ok
    ensures var r := ProcessSymbol(lib, db, symbol, attempt).db;
            var batch := ParsedBatch(lib, symbol, attempt.response);
            && r.Keys == db.Keys + KeysOf(batch)
            && (forall k | k in db && k !in KeysOf(batch) :: r[k] == db[k])
            && forall i | 0 <= i < |batch| && LastWithKey(batch, i) ::
                 batch[i].symbol == symbol && r[KeyOf(batch[i])] == RowOf(batch[i], attempt.now)
  {
    var batch := ParsedBatch(lib, symbol, attempt.response);
    var f := FetchStockData(symbol, attempt.response);
    var p := ParseStockData(lib, symbol, f.series);
    ProcessSymbolOk(lib, db, symbol, attempt);
    assert batch == p.records;
  }

  /** One event of a run: a symbol processed with its outcome, or a pause. */
  datatype Event = Processed(symbol: string, ok: bool) | Sleep(seconds: nat)

  datatype BatchRun = BatchRun(results: map<string, bool>, trace: seq<Event>, db: Db)

  predicate Succeeded(e: Event) {
    e.Processed? && e.ok
  }

  predicate LastOccurrence(symbols: seq<string>, i: int)
    requires 0 <= i < |symbols|
  {
    forall j | i < j < |symbols| :: symbols[j] != symbols[i]
  }

  function TraceLength(n: nat): nat {
    if n == 0 then 0 else 2 * n - 1
  }

  /** The pacing of a run over `symbols`: symbol events at even positions, in list order, and
      a pause at every odd position, so a pause sits between each two consecutive symbols. */
  predicate Paced(trace: seq<Event>, symbols: seq<string>) {
    && |trace| == TraceLength(|symbols|)
    && (forall j | 0 <= j < |trace| :: trace[j].Processed? <==> j % 2 == 0)
    && (forall i | 0 <= i < |symbols| :: trace[2 * i].Processed? && trace[2 * i].symbol == symbols[i])
    && (forall j | 0 <= j < |trace| && j % 2 == 1 :: trace[j] == Sleep(PauseSeconds))
  }

  /** The outcome dict of a run: one key per distinct symbol, holding the outcome its last
      occurrence recorded in the trace. */
  predicate Collected(results: map<string, bool>, trace: seq<Event>, symbols: seq<string>)
    requires Paced(trace, symbols)
  {
    && results.Keys == SymbolSet(symbols)
    && forall i | 0 <= i < |symbols| && LastOccurrence(symbols, i) :: results[symbols[i]] == trace[2 * i].ok
  }

  lemma PacedSnoc(trace: seq<Event>, symbols: seq<string>, ok: bool)
    requires |symbols| > 0 && Paced(trace, symbols[..|symbols| - 1])
    ensures var n := |symbols| - 1;
            var trace' := trace + (if n > 0 then [Sleep(PauseSeconds)] else []) + [Processed(symbols[n], ok)];
            && Paced(trace', symbols)
            && trace'[2 * n] == Processed(symbols[n], ok)
            && trace'[..|trace|] == trace
  {
    var n := |symbols| - 1;
    var trace' := trace + (if n > 0 then [Sleep(PauseSeconds)] else []) + [Processed(symbols[n], ok)];
    assert forall j | 0 <= j < |trace| :: trace'[j] == trace[j];
    forall i | 0 <= i < n ensures trace'[2 * i].Processed? && trace'[2 * i].symbol == symbols[i] {
      assert symbols[..n][i] == symbols[i];
    }
  }

  /** The distinct symbols of a list. */
  function SymbolSet(symbols: seq<string>): set<string> {
    set s | s in symbols
  }

  lemma SymbolSetSnoc(symbols: seq<string>)
    requires |symbols| > 0
    ensures SymbolSet(symbols) == SymbolSet(symbols[..|symbols| - 1]) + {symbols[|symbols| - 1]}
  {
    assert symbols == symbols[..|symbols| - 1] + [symbols[|symbols| - 1]];
  }

  lemma CollectedSnoc(results: map<string, bool>, trace: seq<Event>, symbols: seq<string>, ok: bool)
    requires |symbols| > 0 && Paced(trace, symbols[..|symbols| - 1])
    requires Collected(results, trace, symbols[..|symbols| - 1])
    ensures var n := |symbols| - 1;
            var trace' := trace + (if n > 0 then [Sleep(PauseSeconds)] else []) + [Processed(symbols[n], ok)];
            Paced(trace', symbols) && Collected(results[symbols[n] := ok], trace', symbols)
  {
    var n := |symbols| - 1;
    var trace' := trace + (if n > 0 then [Sleep(PauseSeconds)] else []) + [Processed(symbols[n], ok)];
    PacedSnoc(trace, symbols, ok);
    SymbolSetSnoc(symbols);
    LastOutcomesSnoc(results, trace, symbols, ok);
  }

  lemma LastOutcomesSnoc(results: map<string, bool>, trace: seq<Event>, symbols: seq<string>, ok: bool)
    requires |symbols| > 0 && Paced(trace, symbols[..|symbols| - 1])
    requires Collected(results, trace, symbols[..|symbols| - 1])
    ensures var n := |symbols| - 1;
            var trace' := trace + (if n > 0 then [Sleep(PauseSeconds)] else []) + [Processed(symbols[n], ok)];
            forall i | 0 <= i < |symbols| && LastOccurrence(symbols, i) ::
              2 * i < |trace'| && results[symbols[n] := ok][symbols[i]] == trace'[2 * i].ok
  {
    var n := |symbols| - 1;
    var trace' := trace + (if n > 0 then [Sleep(PauseSeconds)] else []) + [Processed(symbols[n], ok)];
    forall i | 0 <= i < |symbols| && LastOccurrence(symbols, i)
      ensures 2 * i < |trace'| && results[symbols[n] := ok][symbols[i]] == trace'[2 * i].ok
    {
      if i < n {
        assert symbols[..n][i] == symbols[i];
        assert LastOccurrence(symbols[..n], i);
        assert trace'[2 * i] == trace[2 * i];
      }
    }
  }

  /** One call of `process_symbol` as the loop sees it: the table before the call, the symbol
      and its position in the list give the outcome and the table after the call. */
  type StepFn = (Db, string, nat) -> SymbolRun

  /** A step that fails leaves the table as it found it. */
  ghost predicate Keeps(step: StepFn) {
    forall d, s, i :: !step(d, s, i).ok ==> step(d, s, i).db == d
  }

  /** The loop's step: `process_symbol` with the `i`-th call's outside world. */
  function Steps(lib: Library, env: Env): StepFn {
    (d: Db, s: string, i: nat) => ProcessSymbol(lib, d, s, env(i))
  }

  lemma StepsKeep(lib: Library, env: Env)
    ensures Keeps(Steps(lib, env))
  {
    forall d, s, i ensures !Steps(lib, env)(d, s, i).ok ==> Steps(lib, env)(d, s, i).db == d {
      var r := ProcessSymbol(lib, d, s, env(i));
      assert Steps(lib, env)(d, s, i) == r;
    }
  }

  /** The loop of `process_multiple_symbols` over any step. Symbol `n` runs against the table the
      earlier symbols left, preceded by a pause when it is not the first; `results[symbol] = ok`
      keeps the last outcome. */
  function Run(step: StepFn, db: Db, symbols: seq<string>): (r: BatchRun)
    ensures |r.trace| == TraceLength(|symbols|)
    decreases |symbols|
  {
    if |symbols| == 0 then BatchRun(map[], [], db)
    else
      var n := |symbols| - 1;
      var prev := Run(step, db, symbols[..n]);
      Extend(prev, symbols[n], step(prev.db, symbols[n], n))
  }

  /** `process_multiple_symbols`. */
  function ProcessMultipleSymbols(lib: Library, env: Env, db: Db, symbols: seq<string>): BatchRun {
    Run(Steps(lib, env), db, symbols)
  }

  /** The shape of every run: paced, with one dict entry per distinct symbol holding its last outcome. */
  predicate WellShaped(r: BatchRun, symbols: seq<string>) {
    Paced(r.trace, symbols) && Collected(r.results, r.trace, symbols)
  }

  /** A run in which nothing succeeded wrote nothing. */
  predicate Quiet(r: BatchRun, db: Db) {
    (forall j | 0 <= j < |r.trace| :: !Succeeded(r.trace[j])) ==> r.db == db
  }

  /** The run over a list is the run over all but its last symbol, extended by that symbol's step. */
  function Extend(prev: BatchRun, symbol: string, step: SymbolRun): BatchRun {
    var pause := if |prev.trace| > 0 then [Sleep(PauseSeconds)] else [];
    BatchRun(prev.results[symbol := step.ok], prev.trace + pause + [Processed(symbol, step.ok)], step.db)
  }

  lemma ExtendShaped(prev: BatchRun, db: Db, symbols: seq<string>, step: SymbolRun)
    requires |symbols| > 0 && WellShaped(prev, symbols[..|symbols| - 1])
    ensures WellShaped(Extend(prev, symbols[|symbols| - 1], step), symbols)
    ensures Quiet(prev, db) && (!step.ok ==> step.db == prev.db) ==> Quiet(Extend(prev, symbols[|symbols| - 1], step), db)
  {
    var n := |symbols| - 1;
    var r := Extend(prev, symbols[n], step);
    PacedSnoc(prev.trace, symbols, step.ok);
    CollectedSnoc(prev.results, prev.trace, symbols, step.ok);
    if forall j | 0 <= j < |r.trace| :: !Succeeded(r.trace[j]) {
      assert forall j | 0 <= j < |prev.trace| :: r.trace[j] == prev.trace[j];
      assert !Succeeded(r.trace[2 * n]);
    }
  }

  lemma {:induction false} RunShape(step: StepFn, db: Db, symbols: seq<string>)
    ensures WellShaped(Run(step, db, symbols), symbols)
    ensures Keeps(step) ==> Quiet(Run(step, db, symbols), db)
    decreases |symbols|
  {
    if |symbols| > 0 {
      var n := |symbols| - 1;
      var prev := Run(step, db, symbols[..n]);
      var last := step(prev.db, symbols[n], n);
      RunShape(step, db, symbols[..n]);
      ExtendShaped(prev, db, symbols, last);
      assert Run(step, db, symbols) == Extend(prev, symbols[n], last);
    }
  }

  /** Symbols run in list order: symbol `i`'s outcome is the step applied to the table as the
      first `i` symbols left it, at position `i`. */
  lemma EachSymbolSeesEarlierWrites(step: StepFn, db: Db, symbols: seq<string>, i: nat)
    requires i < |symbols|
    ensures var before := Run(step, db, symbols[..i]).db;
            Run(step, db, symbols).trace[2 * i] == Processed(symbols[i], step(before, symbols[i], i).ok)
  {
    var upTo := symbols[..i + 1];
    RunSnoc(step, db, upTo);
    assert upTo[..i] == symbols[..i] && upTo[i] == symbols[i];
    var short := Run(step, db, upTo).trace;
    assert short[2 * i] == Processed(symbols[i], step(Run(step, db, symbols[..i]).db, symbols[i], i).ok);
    TracePrefix(step, db, symbols, i + 1);
    assert short[2 * i] == Run(step, db, symbols).trace[2 * i];
  }

  /** The run over a prefix of the list is a prefix of the run over the whole list. */
  lemma {:induction false} TracePrefix(step: StepFn, db: Db, symbols: seq<string>, k: nat)
    requires k <= |symbols|
    ensures var short := Run(step, db, symbols[..k]).trace;
            var long := Run(step, db, symbols).trace;
            |short| <= |long| && forall j | 0 <= j < |short| :: short[j] == long[j]
    decreases |symbols|
  {
    if k < |symbols| {
      var n := |symbols| - 1;
      RunSnoc(step, db, symbols);
      TracePrefix(step, db, symbols[..n], k);
      assert symbols[..n][..k] == symbols[..k];
    } else {
      assert symbols[..k] == symbols;
    }
  }

  /** One more symbol extends the run by its pause, if any, and its own event. */
  lemma RunSnoc(step: StepFn, db: Db, symbols: seq<string>)
    requires |symbols| > 0
    ensures var n := |symbols| - 1;
            var prev := Run(step, db, symbols[..n]);
            var trace := Run(step, db, symbols).trace;
            && |prev.trace| == 2 * n - (if n > 0 then 1 else 0)
            && |trace| == 2 * n + 1
            && (forall j | 0 <= j < |prev.trace| :: trace[j] == prev.trace[j])
            && trace[2 * n] == Processed(symbols[n], step(prev.db, symbols[n], n).ok)
  {
  }

  /** The number of pauses in a trace. */
  function Pauses(trace: seq<Event>): nat {
    if |trace| == 0 then 0
    else Pauses(trace[..|trace| - 1]) + (if trace[|trace| - 1].Sleep? then 1 else 0)
  }

  lemma {:induction false} PausesOfAlternating(trace: seq<Event>)
    requires forall j | 0 <= j < |trace| :: trace[j].Sleep? <==> j % 2 == 1
    ensures Pauses(trace) == |trace| / 2
  {
    if |trace| > 0 {
      var m := |trace| - 1;
      assert forall j | 0 <= j < m :: trace[..m][j] == trace[j];
      PausesOfAlternating(trace[..m]);
    }
  }

  /** Pacing: a run over n symbols pauses exactly max(0, n - 1) times, never before the first
      symbol nor after the last. */
  lemma PauseCount(step: StepFn, db: Db, symbols: seq<string>)
    ensures var trace := Run(step, db, symbols).trace;
            && Pauses(trace) == (if |symbols| == 0 then 0 else |symbols| - 1)
            && (|symbols| > 0 ==> trace[0].Processed? && trace[|trace| - 1].Processed?)
  {
    var trace := Run(step, db, symbols).trace;
    RunShape(step, db, symbols);
    PausesOfAlternating(trace);
  }

  /** `sum(1 for v in results.values() if v)`. */
  function SuccessCount(results: map<string, bool>): nat {
    |Successes(results)|
  }

  /** The symbols whose outcome is true. */
  function Successes(results: map<string, bool>): set<string> {
    set s | s in results && results[s]
  }

  predicate Distinct(symbols: seq<string>) {
    forall i, j | 0 <= i < j < |symbols| :: symbols[i] != symbols[j]
  }

  lemma {:induction false} SymbolSetSize(symbols: seq<string>)
    ensures |SymbolSet(symbols)| <= |symbols|
    ensures |SymbolSet(symbols)| == |symbols| <==> Distinct(symbols)
    decreases |symbols|
  {
    if |symbols| > 0 {
      var n := |symbols| - 1;
      var init := symbols[..n];
      SymbolSetSnoc(symbols);
      SymbolSetSize(init);
      DistinctSnoc(symbols);
    }
  }

  /** A list is distinct exactly when its front is and its last symbol is new. */
  lemma DistinctSnoc(symbols: seq<string>)
    requires |symbols| > 0
    ensures var n := |symbols| - 1;
            Distinct(symbols) <==> Distinct(symbols[..n]) && symbols[n] !in SymbolSet(symbols[..n])
  {
    var n := |symbols| - 1;
    var init := symbols[..n];
    if symbols[n] in SymbolSet(init) {
      var k :| 0 <= k < n && init[k] == symbols[n];
      assert symbols[k] == symbols[n];
    } else {
      forall i, j | 0 <= i < j < n ensures init[i] == symbols[i] && init[j] == symbols[j] { }
      forall i | 0 <= i < n ensures symbols[i] != symbols[n] {
        assert init[i] == symbols[i];
      }
    }
  }

  lemma SubsetSize<T>(a: set<T>, b: set<T>)
    requires a <= b
    ensures |a| <= |b|
    ensures |a| == |b| ==> a == b
  {
    assert b == a + (b - a);
    assert a * (b - a) == {};
    assert |b| == |a| + |b - a|;
  }

  /** `success_count <= len(results) <= len(symbols)`, and the dict has as many entries as the
      list exactly when the list has no duplicates. */
  lemma CountBounds(step: StepFn, db: Db, symbols: seq<string>)
    ensures var results := Run(step, db, symbols).results;
            && SuccessCount(results) <= |results| <= |symbols|
            && (|results| == |symbols| <==> Distinct(symbols))
  {
    var results := Run(step, db, symbols).results;
    RunShape(step, db, symbols);
    SymbolSetSize(symbols);
    SubsetSize(Successes(results), results.Keys);
  }

  /** Every key counts as a success exactly when the success count reaches the dict's size. */
  lemma AllSucceededCount(results: map<string, bool>)
    ensures SuccessCount(results) <= |results|
    ensures SuccessCount(results) == |results| <==> forall s | s in results :: results[s]
  {
    var wins := Successes(results);
    SubsetSize(wins, results.Keys);
    if SuccessCount(results) == |results| {
      assert wins == results.Keys;
    }
    if forall s | s in results :: results[s] {
      assert wins == results.Keys;
    }
  }

  /** Failures are isolated and never raise: when every call's fetch fails (the provider is
      down, rate-limits or rejects each request), every symbol is reported false and nothing is written. */
  lemma NoFetchNoSuccess(lib: Library, env: Env, db: Db, symbols: seq<string>)
    requires forall i | 0 <= i < |symbols| :: !FetchStockData(symbols[i], env(i).response).Fetched?
    ensures var r := ProcessMultipleSymbols(lib, env, db, symbols);
            && (forall s | s in r.results :: !r.results[s])
            && SuccessCount(r.results) == 0
            && r.db == db
  {
    var r := ProcessMultipleSymbols(lib, env, db, symbols);
    var step := Steps(lib, env);
    RunShape(step, db, symbols);
    StepsKeep(lib, env);
    forall i | 0 <= i < |symbols| ensures !r.trace[2 * i].ok {
      EachSymbolSeesEarlierWrites(step, db, symbols, i);
      NotFetchedFails(lib, Run(step, db, symbols[..i]).db, symbols[i], env(i));
    }
    AllFailedRun(r, symbols);
  }

  lemma NotFetchedFails(lib: Library, db: Db, symbol: string, attempt: Attempt)
    requires !FetchStockData(symbol, attempt.response).Fetched?
    ensures !ProcessSymbol(lib, db, symbol, attempt).ok
  {
    assert ParsedBatch(lib, symbol, attempt.response) == [];
    ProcessSymbolOk(lib, db, symbol, attempt);
  }

  /** A run whose every symbol event failed reports every symbol false and has no success event. */
  lemma AllFailedRun(r: BatchRun, symbols: seq<string>)
    requires Paced(r.trace, symbols) && Collected(r.results, r.trace, symbols)
    requires forall i | 0 <= i < |symbols| :: !r.trace[2 * i].ok
    ensures forall j | 0 <= j < |r.trace| :: !Succeeded(r.trace[j])
    ensures forall s | s in r.results :: !r.results[s]
    ensures SuccessCount(r.results) == 0
  {
    NoSuccessEvent(r.trace, symbols);
    NoSuccessOutcome(r.results, r.trace, symbols);
    assert Successes(r.results) == {};
  }

  lemma NoSuccessEvent(trace: seq<Event>, symbols: seq<string>)
    requires Paced(trace, symbols)
    requires forall i | 0 <= i < |symbols| :: !trace[2 * i].ok
    ensures forall j | 0 <= j < |trace| :: !Succeeded(trace[j])
  {
    forall j | 0 <= j < |trace| ensures !Succeeded(trace[j]) {
      if j % 2 == 0 {
        var i := j / 2;
        assert trace[2 * i] == trace[j];
      }
    }
  }

  lemma NoSuccessOutcome(results: map<string, bool>, trace: seq<Event>, symbols: seq<string>)
    requires Paced(trace, symbols) && Collected(results, trace, symbols)
    requires forall i | 0 <= i < |symbols| :: !trace[2 * i].ok
    ensures forall s | s in results :: !results[s]
  {
    forall s | s in results ensures !results[s] {
      assert s in SymbolSet(symbols);
      var i :| 0 <= i < |symbols| && symbols[i] == s;
      LastOccurrenceExists(symbols, i);
    }
  }

  /** Every symbol of a list has a last occurrence, at or after any of its positions. */
  lemma {:induction false} LastOccurrenceExists(symbols: seq<string>, i: nat)
    requires i < |symbols|
    ensures exists k | i <= k < |symbols| :: symbols[k] == symbols[i] && LastOccurrence(symbols, k)
    decreases |symbols| - i
  {
    if !LastOccurrence(symbols, i) {
      var j :| i < j < |symbols| && symbols[j] == symbols[i];
      LastOccurrenceExists(symbols, j);
    }
  }
}
