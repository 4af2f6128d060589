/** The decision logic of the workflow's two Python tasks: `fetch_and_store_stock_data`, which
    fails only when every symbol failed, and `generate_summary`'s count arithmetic. */
module Dag {
  import opened Wrappers
  import opened Records
  import opened Conversions
  import opened Fetch
  import opened Pipeline
  import opened Symbols

  /** Why the task raised: the constructor's missing-key `ValueError`, or "All symbols failed to process". */
  datatype TaskError = ConfigurationError | AllSymbolsFailed

  /** The task's end: its return value (pushed for the next task), or the exception it re-raises.
      Either way the table keeps what the run committed. */
  datatype TaskResult = Returned(results: map<string, bool>, db: Db) | Raised(error: TaskError, db: Db)

  function FetchAndStoreStockData(lib: Library, env: Env, db: Db, apiKey: Option<string>, symbolsVar: Option<string>): (r: TaskResult)
    ensures NewFetcher(apiKey).Raise? ==> r == Raised(ConfigurationError, db)
    ensures NewFetcher(apiKey).Return? ==>
      var run := ProcessMultipleSymbols(lib, env, db, SymbolList(symbolsVar));
      && (r.Raised? <==> SuccessCount(run.results) == 0)
      && (r.Raised? ==> r.error == AllSymbolsFailed)
      && r.db == run.db
      && (r.Returned? ==> r.results == run.results)
    // partial success is a normal return
    ensures r.Returned? ==> 1 <= SuccessCount(r.results) <= |r.results| <= |SymbolList(symbolsVar)|
  {
    match NewFetcher(apiKey)
    case Raise(_) => Raised(ConfigurationError, db)
    case Return(_) =>
      var symbols := SymbolList(symbolsVar);
      var run := ProcessMultipleSymbols(lib, env, db, symbols);
      CountBounds(Steps(lib, env), db, symbols);
      if SuccessCount(run.results) == 0 then Raised(AllSymbolsFailed, run.db)
      else Returned(run.results, run.db)
  }

  /** The message returned when the previous task left nothing to summarise. */
  const NoSummaryMessage := "No summary available"

  /** The counts the summary text reports, or the fallback message. */
  datatype Summary = Summary(total: nat, successful: nat, failed: int) | NoSummary(message: string)

  /** `generate_summary`: `if results:` is false for a missing value and for an empty dict. */
  function GenerateSummary(pulled: Option<map<string, bool>>): (r: Summary)
    ensures r.NoSummary? <==> pulled.None? || |pulled.value| == 0
    ensures r.NoSummary? ==> r.message == NoSummaryMessage
    ensures r.Summary? ==> r.total == |pulled.value| && r.successful == SuccessCount(pulled.value)
    ensures r.Summary? ==> 0 <= r.failed && r.successful + r.failed == r.total
  {
    if pulled.None? || |pulled.value| == 0 then NoSummary(NoSummaryMessage)
    else
      var results := pulled.value;
      AllSucceededCount(results);
      Summary(|results|, SuccessCount(results), |results| - SuccessCount(results))
  }

  /** What the summary task pulls from the fetch task: its return value, nothing if it raised. */
  function Pulled(task: TaskResult): Option<map<string, bool>> {
    if task.Returned? then Some(task.results) else None
  }

  /** End to end: a summary is produced exactly when the fetch task returned, and it then
      reports at least one success. */
  lemma SummaryAfterTask(lib: Library, env: Env, db: Db, apiKey: Option<string>, symbolsVar: Option<string>)
    ensures var task := FetchAndStoreStockData(lib, env, db, apiKey, symbolsVar);
            var summary := GenerateSummary(Pulled(task));
            && (summary.Summary? <==> task.Returned?)
            && (summary.Summary? ==> summary.successful >= 1 && summary.total >= 1)
            && (summary.NoSummary? ==> summary.message == NoSummaryMessage)
  {
  }

  /** With distinct symbols, an all-failed run wrote nothing before the task raised. */
  lemma AllFailedWritesNothing(lib: Library, env: Env, db: Db, apiKey: Option<string>, symbolsVar: Option<string>)
    requires Distinct(SymbolList(symbolsVar))
    ensures var task := FetchAndStoreStockData(lib, env, db, apiKey, symbolsVar);
            task.Raised? ==> task.db == db
  {
    var symbols := SymbolList(symbolsVar);
    var task := FetchAndStoreStockData(lib, env, db, apiKey, symbolsVar);
    var r := ProcessMultipleSymbols(lib, env, db, symbols);
    RunShape(Steps(lib, env), db, symbols);
    StepsKeep(lib, env);
    if task.Raised? && NewFetcher(apiKey).Return? {
      forall i | 0 <= i < |symbols| ensures !r.trace[2 * i].ok {
        assert LastOccurrence(symbols, i);
        assert symbols[i] !in Successes(r.results);
      }
      AllFailedRun(r, symbols);
    }
  }
}
