/** The exit rule of the script's `main`: status 1 when the constructor raises or when fewer
    successes than listed symbols were counted. */
module Cli {
  import opened Wrappers
  import opened Records
  import opened Conversions
  import opened Fetch
  import opened Pipeline
  import opened Symbols
  import Dag

  /** The process exit status, and the table the run left behind. */
  datatype MainRun = MainRun(exitCode: int, db: Db)

  function RunMain(lib: Library, env: Env, db: Db, apiKey: Option<string>, symbolsVar: Option<string>): (r: MainRun)
    ensures r.exitCode == 0 || r.exitCode == 1
    ensures NewFetcher(apiKey).Raise? ==> r == MainRun(1, db)
    ensures NewFetcher(apiKey).Return? ==>
      var symbols := SymbolList(symbolsVar);
      var run := ProcessMultipleSymbols(lib, env, db, symbols);
      && r.db == run.db
      && (r.exitCode == 0 <==> SuccessCount(run.results) == |symbols|)
  {
    match NewFetcher(apiKey)
    case Raise(_) => MainRun(1, db)
    case Return(_) =>
      var symbols := SymbolList(symbolsVar);
      var run := ProcessMultipleSymbols(lib, env, db, symbols);
      CountBounds(Steps(lib, env), db, symbols);
      MainRun(if SuccessCount(run.results) < |symbols| then 1 else 0, run.db)
  }

  /** `main` exits 0 exactly when the key is set, the list has no duplicates and every symbol succeeded. */
  lemma ExitZeroIff(lib: Library, env: Env, db: Db, apiKey: Option<string>, symbolsVar: Option<string>)
    ensures var symbols := SymbolList(symbolsVar);
            var results := ProcessMultipleSymbols(lib, env, db, symbols).results;
            var allOk := forall s | s in results :: results[s];
            RunMain(lib, env, db, apiKey, symbolsVar).exitCode == 0 <==> NewFetcher(apiKey).Return? && Distinct(symbols) && allOk
  {
    var symbols := SymbolList(symbolsVar);
    var results := ProcessMultipleSymbols(lib, env, db, symbols).results;
    CountBounds(Steps(lib, env), db, symbols);
    AllSucceededCount(results);
  }

  /** A list naming a symbol twice makes `main` exit 1 even when every call succeeds: the count
      is taken over the dict, the comparison against the list. */
  lemma DuplicatesExitOne(lib: Library, env: Env, db: Db, apiKey: Option<string>, symbolsVar: Option<string>)
    requires !Distinct(SymbolList(symbolsVar))
    ensures RunMain(lib, env, db, apiKey, symbolsVar).exitCode == 1
  {
    CountBounds(Steps(lib, env), db, SymbolList(symbolsVar));
  }

  /** The two escalation policies differ on partial success: the workflow task returns normally
      while `main` exits 1. */
  lemma PartialSuccessPolicies(lib: Library, env: Env, db: Db, apiKey: Option<string>, symbolsVar: Option<string>)
    requires NewFetcher(apiKey).Return?
    requires var results := ProcessMultipleSymbols(lib, env, db, SymbolList(symbolsVar)).results;
             0 < SuccessCount(results) < |results|
    ensures Dag.FetchAndStoreStockData(lib, env, db, apiKey, symbolsVar).Returned?
    ensures RunMain(lib, env, db, apiKey, symbolsVar).exitCode == 1
  {
    CountBounds(Steps(lib, env), db, SymbolList(symbolsVar));
  }
}
