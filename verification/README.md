# Stock data pipeline — a Dafny model

This project models the core of the `stock_data_pipeline` repository, an hourly job. Each run:

- reads a comma-separated list of ticker symbols;
- asks the Alpha Vantage quote service for each symbol's 60-minute series, pausing 12 seconds between calls;
- turns each series into records;
- upserts the records into the PostgreSQL table `stock_prices`, keyed on (symbol, timestamp);
- reports which symbols succeeded.

The job has two entry points, modelled side by side:

- the script's `main`, which exits 1 unless every listed symbol succeeded;
- the workflow task `fetch_and_store_stock_data`, which raises only when no symbol succeeded. It is followed by `generate_summary`.

The model is pure: every call into the outside world is a parameter. That covers the provider's response, a failing database, the transaction's `CURRENT_TIMESTAMP`, the environment variables and the text grammars of Python's `strptime`, `float` and `int`.

Modules, in dependency order:

- `Wrappers`: `Option`, `Outcome` (return or raise) and the exception classes the code tells apart.
- `Digits`, `Timestamps`: digit strings; the `YYYY-MM-DD HH:MM:SS` form, with a canonical instance of `strptime`.
- `Json`: decoded documents, `key in data` and `dict.get`.
- `Conversions`: `float(v)` and `int(v)` over every JSON value kind. `Library` is the text-grammar parameter; `Plain` is a concrete instance.
- `Records`: the parsed tuple, the stored row and the table, a map from key to row.
- `Fetch`: the constructor's key check, and the classification of one response.
- `Parse`: `parse_stock_data`, all or nothing.
- `Store`: `store_stock_data`, a map upsert in pages of 100 rows inside one transaction.
- `Pipeline`: `process_symbol` and `process_multiple_symbols`. The loop is `Run`, over any step function; its trace records each processed symbol and each pause.
- `Symbols`: `[s.strip() for s in symbols_str.split(',')]`.
- `Dag`: the workflow task and the summary's counts.
- `Cli`: `main`'s exit status.
- `Scenarios`: end-to-end runs over concrete documents.

Where the code differs from the project's own description of it, the model follows the code:

- A response whose series object is empty passes the fetch check. Only the presence of the key is tested. The symbol then fails in `process_symbol`, because nothing was parsed.
- Two records with the same key inside one 100-row page make PostgreSQL reject the statement. The transaction then rolls back and the symbol fails. This is modelled as an outcome, not as a precondition.
- The returned row count is `cursor.rowcount` after `execute_values`, which is the row count of the last page's statement. It is not the batch size.

## Model

| member | source | states |
|---|---|---|
| Fetch.NewFetcher | scripts/fetch_stock_data.py:23-37 | a fetcher exists exactly when `ALPHA_VANTAGE_API_KEY` is set and non-empty; otherwise `ValueError` |
| Fetch.FetchStockData | scripts/fetch_stock_data.py:54-103 | a transport failure, a 4xx/5xx status or undecodable JSON gives `None`; then "Error Message", then "Note", then a missing series gives `None`, in that order; success exactly when the object carries the series and neither sentinel, returning the symbol and the series value found in the document; only a non-object document can raise, and it raises `TypeError` unless it is a list or text mentioning none of the three keys, which gives `None` |
| Fetch.ErrorBeatsNote | scripts/fetch_stock_data.py:80-86 | a payload with both sentinels is reported as a provider error |
| Fetch.SentinelListRaises | scripts/fetch_stock_data.py:80-86 | a list holding a sentinel passes the `in` test and then raises `TypeError` when the message indexes it by the sentinel |
| Fetch.EmptySeriesIsFetched | scripts/fetch_stock_data.py:88-96 | an empty series object is returned as fetched data |
| Json.GetFound | scripts/fetch_stock_data.py:95 | `data[key]` for a present key is the value of an entry carrying that key |
| Json.GetFirstMatch | scripts/fetch_stock_data.py:125-129 | `values.get(key, 0)` returns the value of the first entry with that key |
| Json.Contains | scripts/fetch_stock_data.py:80-88 | `key in data` is key membership for an object, and raises exactly for null, numbers and booleans |
| Conversions.ToFloat | scripts/fetch_stock_data.py:125-128 | `float(v)` raises `TypeError` exactly for null, lists and objects and `ValueError` exactly for rejected text; the absent-field default 0 gives 0.0 |
| Conversions.ToInt | scripts/fetch_stock_data.py:129 | `int(v)` has the same error split; the default 0 gives 0 |
| Conversions.Truncate | scripts/fetch_stock_data.py:129 | `int(x)` of a float rounds toward zero |
| Conversions.IntegerTextOfPadded | scripts/fetch_stock_data.py:129 | a digit string, unsigned or after `-` or `+`, reads back as the number it spells |
| Conversions.DecimalTextOfPadded | scripts/fetch_stock_data.py:125-128 | `whole.frac` reads back as whole plus frac scaled by its width |
| Timestamps.Canonical | scripts/fetch_stock_data.py:122 | every accepted text is a valid calendar date-time whose formatting is that text |
| Timestamps.FormatThenParse | scripts/fetch_stock_data.py:122 | every valid date-time is accepted back from its formatted text |
| Timestamps.CanonicalInjective | scripts/fetch_stock_data.py:122 | two accepted texts naming the same instant are the same text |
| Digits.ValueOfPadded | scripts/fetch_stock_data.py:122 | a zero-padded number reads back as itself |
| Digits.PaddedValueOf | scripts/fetch_stock_data.py:122 | a digit string is the padding of its value |
| Parse.ParseEntry | scripts/fetch_stock_data.py:120-139 | timestamp first (`ValueError`), then `.get` on a non-object (`AttributeError`), then the five coercions in the order open, high, low, close, volume: the entry converts exactly when all five do, and otherwise the first failing coercion's exception is raised; a record carries the symbol, the parsed time and each field's coercion, 0 for an absent field |
| Parse.ParseEntries | scripts/fetch_stock_data.py:119-142 | either every entry converts, giving one record per entry in order, or the loop stops at the first failing entry with its exception |
| Parse.ParseStockData | scripts/fetch_stock_data.py:105-146 | records exactly when every entry converts; otherwise the first failing entry decides: its `ValueError` empties the batch, its `TypeError` or `AttributeError` escapes; a non-object series raises `AttributeError` |
| Parse.FirstFailureDecides | scripts/fetch_stock_data.py:119-146 | after good entries, the first failing entry decides: its `ValueError` gives the empty list, any other exception escapes |
| Parse.BadTimestampDiscardsAll | scripts/fetch_stock_data.py:119-146 | an unparsable timestamp after good entries discards the whole symbol, not just that entry |
| Parse.NullPriceEscapes | scripts/fetch_stock_data.py:119-146 | a null price escapes the parser as `TypeError` instead of emptying the batch |
| Parse.BadPriceDiscardsAll | scripts/fetch_stock_data.py:119-146 | an opening price whose text `float` rejects, after good entries, discards the whole symbol like a bad timestamp |
| Store.UpsertAll | scripts/fetch_stock_data.py:170-184 | the table after the upsert has the old keys plus the batch's; rows outside the batch are unchanged; each key holds its last record's prices, volume and the transaction time |
| Store.UpsertStep | scripts/fetch_stock_data.py:170-184 | one more record keeps the upsert invariant |
| Store.LastPageSize | scripts/fetch_stock_data.py:184-187 | the row count is positive and at most the batch and one page; it is the batch size for one page; the pages before it are full |
| Store.StoreStockData | scripts/fetch_stock_data.py:148-201 | empty batch: 0 and no change; commit exactly when the database does not fail and no page repeats a key; a rollback changes nothing; a commit holds exactly the upsert |
| Store.LastRecordExists | scripts/fetch_stock_data.py:170-184 | every key of a batch has a last record carrying it |
| Store.UniqueBatchCommits | scripts/fetch_stock_data.py:170-185 | a batch without repeated keys commits, and every record is found under its key |
| Store.StoreTwice | scripts/fetch_stock_data.py:170-185 | storing a committed batch again keeps the keys, the count and every price and volume |
| Pipeline.ProcessSymbol | scripts/fetch_stock_data.py:203-233 | a failed symbol leaves the table exactly as it was |
| Pipeline.ProcessSymbolOk | scripts/fetch_stock_data.py:213-229 | success exactly when fetch and parse give records, the database does not fail and no page repeats a key; the table is then the committed upsert |
| Pipeline.SuccessStoresBatch | scripts/fetch_stock_data.py:226-229 | a successful symbol wrote every key of its own records, each with its last record's values, and nothing else |
| Pipeline.NotFetchedFails | scripts/fetch_stock_data.py:215-218 | no fetched data means false |
| Pipeline.StepsKeep | scripts/fetch_stock_data.py:231-233 | no call of `process_symbol` that returns false writes to the table |
| Pipeline.Run | scripts/fetch_stock_data.py:245-256 | the trace of n symbols has 2n - 1 entries, none for an empty list |
| Pipeline.RunShape | scripts/fetch_stock_data.py:245-256 | symbols are processed in list order with a 12-second pause between neighbours; the dict has one key per distinct symbol, holding its last occurrence's outcome; with a step that fails without writing, a run without success leaves the table unchanged |
| Pipeline.EachSymbolSeesEarlierWrites | scripts/fetch_stock_data.py:247-249 | symbol i's outcome is its step on the table the first i symbols left |
| Pipeline.TracePrefix | scripts/fetch_stock_data.py:247-249 | the run over a prefix of the list is a prefix of the run over the list |
| Pipeline.PauseCount | scripts/fetch_stock_data.py:251-254 | exactly max(0, n - 1) pauses, none before the first symbol and none after the last |
| Pipeline.SymbolSetSize | scripts/fetch_stock_data.py:249 | the distinct symbols number at most the list's length, equal exactly when the list has no duplicates |
| Pipeline.CountBounds | dags/stock_data_pipeline.py:67-68 | success count <= dict size <= list length, and the dict is as long as the list exactly when the list has no duplicates |
| Pipeline.AllSucceededCount | scripts/fetch_stock_data.py:274 | the success count equals the dict's size exactly when every value is true |
| Pipeline.AllFailedRun | scripts/fetch_stock_data.py:245-256 | a run whose symbol events all failed has no true value and a success count of 0 |
| Pipeline.NoFetchNoSuccess | scripts/fetch_stock_data.py:213-233 | when no call's fetch yields data, every symbol is false, nothing is written and nothing is raised |
| Symbols.Split | scripts/fetch_stock_data.py:265 | `split(',')` gives one piece more than there are commas, none with a comma, and joining them back gives the text |
| Symbols.SplitJoin | scripts/fetch_stock_data.py:265 | comma-free pieces joined and split again come back unchanged |
| Symbols.SplitAtComma | scripts/fetch_stock_data.py:265 | splitting at a first comma gives the part before it, then the split of the rest |
| Symbols.Strip | scripts/fetch_stock_data.py:265 | `strip()` returns the middle of the text between its leading and trailing whitespace runs, itself trimmed; empty exactly for an all-whitespace text |
| Symbols.StripIdempotent | scripts/fetch_stock_data.py:265 | stripping twice strips nothing more |
| Symbols.StripOfTrimmed | scripts/fetch_stock_data.py:265 | a trimmed non-empty text is left as it is |
| Symbols.ParseSymbols | scripts/fetch_stock_data.py:264-265 | one symbol per comma-separated piece, each the piece stripped, trimmed and comma-free |
| Symbols.ParseJoin | dags/stock_data_pipeline.py:57-58 | trimmed comma-free names joined with commas are read back as the same list |
| Symbols.DefaultList | dags/stock_data_pipeline.py:57 | an unset variable gives `["AAPL", "GOOGL", "MSFT"]` |
| Dag.FetchAndStoreStockData | dags/stock_data_pipeline.py:51-85 | a missing key raises the constructor's error with no write; otherwise it raises exactly when no symbol succeeded, keeps what the run committed either way, and returns the run's dict with 1 <= successes <= entries <= symbols |
| Dag.GenerateSummary | dags/stock_data_pipeline.py:88-116 | the fallback message exactly for a missing or empty dict; otherwise total = dict size, successful = success count, failed = their difference, never negative |
| Dag.SummaryAfterTask | dags/stock_data_pipeline.py:95-116 | a summary is produced exactly when the fetch task returned, and it reports at least one success |
| Dag.AllFailedWritesNothing | dags/stock_data_pipeline.py:77-79 | with distinct symbols, a task that raises left the table unchanged |
| Cli.RunMain | scripts/fetch_stock_data.py:259-287 | the status is 0 or 1; 1 when the key is missing; otherwise 0 exactly when the success count reaches the list's length |
| Cli.ExitZeroIff | scripts/fetch_stock_data.py:274-283 | exit 0 exactly when the key is set, the list has no duplicates and every symbol succeeded |
| Cli.DuplicatesExitOne | scripts/fetch_stock_data.py:274-283 | a list naming a symbol twice exits 1 even when every call succeeds |
| Cli.PartialSuccessPolicies | scripts/fetch_stock_data.py:281-283 | on partial success the workflow task returns normally while `main` exits 1 |
| Scenarios.TwoBarsParse | scripts/fetch_stock_data.py:119-142 | a two-bar series of text prices parses to two records, in document order |
| Scenarios.PlainBarsParse | scripts/fetch_stock_data.py:119-142 | with the plain grammars, canonical timestamps and the texts "1.5" and "100" parse to records carrying exactly 1.5 and 100 |
| Scenarios.SeriesStep | scripts/fetch_stock_data.py:213-229 | a symbol with two good bars succeeds and writes exactly those two rows |
| Scenarios.RunOverTable | scripts/fetch_stock_data.py:245-256 | for ["AAPL", "BAD"], AAPL's bars are stored, BAD is false and writes nothing |
| Scenarios.MixedRun | scripts/fetch_stock_data.py:245-256 | against an empty table, the same run leaves exactly the two AAPL rows |
| Scenarios.MixedRunAgain | scripts/fetch_stock_data.py:174-181 | repeating the run keeps the results, the keys and every price and volume; only `updated_at` moves |
| Scenarios.AllRateLimited | dags/stock_data_pipeline.py:62-85 | when every call is answered with a rate-limit note, the task raises "All symbols failed" and the table is unchanged |
| Scenarios.RepeatedRun | scripts/fetch_stock_data.py:245-256 | for ["AAPL", "AAPL"] whose first call stores two bars and whose second is rejected, the dict holds only false while the table keeps the two rows |
| Scenarios.RepeatedSymbolRaisesAfterWriting | dags/stock_data_pipeline.py:56-79 | with `STOCK_SYMBOLS="AAPL,AAPL"` and that run, the task raises "All symbols failed" although the table now holds two new rows |

## Left out

- The HTTP request (URL, query parameters, 30-second timeout) and JSON decoding are inputs. The model takes the response as given: a transport failure, or a status with a body that decoded or did not.
- The psycopg2 connection, cursor and cleanup are not modelled, nor the database's own failure causes. A failing connection, statement or commit is the boolean `dbFails`, and it rolls the transaction back.
- `CURRENT_TIMESTAMP` is the per-call parameter `now`.
- Store.UpsertAll: the statement sets `updated_at` only in its `DO UPDATE` branch. A newly inserted row takes the column's default, and the table schema is not part of this model. The model stamps inserted rows with `now` too, as a `DEFAULT CURRENT_TIMESTAMP` column would; for a schema without that default, inserted rows' `updated_at` is not promised.
- Logging, `time.sleep` and the Airflow wiring are not modelled. The wiring covers the operators, schedule, retries, XCom transport and `check_database_connection`. The pause appears only as a trace event.
- `datetime.strptime`, `float(text)` and `int(text)` on text are a `Library` parameter, because their grammars belong to the Python runtime. `Plain` is an instance that accepts only texts those builtins accept too.
- Conversions.ToFloat: Python floats are modelled as exact reals. There is no binary rounding, no `inf`/`nan` and no `OverflowError` when a huge integer is converted.
- Dag.GenerateSummary: the success-rate percentage and its two-decimal formatting are not modelled, because they are floating-point text. The counts it prints are modelled.
- Json.Get: a decoded object is a list of (key, value) pairs, in document order. For a document that repeats a key, Python's decoder keeps one entry with the last value. The model keeps every entry, and its lookup takes the first. Documents with repeated keys are therefore not modelled faithfully.
- The environment variables are parameters: `ALPHA_VANTAGE_API_KEY` as `apiKey` and `STOCK_SYMBOLS` as `symbolsVar`. The PostgreSQL settings are not modelled.
- `process_symbol`'s catch-all `except Exception` is modelled for the exceptions this core can raise: `TypeError` and `AttributeError` from the parser, and the store's re-raised database error. Other runtime failures are not enumerated.
- Pipeline.Run: the `i+1/len` progress message is not modelled.
