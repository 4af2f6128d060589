/** The record parser (`parse_stock_data`): one record per series entry, in the series'
    iteration order, all or nothing. */
module Parse {
  import opened Wrappers
  import opened Json
  import opened Conversions
  import opened Records

  const OpenField := "1. open"
  const HighField := "2. high"
  const LowField := "3. low"
  const CloseField := "4. close"
  const VolumeField := "5. volume"

  /** The five field names are pairwise different. */
  lemma FieldNamesDistinct()
    ensures OpenField != HighField && OpenField != LowField && OpenField != CloseField && OpenField != VolumeField
    ensures HighField != LowField && HighField != CloseField && HighField != VolumeField
    ensures LowField != CloseField && LowField != VolumeField && CloseField != VolumeField
  {
    assert OpenField[0] == '1' && HighField[0] == '2' && LowField[0] == '3';
    assert CloseField[0] == '4' && VolumeField[0] == '5';
  }

  /** What the parser hands back: the records, the empty list after a caught `ValueError`, or
      an exception that escapes it (`TypeError`, `AttributeError`). */
  datatype ParseResult = Records(records: seq<StockRecord>) | Discarded | ParseRaised(exc: Exception)

  /** `values.get(name, 0)`. */
  function Field(values: seq<(string, Value)>, name: string): Value {
    Get(values, name, Int(0))
  }

  /** The entry got past its first two steps: the timestamp parsed and the value is an object. */
  predicate Dated(lib: Library, entry: (string, Value)) {
    lib.strptime(entry.0).Some? && entry.1.Object?
  }

  /** One loop iteration: the timestamp first, then `values.get` (an `AttributeError` when the
      entry is not an object), then open, high, low, close and volume, the first failure winning. */
  function ParseEntry(lib: Library, symbol: string, entry: (string, Value)): (r: Outcome<StockRecord>)
    ensures lib.strptime(entry.0).None? ==> r == Raise(ValueError)
    ensures lib.strptime(entry.0).Some? && !entry.1.Object? ==> r == Raise(AttributeError)
    // past those two steps, the entry converts exactly when all five coercions do, and otherwise
    // the first failing coercion, in the order open, high, low, close, volume, decides the exception
    ensures Dated(lib, entry) ==>
      var vs := entry.1.fields;
      r.Return? <==>
        && ToFloat(lib, Field(vs, OpenField)).Return? && ToFloat(lib, Field(vs, HighField)).Return?
        && ToFloat(lib, Field(vs, LowField)).Return? && ToFloat(lib, Field(vs, CloseField)).Return?
        && ToInt(lib, Field(vs, VolumeField)).Return?
    ensures Dated(lib, entry) && ToFloat(lib, Field(entry.1.fields, OpenField)).Raise? ==>
      r == Raise(ToFloat(lib, Field(entry.1.fields, OpenField)).exc)
    ensures Dated(lib, entry) && ToFloat(lib, Field(entry.1.fields, OpenField)).Return?
            && ToFloat(lib, Field(entry.1.fields, HighField)).Raise? ==>
      r == Raise(ToFloat(lib, Field(entry.1.fields, HighField)).exc)
    ensures Dated(lib, entry) && ToFloat(lib, Field(entry.1.fields, OpenField)).Return?
            && ToFloat(lib, Field(entry.1.fields, HighField)).Return?
            && ToFloat(lib, Field(entry.1.fields, LowField)).Raise? ==>
      r == Raise(ToFloat(lib, Field(entry.1.fields, LowField)).exc)
    ensures Dated(lib, entry) && ToFloat(lib, Field(entry.1.fields, OpenField)).Return?
            && ToFloat(lib, Field(entry.1.fields, HighField)).Return?
            && ToFloat(lib, Field(entry.1.fields, LowField)).Return?
            && ToFloat(lib, Field(entry.1.fields, CloseField)).Raise? ==>
      r == Raise(ToFloat(lib, Field(entry.1.fields, CloseField)).exc)
    ensures Dated(lib, entry) && ToFloat(lib, Field(entry.1.fields, OpenField)).Return?
            && ToFloat(lib, Field(entry.1.fields, HighField)).Return?
            && ToFloat(lib, Field(entry.1.fields, LowField)).Return?
            && ToFloat(lib, Field(entry.1.fields, CloseField)).Return?
            && ToInt(lib, Field(entry.1.fields, VolumeField)).Raise? ==>
      r == Raise(ToInt(lib, Field(entry.1.fields, VolumeField)).exc)
    ensures r.Return? ==> entry.1.Object? && r.value.symbol == symbol && lib.strptime(entry.0) == Some(r.value.timestamp)
    // each of the five fields is the coercion of the entry's value, 0 when the key is absent
    ensures r.Return? ==> ToFloat(lib, Field(entry.1.fields, OpenField)) == Return(r.value.open)
    ensures r.Return? ==> ToFloat(lib, Field(entry.1.fields, HighField)) == Return(r.value.high)
    ensures r.Return? ==> ToFloat(lib, Field(entry.1.fields, LowField)) == Return(r.value.low)
    ensures r.Return? ==> ToFloat(lib, Field(entry.1.fields, CloseField)) == Return(r.value.close)
    ensures r.Return? ==> ToInt(lib, Field(entry.1.fields, VolumeField)) == Return(r.value.volume)
    ensures r.Return? && !HasKey(entry.1.fields, OpenField) ==> r.value.open == 0.0
    ensures r.Return? && !HasKey(entry.1.fields, HighField) ==> r.value.high == 0.0
    ensures r.Return? && !HasKey(entry.1.fields, LowField) ==> r.value.low == 0.0
    ensures r.Return? && !HasKey(entry.1.fields, CloseField) ==> r.value.close == 0.0
    ensures r.Return? && !HasKey(entry.1.fields, VolumeField) ==> r.value.volume == 0
  {
    match lib.strptime(entry.0)
    case None => Raise(ValueError)
    case Some(dt) =>
      if !entry.1.Object? then Raise(AttributeError)
      else
        var values := entry.1.fields;
        var open :- ToFloat(lib, Field(values, OpenField));
        var high :- ToFloat(lib, Field(values, HighField));
        var low :- ToFloat(lib, Field(values, LowField));
        var close :- ToFloat(lib, Field(values, CloseField));
        var volume :- ToInt(lib, Field(values, VolumeField));
        Return(StockRecord(symbol, dt, open, high, low, close, volume))
  }

  predicate EntryOk(lib: Library, symbol: string, entry: (string, Value)) {
    ParseEntry(lib, symbol, entry).Return?
  }

  /** The loop over the entries: either every entry converts, or the loop stops at the first
      entry that raises, with that entry's exception. */
  function ParseEntries(lib: Library, symbol: string, entries: seq<(string, Value)>): (r: Outcome<seq<StockRecord>>)
    ensures r.Return? <==> forall i | 0 <= i < |entries| :: EntryOk(lib, symbol, entries[i])
    ensures r.Return? ==> |r.value| == |entries|
    ensures r.Return? ==> forall i | 0 <= i < |entries| :: Return(r.value[i]) == ParseEntry(lib, symbol, entries[i])
    ensures r.Raise? ==> exists k | 0 <= k < |entries| ::
      && (forall j | 0 <= j < k :: EntryOk(lib, symbol, entries[j]))
      && ParseEntry(lib, symbol, entries[k]) == Raise(r.exc)
    decreases |entries|
  {
    if |entries| == 0 then Return([])
    else
      var first :- ParseEntry(lib, symbol, entries[0]);
      var rest :- ParseEntries(lib, symbol, entries[1..]);
      Return([first] + rest)
  }

  /** `parse_stock_data`. `series.items()` raises `AttributeError` when the series is not an object;
      only a `ValueError` is turned into the empty list. */
  function ParseStockData(lib: Library, symbol: string, series: Value): (r: ParseResult)
    ensures !series.Object? ==> r == ParseRaised(AttributeError)
    ensures r.ParseRaised? ==> r.exc != ValueError
    // all or nothing: one record per entry, in order, or none at all
    ensures r.Records? <==> series.Object? && forall i | 0 <= i < |series.fields| :: EntryOk(lib, symbol, series.fields[i])
    ensures r.Records? ==> |r.records| == |series.fields|
    ensures r.Records? ==> forall i | 0 <= i < |r.records| ::
      r.records[i].symbol == symbol && lib.strptime(series.fields[i].0) == Some(r.records[i].timestamp)
    ensures r.Records? ==> forall i | 0 <= i < |r.records| :: Return(r.records[i]) == ParseEntry(lib, symbol, series.fields[i])
    // which failure is reported is decided by the first entry that fails
    ensures !r.Records? && series.Object? ==> exists k | 0 <= k < |series.fields| ::
      && (forall j | 0 <= j < k :: EntryOk(lib, symbol, series.fields[j]))
      && ParseEntry(lib, symbol, series.fields[k]) == (if r.Discarded? then Raise(ValueError) else Raise(r.exc))
  {
    if !series.Object? then ParseRaised(AttributeError)
    else
      match ParseEntries(lib, symbol, series.fields)
      case Return(records) => Records(records)
      case Raise(e) => if e == ValueError then Discarded else ParseRaised(e)
  }

  /** The list the method returns when it does not raise: the records, or `[]` after a caught error. */
  function AsList(r: ParseResult): seq<StockRecord>
    requires !r.ParseRaised?
  {
    if r.Records? then r.records else []
  }

  /** One entry with an unparsable timestamp, after entries that all convert, discards the
      whole symbol: the result is the empty list, never the records before it. */
  lemma BadTimestampDiscardsAll(lib: Library, symbol: string, fields: seq<(string, Value)>, k: nat)
    requires k < |fields| && lib.strptime(fields[k].0).None?
    requires forall j | 0 <= j < k :: EntryOk(lib, symbol, fields[j])
    ensures ParseStockData(lib, symbol, Object(fields)) == Discarded
  {
    assert !EntryOk(lib, symbol, fields[k]);
    assert ParseEntry(lib, symbol, fields[k]) == Raise(ValueError);
  }

  /** An opening price whose text `float` rejects, after entries that all convert, discards the
      whole symbol like a bad timestamp does. */
  lemma BadPriceDiscardsAll(lib: Library, symbol: string, fields: seq<(string, Value)>, k: nat, text: string)
    requires k < |fields| && Dated(lib, fields[k])
    requires Field(fields[k].1.fields, OpenField) == Str(text) && lib.floatText(text).None?
    requires forall j | 0 <= j < k :: EntryOk(lib, symbol, fields[j])
    ensures ParseStockData(lib, symbol, Object(fields)) == Discarded
  {
    assert ParseEntry(lib, symbol, fields[k]) == Raise(ValueError);
    assert !EntryOk(lib, symbol, fields[k]);
  }

  /** An entry whose price is JSON null, met before any failing entry, escapes the parser
      instead of emptying the batch. */
  lemma NullPriceEscapes(lib: Library, symbol: string, fields: seq<(string, Value)>, k: nat)
    requires k < |fields| && lib.strptime(fields[k].0).Some? && fields[k].1 == Object([(OpenField, Null)])
    requires forall j | 0 <= j < k :: EntryOk(lib, symbol, fields[j])
    ensures ParseStockData(lib, symbol, Object(fields)) == ParseRaised(TypeError)
  {
    GetFirstMatch([(OpenField, Null)], OpenField, Int(0), 0);
    assert ParseEntry(lib, symbol, fields[k]) == Raise(TypeError);
    FirstFailureDecides(lib, symbol, fields, k);
  }

  /** The first entry that fails decides the parser's answer: the empty list for its
      `ValueError`, its exception escaping otherwise. */
  lemma FirstFailureDecides(lib: Library, symbol: string, fields: seq<(string, Value)>, k: nat)
    requires k < |fields| && !EntryOk(lib, symbol, fields[k])
    requires forall j | 0 <= j < k :: EntryOk(lib, symbol, fields[j])
    ensures var e := ParseEntry(lib, symbol, fields[k]).exc;
            ParseStockData(lib, symbol, Object(fields)) == if e == ValueError then Discarded else ParseRaised(e)
  {
    var r := ParseStockData(lib, symbol, Object(fields));
    var k' :| 0 <= k' < |fields| && (forall j | 0 <= j < k' :: EntryOk(lib, symbol, fields[j]))
              && ParseEntry(lib, symbol, fields[k']) == (if r.Discarded? then Raise(ValueError) else Raise(r.exc));
    assert !EntryOk(lib, symbol, fields[k']);
  }
}
