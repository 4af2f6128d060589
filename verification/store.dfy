/** The upsert store (`store_stock_data`): one transaction of `INSERT ... ON CONFLICT (symbol,
    timestamp) DO UPDATE` statements, sent by `execute_values` in pages of 100 rows. */
module Store {
  import opened Records

  /** `execute_values`' default page size: one statement per page of this many records. */
  const PageSize: nat := 100

  /** The call's effect: committed with the cursor's row count, or rolled back (the error is re-raised). */
  datatype StoreResult = Committed(db: Db, rows: nat) | RolledBack(db: Db)

  function RowOf(r: StockRecord, now: int): Row {
    Row(QuoteOf(r), now)
  }

  /** Record `i` is the last one of the batch carrying its key. */
  predicate LastWithKey(batch: seq<StockRecord>, i: int)
    requires 0 <= i < |batch|
  {
    forall j | i < j < |batch| :: KeyOf(batch[j]) != KeyOf(batch[i])
  }

  /** `r` is `db` after upserting `batch` at `now`: the keys are the old ones plus the batch's,
      rows outside the batch are untouched, and each key holds its last record's values. */
  predicate Upserted(db: Db, batch: seq<StockRecord>, now: int, r: Db) {
    && r.Keys == db.Keys + KeysOf(batch)
    && (forall k | k in db && k !in KeysOf(batch) :: r[k] == db[k])
    && (forall i | 0 <= i < |batch| && LastWithKey(batch, i) :: r[KeyOf(batch[i])] == RowOf(batch[i], now))
  }

  /** Inserting or updating each record in turn: the row of a key is written by the last
      record carrying it, with `updated_at` set to the transaction's `now`; other rows stay. */
  function UpsertAll(db: Db, batch: seq<StockRecord>, now: int): (r: Db)
    ensures r.Keys == db.Keys + KeysOf(batch)
    ensures forall k | k in db && k !in KeysOf(batch) :: r[k] == db[k]
    ensures forall i | 0 <= i < |batch| && LastWithKey(batch, i) :: r[KeyOf(batch[i])] == RowOf(batch[i], now)
    decreases |batch|
  {
    if |batch| == 0 then db
    else
      var n := |batch| - 1;
      var prev := UpsertAll(db, batch[..n], now);
      UpsertStep(db, batch, now, prev);
      prev[KeyOf(batch[n]) := RowOf(batch[n], now)]
  }

  /** One more record: writing the last record's row over a table upserted with the others
      gives the table upserted with the whole batch. */
  lemma UpsertStep(db: Db, batch: seq<StockRecord>, now: int, prev: Db)
    requires |batch| > 0 && Upserted(db, batch[..|batch| - 1], now, prev)
    ensures Upserted(db, batch, now, prev[KeyOf(batch[|batch| - 1]) := RowOf(batch[|batch| - 1], now)])
  {
    var n := |batch| - 1;
    var r := prev[KeyOf(batch[n]) := RowOf(batch[n], now)];
    KeysOfSnoc(batch);
    LastWithKeyInPrefix(batch);
    forall i | 0 <= i < |batch| && LastWithKey(batch, i) ensures r[KeyOf(batch[i])] == RowOf(batch[i], now) {
      if i < n { assert batch[..n][i] == batch[i]; }
    }
  }

  lemma KeysOfSnoc(batch: seq<StockRecord>)
    requires |batch| > 0
    ensures KeysOf(batch) == KeysOf(batch[..|batch| - 1]) + {KeyOf(batch[|batch| - 1])}
  {
    var n := |batch| - 1;
    forall k | k in KeysOf(batch) ensures k in KeysOf(batch[..n]) + {KeyOf(batch[n])} {
      var i :| 0 <= i < |batch| && KeyOf(batch[i]) == k;
      if i < n { assert batch[..n][i] == batch[i]; }
    }
    forall k | k in KeysOf(batch[..n]) ensures k in KeysOf(batch) {
      var i :| 0 <= i < n && KeyOf(batch[..n][i]) == k;
      assert batch[i] == batch[..n][i];
    }
  }

  lemma LastWithKeyInPrefix(batch: seq<StockRecord>)
    requires |batch| > 0
    ensures forall i | 0 <= i < |batch| - 1 && LastWithKey(batch, i) ::
      LastWithKey(batch[..|batch| - 1], i) && KeyOf(batch[i]) != KeyOf(batch[|batch| - 1])
  {
    var n := |batch| - 1;
    forall i | 0 <= i < n && LastWithKey(batch, i)
      ensures LastWithKey(batch[..n], i)
    {
      forall j | i < j < n ensures KeyOf(batch[..n][j]) != KeyOf(batch[..n][i]) {
        assert batch[..n][j] == batch[j];
      }
    }
  }

  /** No page of the batch holds two records with the same key; otherwise Postgres refuses the
      page's statement ("ON CONFLICT DO UPDATE command cannot affect row a second time"). */
  predicate PagesDistinct(batch: seq<StockRecord>) {
    forall i, j | 0 <= i < j < |batch| && i / PageSize == j / PageSize :: KeyOf(batch[i]) != KeyOf(batch[j])
  }

  /** `cursor.rowcount` after `execute_values`: the row count of the last page's statement,
      where every proposed row is either inserted or updated. */
  function LastPageSize(n: nat): (rows: nat)
    requires n > 0
    ensures 0 < rows <= n && rows <= PageSize
    ensures n <= PageSize ==> rows == n
    // the pages before the last are full
    ensures (n - rows) % PageSize == 0
  {
    var full := (n - 1) / PageSize;
    assert PageSize * full <= n - 1 < PageSize * full + PageSize;
    n - PageSize * full
  }

  /** `store_stock_data`. An empty batch returns 0 without touching the database. A database
      error (`dbFails`: the connection, a statement or the commit fails) or a key repeated inside
      one page rolls the whole transaction back. */
  function StoreStockData(db: Db, batch: seq<StockRecord>, now: int, dbFails: bool): (r: StoreResult)
    ensures |batch| == 0 ==> r == Committed(db, 0)
    // a failed transaction leaves no trace
    ensures r.RolledBack? ==> r.db == db
    ensures |batch| > 0 ==> (r.Committed? <==> !dbFails && PagesDistinct(batch))
    // the row count of a committed non-empty batch is positive and bounded by the batch and the page
    ensures r.Committed? && |batch| > 0 ==> 0 < r.rows <= |batch| && r.rows <= PageSize
    ensures r.Committed? && 0 < |batch| <= PageSize ==> r.rows == |batch|
    // the committed table: old rows plus the batch's keys, nothing else
    ensures r.Committed? ==> r.db.Keys == db.Keys + KeysOf(batch)
    ensures r.Committed? ==> forall k | k in db && k !in KeysOf(batch) :: r.db[k] == db[k]
    ensures r.Committed? ==> forall i | 0 <= i < |batch| && LastWithKey(batch, i) :: r.db[KeyOf(batch[i])] == RowOf(batch[i], now)
  {
    if |batch| == 0 then Committed(db, 0)
    else if dbFails || !PagesDistinct(batch) then RolledBack(db)
    else Committed(UpsertAll(db, batch, now), LastPageSize(|batch|))
  }

  /** Every key of a batch is carried by a last record. */
  lemma {:induction false} LastRecordExists(batch: seq<StockRecord>, k: Key)
    requires k in KeysOf(batch)
    ensures exists i | 0 <= i < |batch| :: KeyOf(batch[i]) == k && LastWithKey(batch, i)
    decreases |batch|
  {
    var n := |batch| - 1;
    if KeyOf(batch[n]) != k {
      KeysOfSnoc(batch);
      LastRecordExists(batch[..n], k);
      var i :| 0 <= i < n && KeyOf(batch[..n][i]) == k && LastWithKey(batch[..n], i);
      assert batch[..n][i] == batch[i];
      assert LastWithKey(batch, i) by {
        forall j | i < j < |batch| ensures KeyOf(batch[j]) != KeyOf(batch[i]) {
          if j < n { assert batch[..n][j] == batch[j]; }
        }
      }
    }
  }

  /** A batch without repeated keys commits unless the database fails, and then every record
      is found under its key with its own prices and volume. */
  lemma UniqueBatchCommits(db: Db, batch: seq<StockRecord>, now: int)
    requires UniqueKeys(batch)
    ensures StoreStockData(db, batch, now, false).Committed?
    ensures forall i | 0 <= i < |batch| ::
      StoreStockData(db, batch, now, false).db[KeyOf(batch[i])] == RowOf(batch[i], now)
  {
    assert forall i | 0 <= i < |batch| :: LastWithKey(batch, i);
  }

  /** Idempotence: storing a committed batch again, at any later time and whatever the database
      does, leaves the same keys and the same prices and volumes; only `updated_at` may move. */
  lemma StoreTwice(db: Db, batch: seq<StockRecord>, t1: int, firstFails: bool, t2: int, fails: bool)
    requires StoreStockData(db, batch, t1, firstFails).Committed?
    ensures var once := StoreStockData(db, batch, t1, firstFails).db;
            var twice := StoreStockData(once, batch, t2, fails).db;
            && twice.Keys == once.Keys
            && |twice| == |once|
            && forall k | k in once :: twice[k].quote == once[k].quote
  {
    var once := StoreStockData(db, batch, t1, firstFails).db;
    var r2 := StoreStockData(once, batch, t2, fails);
    if |batch| > 0 && r2.Committed? {
      var twice := r2.db;
      assert twice.Keys == once.Keys;
      forall k | k in once ensures twice[k].quote == once[k].quote {
        if k in KeysOf(batch) {
          LastRecordExists(batch, k);
        }
      }
    }
  }
}
