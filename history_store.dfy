// The exchange_rate_history table and the class that reads and writes it.
// The table is a map from (date, currency pair) to the four prices of that
// day; every query either succeeds on the whole table or raises, which the
// class catches.

module HistoryStore {
  import opened Numbers
  import opened Seqs
  import opened Frames

  const SecondsPerDay: int := 86400
  const BatchSize: nat := 1000

  /** The two derived pairs for which a stored 0 means "no value". */
  const YenPairs: seq<string> := ["JPY_KRW", "JXY"]

  datatype Ohlc = Ohlc(open: real, high: real, low: real, close: real)

  /** One row sent to the database (`date`, `currency_pair` and the prices). */
  datatype Record = Record(date: int, pair: string, prices: Ohlc)

  type Table = map<(int, string), Ohlc>

  /** Whole days from midnight of `day` to the instant `nowSec` (timedelta.days, a floor). */
  function DaysSince(nowSec: int, day: int): int
  {
    (nowSec - day * SecondsPerDay) / SecondsPerDay
  }

  /** A later day is never more days ago. */
  lemma DaysSinceAntitone(nowSec: int, d1: int, d2: int)
    requires d1 <= d2
    ensures DaysSince(nowSec, d2) <= DaysSince(nowSec, d1)
  {
    var a := nowSec - d1 * SecondsPerDay;
    var b := nowSec - d2 * SecondsPerDay;
    assert b == a - (d2 - d1) * SecondsPerDay;
    assert b / SecondsPerDay == a / SecondsPerDay - (d2 - d1) by {
      DivShift(a, d2 - d1);
    }
  }

  lemma DivShift(a: int, k: int)
    ensures (a - k * SecondsPerDay) / SecondsPerDay == a / SecondsPerDay - k
  {
    var q, r := a / SecondsPerDay, a % SecondsPerDay;
    assert a == q * SecondsPerDay + r && 0 <= r < SecondsPerDay;
    assert a - k * SecondsPerDay == (q - k) * SecondsPerDay + r;
  }

  /** `safe_float`: the finite value of a cell, or None for NaN, an infinity, or a zero yen value. */
  function SafeFloat(x: Num, pair: string): (r: Option<real>)
    ensures r.Some? <==> x.Fin? && !(x.v == 0.0 && pair in YenPairs)
    ensures r.Some? ==> r.value == x.v
  {
    match x
    case Fin(v) => if v == 0.0 && pair in YenPairs then None else Some(v)
    case _ => None
  }

  function OrZero(x: Option<real>): real
  {
    if x.Some? then x.value else 0.0
  }

  /**
   * The record for the cell (d, pair), or None when the cell is skipped: when
   * one of the four tables lacks it, or none of its four prices is safe.
   * Otherwise each price is the safe value, or 0.
   */
  function CellRecord(d: int, pair: string, close: Frame, high: Frame, low: Frame, open: Frame): (r: Option<Record>)
    ensures r.Some? <==>
      Lookup(open, d, pair).Some? && Lookup(high, d, pair).Some? && Lookup(low, d, pair).Some? &&
      Lookup(close, d, pair).Some? &&
      (SafeFloat(Lookup(open, d, pair).value, pair).Some? || SafeFloat(Lookup(high, d, pair).value, pair).Some? ||
       SafeFloat(Lookup(low, d, pair).value, pair).Some? || SafeFloat(Lookup(close, d, pair).value, pair).Some?)
    ensures r.Some? ==> r.value.date == d && r.value.pair == pair
    ensures r.Some? ==> r.value.prices.close == OrZero(SafeFloat(Lookup(close, d, pair).value, pair))
    ensures r.Some? ==> r.value.prices.open == OrZero(SafeFloat(Lookup(open, d, pair).value, pair))
    ensures r.Some? ==> r.value.prices.high == OrZero(SafeFloat(Lookup(high, d, pair).value, pair))
    ensures r.Some? ==> r.value.prices.low == OrZero(SafeFloat(Lookup(low, d, pair).value, pair))
  {
    var o := Lookup(open, d, pair);
    var h := Lookup(high, d, pair);
    var l := Lookup(low, d, pair);
    var c := Lookup(close, d, pair);
    if o.None? || h.None? || l.None? || c.None? then None
    else
      var so, sh, sl, sc := SafeFloat(o.value, pair), SafeFloat(h.value, pair), SafeFloat(l.value, pair), SafeFloat(c.value, pair);
      if so.None? && sh.None? && sl.None? && sc.None? then None
      else Some(Record(d, pair, Ohlc(OrZero(so), OrZero(sh), OrZero(sl), OrZero(sc))))
  }

  /** The records `cell` yields over the columns `cols`, in column order. */
  function Collect(cols: seq<string>, cell: string -> Option<Record>): seq<Record>
  {
    if |cols| == 0 then []
    else
      Collect(cols[..|cols| - 1], cell) + match cell(cols[|cols| - 1]) case Some(rec) => [rec] case None => []
  }

  lemma {:induction false} CollectMembership(cols: seq<string>, cell: string -> Option<Record>, rec: Record)
    ensures rec in Collect(cols, cell) <==> exists c :: c in cols && cell(c) == Some(rec)
  {
    if |cols| > 0 {
      var n := |cols| - 1;
      CollectMembership(cols[..n], cell, rec);
      assert cols == cols[..n] + [cols[n]];
    }
  }

  /** The records the rows' dates yield, date by date. */
  function Gather(rows: seq<Row>, recsOf: int -> seq<Record>): seq<Record>
  {
    if |rows| == 0 then [] else Gather(rows[..|rows| - 1], recsOf) + recsOf(rows[|rows| - 1].date)
  }

  lemma {:induction false} GatherMembership(rows: seq<Row>, recsOf: int -> seq<Record>, rec: Record)
    ensures rec in Gather(rows, recsOf) <==> exists i :: 0 <= i < |rows| && rec in recsOf(rows[i].date)
  {
    if |rows| > 0 {
      var n := |rows| - 1;
      GatherMembership(rows[..n], recsOf, rec);
      assert forall i :: 0 <= i < n ==> rows[..n][i] == rows[i];
    }
  }

  /** The cells of date `d`, as records. */
  function CellsOn(d: int, close: Frame, high: Frame, low: Frame, open: Frame): string -> Option<Record>
  {
    c => CellRecord(d, c, close, high, low, open)
  }

  /** The records of one date, in column order. */
  function RowRecords(d: int, cols: seq<string>, close: Frame, high: Frame, low: Frame, open: Frame): seq<Record>
  {
    Collect(cols, CellsOn(d, close, high, low, open))
  }

  function RowsOf(cols: seq<string>, close: Frame, high: Frame, low: Frame, open: Frame): int -> seq<Record>
  {
    d => RowRecords(d, cols, close, high, low, open)
  }

  /** The records of `rows` (the rows of the close table), date by date. */
  function TableRecords(rows: seq<Row>, cols: seq<string>, close: Frame, high: Frame, low: Frame, open: Frame): seq<Record>
  {
    Gather(rows, RowsOf(cols, close, high, low, open))
  }

  lemma RowRecordsMembership(d: int, cols: seq<string>, close: Frame, high: Frame, low: Frame, open: Frame, rec: Record)
    ensures rec in RowRecords(d, cols, close, high, low, open) <==>
      rec.date == d && rec.pair in cols && CellRecord(d, rec.pair, close, high, low, open) == Some(rec)
  {
    CollectMembership(cols, CellsOn(d, close, high, low, open), rec);
  }

  /**
   * Exactly the cells of the close table that are not skipped become records:
   * a record is sent iff its date is a row of the close table, its pair a
   * column of it, and the cell is not skipped.
   */
  lemma TableRecordsMembership(rows: seq<Row>, cols: seq<string>, close: Frame, high: Frame, low: Frame, open: Frame, rec: Record)
    ensures rec in TableRecords(rows, cols, close, high, low, open) <==>
      rec.date in RowDates(rows) && rec.pair in cols && CellRecord(rec.date, rec.pair, close, high, low, open) == Some(rec)
  {
    GatherMembership(rows, RowsOf(cols, close, high, low, open), rec);
    RowRecordsMembership(rec.date, cols, close, high, low, open, rec);
    forall i | 0 <= i < |rows| && rec in RowRecords(rows[i].date, cols, close, high, low, open)
      ensures rec.date == rows[i].date
    {
      RowRecordsMembership(rows[i].date, cols, close, high, low, open, rec);
    }
  }

  /** The table after upserting `recs` in order: a later record replaces an earlier one with the same key. */
  function Upsert(t: Table, recs: seq<Record>): Table
  {
    if |recs| == 0 then t
    else
      var last := recs[|recs| - 1];
      Upsert(t, recs[..|recs| - 1])[(last.date, last.pair) := last.prices]
  }

  lemma {:induction false} UpsertAppend(t: Table, a: seq<Record>, b: seq<Record>)
    ensures Upsert(t, a + b) == Upsert(Upsert(t, a), b)
  {
    if |b| == 0 {
      assert a + b == a;
    } else {
      assert (a + b)[..|a + b| - 1] == a + b[..|b| - 1];
      UpsertAppend(t, a, b[..|b| - 1]);
    }
  }

  /**
   * After upserting, a key carries the prices of the last record with that
   * key; every other key keeps its previous row.
   */
  lemma {:induction false} UpsertLookup(t: Table, recs: seq<Record>, k: (int, string))
    ensures (exists i :: 0 <= i < |recs| && (recs[i].date, recs[i].pair) == k) ==>
      k in Upsert(t, recs) &&
      exists i :: 0 <= i < |recs| && (recs[i].date, recs[i].pair) == k && Upsert(t, recs)[k] == recs[i].prices &&
        forall j :: i < j < |recs| ==> (recs[j].date, recs[j].pair) != k
    ensures (forall i :: 0 <= i < |recs| ==> (recs[i].date, recs[i].pair) != k) ==>
      (k in Upsert(t, recs) <==> k in t) && (k in t ==> Upsert(t, recs)[k] == t[k])
  {
    if |recs| > 0 {
      var n := |recs| - 1;
      UpsertLookup(t, recs[..n], k);
      assert forall i :: 0 <= i < n ==> recs[..n][i] == recs[i];
    }
  }

  /** The number of records written when the batch numbered `failing` raises. */
  function Written(n: nat, failing: Option<nat>): (w: nat)
    ensures w <= n
    ensures failing.None? ==> w == n
  {
    match failing
    case None => n
    case Some(k) => if k * BatchSize < n then k * BatchSize else n
  }

  /**
   * The table after `save_history_data` sends `recs`: unchanged without a
   * connection; otherwise the records of the batches before the failing one
   * upserted (none when the database is unreachable, all when no batch fails).
   */
  function SavedTable(t: Table, recs: seq<Record>, connected: bool, reachable: bool, failing: Option<nat>): Table
  {
    if connected then Upsert(t, recs[..Written(|recs|, if reachable then failing else Some(0))]) else t
  }

  function Concat(bs: seq<seq<Record>>): seq<Record>
  {
    if |bs| == 0 then [] else Concat(bs[..|bs| - 1]) + bs[|bs| - 1]
  }

  /** The stored dates of one pair. */
  ghost function StoredDates(t: Table, pair: string): set<int>
  {
    set k | k in t && k.1 == pair :: k.0
  }

  /** `latest` is the greatest stored date of `pair`, None when it has no row. */
  ghost predicate IsLatest(t: Table, pair: string, latest: Option<int>)
  {
    (latest.None? <==> StoredDates(t, pair) == {}) &&
    (latest.Some? ==>
      latest.value in StoredDates(t, pair) && forall d :: d in StoredDates(t, pair) ==> d <= latest.value)
  }

  /** The query result of one price field, pivoted: one row per date of `ds`, one column per pair of `cols`. */
  function PivotOn(t: Table, cols: seq<string>, ds: seq<int>, field: Ohlc -> real): (f: Frame)
    ensures f.columns == cols && Dates(f) == ds
    ensures forall i, c :: 0 <= i < |ds| && c in cols && (ds[i], c) in t ==>
      Cell(f.rows[i], c) == Fin(field(t[(ds[i], c)]))
    ensures forall i, c :: 0 <= i < |ds| && (ds[i], c) !in t ==> Cell(f.rows[i], c) == NaN
  {
    Frame(cols, seq(|ds|, i requires 0 <= i < |ds| =>
      Row(ds[i], map p | p in cols && (ds[i], p) in t :: Fin(field(t[(ds[i], p)])))))
  }

  function CloseOf(o: Ohlc): real { o.close }
  function HighOf(o: Ohlc): real { o.high }
  function LowOf(o: Ohlc): real { o.low }

  /** The records `save_history_data` sends; open prices default to the close table. */
  function SaveRecords(close: Frame, high: Frame, low: Frame, open: Option<Frame>): seq<Record>
  {
    TableRecords(close.rows, close.columns, close, high, low, if open.Some? then open.value else close)
  }

  /** The inner loop of `save_history_data`: the records of one date, column by column. */
  method DateRecords(d: int, cols: seq<string>, close: Frame, high: Frame, low: Frame, open: Frame)
    returns (recs: seq<Record>)
    ensures recs == RowRecords(d, cols, close, high, low, open)
  {
    ghost var cells := CellsOn(d, close, high, low, open);
    recs := [];
    var j := 0;
    while j < |cols|
      invariant 0 <= j <= |cols|
      invariant recs == Collect(cols[..j], cells)
    {
      var cell := CellRecord(d, cols[j], close, high, low, open);
      assert cells(cols[j]) == cell;
      assert cols[..j + 1][..j] == cols[..j];
      if cell.Some? {
        recs := recs + [cell.value];
      }
      j := j + 1;
    }
    assert cols[..j] == cols;
  }

  /** The record list of `save_history_data`: the close table's cells, date by date and column by column. */
  method CollectRecords(close: Frame, high: Frame, low: Frame, open: Frame) returns (recs: seq<Record>)
    ensures recs == TableRecords(close.rows, close.columns, close, high, low, open)
  {
    ghost var rowsOf := RowsOf(close.columns, close, high, low, open);
    recs := [];
    var i := 0;
    while i < |close.rows|
      invariant 0 <= i <= |close.rows|
      invariant recs == Gather(close.rows[..i], rowsOf)
    {
      var row := DateRecords(close.rows[i].date, close.columns, close, high, low, open);
      assert rowsOf(close.rows[i].date) == row;
      assert close.rows[..i + 1][..i] == close.rows[..i];
      recs := recs + row;
      i := i + 1;
    }
    assert close.rows[..i] == close.rows;
  }

  /** The keys a `load_history_data` query selects. */
  function Selected(t: Table, pairs: seq<string>, start: int, end: int): set<(int, string)>
  {
    set k | k in t && k.1 in pairs && start <= k.0 <= end
  }

  ghost predicate PairInRange(t: Table, c: string, start: int, end: int)
  {
    exists d :: start <= d <= end && (d, c) in t
  }

  ghost predicate DateHasPair(t: Table, pairs: seq<string>, d: int)
  {
    exists c :: c in pairs && (d, c) in t
  }

  /** The pairs of `pairs` that occur in `keys`, in the order of `pairs`. */
  function KeyPairs(keys: set<(int, string)>, pairs: seq<string>): seq<string>
  {
    Filter(pairs, (p: string) => exists k :: k in keys && k.1 == p)
  }

  /** The distinct dates of a set of keys, ascending, as a value. */
  ghost function KeyDates(keys: set<(int, string)>): (ds: seq<int>)
    ensures StrictlyIncreasing(ds)
    ensures forall d :: d in ds <==> exists k :: k in keys && k.0 == d
    decreases |keys|
  {
    if keys == {} then []
    else
      var k :| k in keys;
      var rest := KeyDates(keys - {k});
      Insert(k.0, rest)
  }

  /**
   * One price field of what `load_history_data` returns for a store holding
   * `t`: the empty table when the store is not serving; otherwise the
   * selected rows pivoted, one row per selected date in ascending order, one
   * column per selected pair.
   */
  ghost function Loaded(t: Table, serving: bool, pairs: seq<string>, start: int, end: int, field: Ohlc -> real): Frame
  {
    if !serving then EmptyFrame
    else
      var keys := Selected(t, pairs, start, end);
      PivotOn(t, KeyPairs(keys, pairs), KeyDates(keys), field)
  }

  /** The distinct dates of a set of keys, ascending. */
  method CollectDates(keys: set<(int, string)>) returns (ds: seq<int>)
    ensures StrictlyIncreasing(ds)
    ensures forall d :: d in ds <==> exists k :: k in keys && k.0 == d
  {
    var ds0: seq<int> := [];
    var rest := keys;
    while rest != {}
      decreases |rest|
      invariant rest <= keys
      invariant forall k :: k in keys - rest ==> k.0 in ds0
      invariant forall d :: d in ds0 ==> exists k :: k in keys && k.0 == d
    {
      var k :| k in rest;
      ds0 := ds0 + [k.0];
      rest := rest - {k};
    }
    assert keys - rest == keys;
    ds := SortedDistinct(ds0);
  }

  lemma SelectedFacts(t: Table, pairs: seq<string>, start: int, end: int, cols: seq<string>, ds: seq<int>)
    requires cols == KeyPairs(Selected(t, pairs, start, end), pairs)
    requires forall d :: d in ds <==> exists k :: k in Selected(t, pairs, start, end) && k.0 == d
    ensures forall c :: c in cols <==> c in pairs && PairInRange(t, c, start, end)
    ensures forall d :: d in ds <==> start <= d <= end && DateHasPair(t, pairs, d)
  {
    var keys := Selected(t, pairs, start, end);
    forall c | c in pairs && PairInRange(t, c, start, end)
      ensures c in cols
    {
      var d :| start <= d <= end && (d, c) in t;
      assert (d, c) in keys;
      var ic :| 0 <= ic < |pairs| && pairs[ic] == c;
    }
    forall c | c in cols
      ensures c in pairs && PairInRange(t, c, start, end)
    {
      var ic :| 0 <= ic < |cols| && cols[ic] == c;
      var k :| k in keys && k.1 == c;
    }
    forall d | start <= d <= end && DateHasPair(t, pairs, d)
      ensures d in ds
    {
      var c :| c in pairs && (d, c) in t;
      assert (d, c) in keys;
    }
  }

  /**
   * The loaded tables share their columns and their ascending dates; a
   * column is a requested pair with a row in the range, a date one in the
   * range with a row of a requested pair; a cell holds the stored price
   * when the row exists and NaN otherwise.
   */
  lemma LoadedShape(t: Table, serving: bool, pairs: seq<string>, start: int, end: int,
                    close: Frame, high: Frame, low: Frame)
    requires close == Loaded(t, serving, pairs, start, end, CloseOf)
    requires high == Loaded(t, serving, pairs, start, end, HighOf)
    requires low == Loaded(t, serving, pairs, start, end, LowOf)
    ensures !serving ==> close == EmptyFrame && high == EmptyFrame && low == EmptyFrame
    ensures high.columns == close.columns && low.columns == close.columns
    ensures Dates(high) == Dates(close) && Dates(low) == Dates(close)
    ensures StrictlyIncreasing(Dates(close))
    ensures forall c :: c in close.columns <==> serving && c in pairs && PairInRange(t, c, start, end)
    ensures forall d :: d in Dates(close) <==> serving && start <= d <= end && DateHasPair(t, pairs, d)
    ensures forall i, c :: 0 <= i < |close.rows| && c in close.columns && (close.rows[i].date, c) in t ==>
      Cell(close.rows[i], c) == Fin(t[(close.rows[i].date, c)].close) &&
      Cell(high.rows[i], c) == Fin(t[(close.rows[i].date, c)].high) &&
      Cell(low.rows[i], c) == Fin(t[(close.rows[i].date, c)].low)
    ensures forall i, c :: 0 <= i < |close.rows| && (close.rows[i].date, c) !in t ==>
      Cell(close.rows[i], c) == NaN && Cell(high.rows[i], c) == NaN && Cell(low.rows[i], c) == NaN
  {
    if serving {
      var keys := Selected(t, pairs, start, end);
      var cols, ds := KeyPairs(keys, pairs), KeyDates(keys);
      assert close == PivotOn(t, cols, ds, CloseOf) && high == PivotOn(t, cols, ds, HighOf) && low == PivotOn(t, cols, ds, LowOf);
      SelectedFacts(t, pairs, start, end, cols, ds);
    }
  }

  class ExchangeHistoryDB {
    /** A database client was created. */
    var connected: bool
    /** Queries sent through the client succeed (false: every query raises). */
    var reachable: bool
    var table: Table

    constructor (connected: bool, reachable: bool, table: Table)
      ensures this.connected == connected && this.reachable == reachable && this.table == table
    {
      this.connected := connected;
      this.reachable := reachable;
      this.table := table;
    }

    predicate Serving()
      reads this
    {
      connected && reachable
    }

    /** The greatest stored date of `pair`, scanning the stored rows one by one. */
    method LatestOf(pair: string) returns (latest: Option<int>)
      ensures IsLatest(table, pair, latest)
    {
      var keys := table.Keys;
      latest := None;
      while keys != {}
        decreases |keys|
        invariant keys <= table.Keys
        invariant latest.None? <==> forall k :: k in table.Keys - keys ==> k.1 != pair
        invariant latest.Some? ==>
          (latest.value, pair) in table && forall k :: k in table.Keys - keys && k.1 == pair ==> k.0 <= latest.value
      {
        var k :| k in keys;
        if k.1 == pair && (latest.None? || k.0 > latest.value) {
          latest := Some(k.0);
        }
        keys := keys - {k};
      }
      assert table.Keys - keys == table.Keys;
      if latest.Some? {
        assert latest.value in StoredDates(table, pair);
      } else {
        assert forall d :: d in StoredDates(table, pair) ==> (d, pair) in table.Keys;
      }
    }

    /**
     * `get_all_latest_dates`: every requested pair mapped to its greatest
     * stored date, or None when it has no row; all None when no query can be
     * made or the query raises.
     */
    method GetAllLatestDates(pairs: seq<string>) returns (r: map<string, Option<int>>)
      ensures r.Keys == set p | p in pairs
      ensures forall p :: p in r ==> if Serving() then IsLatest(table, p, r[p]) else r[p].None?
    {
      r := map[];
      var i := 0;
      while i < |pairs|
        invariant 0 <= i <= |pairs|
        invariant r.Keys == set p | p in pairs[..i]
        invariant forall p :: p in r ==> if Serving() then IsLatest(table, p, r[p]) else r[p].None?
      {
        var latest: Option<int> := None;
        if Serving() {
          latest := LatestOf(pairs[i]);
        }
        r := r[pairs[i] := latest];
        assert pairs[..i + 1] == pairs[..i] + [pairs[i]];
        i := i + 1;
      }
      assert pairs[..i] == pairs;
    }

    /**
     * The batch loop of `save_history_data`: `recs` upserted in order in
     * batches of `BatchSize`. `failing` names the batch whose upsert raises
     * (None: none does); the batches before it stay written. The result is
     * true iff every batch was written.
     */
    method UpsertInBatches(recs: seq<Record>, failing: Option<nat>) returns (ok: bool, ghost batches: seq<seq<Record>>)
      modifies this`table
      ensures ok == (Written(|recs|, failing) == |recs|)
      ensures table == Upsert(old(table), recs[..Written(|recs|, failing)])
      ensures Concat(batches) == recs[..Written(|recs|, failing)]
      ensures forall b :: b in batches ==> 1 <= |b| <= BatchSize
    {
      batches := [];
      var i, k := 0, 0;
      while i < |recs|
        invariant 0 <= i <= |recs| && k == |batches|
        invariant i == Written(|recs|, Some(k))
        invariant failing.Some? ==> failing.value >= k
        invariant Concat(batches) == recs[..i]
        invariant forall b :: b in batches ==> 1 <= |b| <= BatchSize
        invariant table == Upsert(old(table), recs[..i])
      {
        if failing == Some(k) {
          return false, batches;
        }
        var j := if i + BatchSize < |recs| then i + BatchSize else |recs|;
        var batch := recs[i..j];
        UpsertAppend(old(table), recs[..i], batch);
        assert recs[..i] + batch == recs[..j];
        table := Upsert(table, batch);
        batches := batches + [batch];
        i, k := j, k + 1;
      }
      assert recs[..i] == recs;
      ok := true;
    }

    /**
     * `save_history_data`. Open prices default to the close table. With no
     * client nothing is written; otherwise the records are upserted in
     * batches, and an unreachable database fails on the first batch. The
     * result is true iff there was a record and every batch was written.
     */
    method SaveHistoryData(close: Frame, high: Frame, low: Frame, open: Option<Frame>, failing: Option<nat>)
      returns (ok: bool, ghost batches: seq<seq<Record>>)
      modifies this`table
      ensures !connected ==> !ok && table == old(table) && batches == []
      ensures connected ==>
        var recs := SaveRecords(close, high, low, open);
        var written := Written(|recs|, if reachable then failing else Some(0));
        && ok == (|recs| > 0 && written == |recs|)
        && table == Upsert(old(table), recs[..written])
        && Concat(batches) == recs[..written]
        && forall b :: b in batches ==> 1 <= |b| <= BatchSize
      ensures table == SavedTable(old(table), SaveRecords(close, high, low, open), connected, reachable, failing)
    {
      batches := [];
      if !connected {
        return false, batches;
      }
      var o := if open.Some? then open.value else close;
      var recs := CollectRecords(close, high, low, o);
      if |recs| == 0 {
        assert recs[..0] == [];
        return false, batches;
      }
      ok, batches := UpsertInBatches(recs, if reachable then failing else Some(0));
    }

    /**
     * `load_history_data`: the stored rows of the requested pairs dated
     * `start` to `end`, pivoted into close, high and low tables; three empty
     * tables with no client, when the query raises, or when nothing matches.
     */
    method LoadHistoryData(pairs: seq<string>, start: int, end: int) returns (close: Frame, high: Frame, low: Frame)
      ensures close == Loaded(table, Serving(), pairs, start, end, CloseOf)
      ensures high == Loaded(table, Serving(), pairs, start, end, HighOf)
      ensures low == Loaded(table, Serving(), pairs, start, end, LowOf)
    {
      if !Serving() {
        return EmptyFrame, EmptyFrame, EmptyFrame;
      }
      var keys := Selected(table, pairs, start, end);
      var ds := CollectDates(keys);
      var cols := KeyPairs(keys, pairs);
      IncreasingUnique(ds, KeyDates(keys));
      close := PivotOn(table, cols, ds, CloseOf);
      high := PivotOn(table, cols, ds, HighOf);
      low := PivotOn(table, cols, ds, LowOf);
    }

    /**
     * `get_data_coverage`: a pair is covered iff its latest stored date is
     * at most one whole day before `nowSec`, that is iff some stored date of
     * it is. The requested period length plays no part.
     */
    method GetDataCoverage(pairs: seq<string>, requiredMonths: int, nowSec: int) returns (cov: map<string, bool>)
      ensures cov.Keys == set p | p in pairs
      ensures forall p :: p in cov ==>
        (cov[p] <==> Serving() && exists d :: d in StoredDates(table, p) && DaysSince(nowSec, d) <= 1)
    {
      if !connected {
        return map p | p in pairs :: false;
      }
      var latest := GetAllLatestDates(pairs);
      cov := map[];
      var i := 0;
      while i < |pairs|
        invariant 0 <= i <= |pairs|
        invariant cov.Keys == set p | p in pairs[..i]
        invariant forall p :: p in cov ==>
          (cov[p] <==> Serving() && exists d :: d in StoredDates(table, p) && DaysSince(nowSec, d) <= 1)
      {
        var p := pairs[i];
        assert p in latest;
        var c := latest[p].Some? && DaysSince(nowSec, latest[p].value) <= 1;
        if Serving() && exists d :: d in StoredDates(table, p) && DaysSince(nowSec, d) <= 1 {
          var d :| d in StoredDates(table, p) && DaysSince(nowSec, d) <= 1;
          DaysSinceAntitone(nowSec, d, latest[p].value);
        }
        cov := cov[p := c];
        assert pairs[..i + 1] == pairs[..i] + [p];
        i := i + 1;
      }
      assert pairs[..i] == pairs;
    }
  }
}
