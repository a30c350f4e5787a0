// Date-indexed tables of prices, as the pandas DataFrames of the Python
// services hold them: an ordered list of column names and an ordered list of
// rows, each row a date and the values it carries. A cell a row does not
// carry reads as NaN, which is what pandas fills in when it aligns frames.

module Frames {
  import opened Numbers
  import opened Seqs

  /** One row of a table: its date (a day number) and its cells. */
  datatype Row = Row(date: int, values: map<string, Num>)

  datatype Frame = Frame(columns: seq<string>, rows: seq<Row>)

  const EmptyFrame: Frame := Frame([], [])

  function Cell(r: Row, c: string): Num
  {
    if c in r.values then r.values[c] else NaN
  }

  /** pandas `DataFrame.empty`: no rows or no columns. */
  predicate IsEmpty(f: Frame)
  {
    |f.rows| == 0 || |f.columns| == 0
  }

  function RowDates(rows: seq<Row>): (ds: seq<int>)
    ensures |ds| == |rows|
    ensures forall i :: 0 <= i < |rows| ==> ds[i] == rows[i].date
  {
    seq(|rows|, i requires 0 <= i < |rows| => rows[i].date)
  }

  function Dates(f: Frame): seq<int>
  {
    RowDates(f.rows)
  }

  /** The values of one column, top to bottom (`df[c].tolist()`). */
  function Column(f: Frame, c: string): (vs: seq<Num>)
    ensures |vs| == |f.rows|
    ensures forall i :: 0 <= i < |f.rows| ==> vs[i] == Cell(f.rows[i], c)
  {
    seq(|f.rows|, i requires 0 <= i < |f.rows| => Cell(f.rows[i], c))
  }

  /** The first row with date `d`, if any. */
  function FirstWithDate(rows: seq<Row>, d: int): (r: Option<Row>)
    ensures r.Some? <==> d in RowDates(rows)
    ensures r.Some? ==> r.value in rows && r.value.date == d
  {
    if |rows| == 0 then None
    else if rows[0].date == d then Some(rows[0])
    else
      assert RowDates(rows) == [rows[0].date] + RowDates(rows[1..]);
      FirstWithDate(rows[1..], d)
  }

  /** `df.loc[d, c]`: None where pandas raises KeyError (no such date or column). */
  function Lookup(f: Frame, d: int, c: string): (r: Option<Num>)
    ensures r.Some? <==> d in Dates(f) && c in f.columns
  {
    if c !in f.columns then None
    else
      match FirstWithDate(f.rows, d)
      case None => None
      case Some(row) => Some(Cell(row, c))
  }

  predicate RowHasValue(cols: seq<string>, r: Row)
  {
    exists c :: c in cols && !Cell(r, c).NaN?
  }

  predicate RowIsComplete(cols: seq<string>, r: Row)
  {
    forall c :: c in cols ==> !Cell(r, c).NaN?
  }

  /** `dropna(how='all')`: drop the rows in which every column is NaN. */
  function DropAllNa(f: Frame): (r: Frame)
    ensures r.columns == f.columns
    ensures forall i :: 0 <= i < |r.rows| ==> r.rows[i] in f.rows && RowHasValue(f.columns, r.rows[i])
    ensures forall i :: 0 <= i < |f.rows| && RowHasValue(f.columns, f.rows[i]) ==> f.rows[i] in r.rows
  {
    Frame(f.columns, Filter(f.rows, (row: Row) => RowHasValue(f.columns, row)))
  }

  /** `dropna()`: drop every row in which some column is NaN. */
  function DropAnyNa(f: Frame): (r: Frame)
    ensures r.columns == f.columns
    ensures forall i :: 0 <= i < |r.rows| ==> r.rows[i] in f.rows && RowIsComplete(f.columns, r.rows[i])
    ensures forall i :: 0 <= i < |f.rows| && RowIsComplete(f.columns, f.rows[i]) ==> f.rows[i] in r.rows
  {
    Frame(f.columns, Filter(f.rows, (row: Row) => RowIsComplete(f.columns, row)))
  }

  /** `df[name] = vals`: add or overwrite one column, row by row. */
  function WithColumn(f: Frame, name: string, vals: seq<Num>): (r: Frame)
    requires |vals| == |f.rows|
    ensures name in r.columns
    ensures forall c :: c in r.columns <==> c in f.columns || c == name
    ensures Dates(r) == Dates(f)
    ensures forall i :: 0 <= i < |f.rows| ==> Cell(r.rows[i], name) == vals[i]
    ensures forall i, c :: 0 <= i < |f.rows| && c != name ==> Cell(r.rows[i], c) == Cell(f.rows[i], c)
  {
    var cols := if name in f.columns then f.columns else f.columns + [name];
    Frame(cols, seq(|f.rows|, i requires 0 <= i < |f.rows| =>
      Row(f.rows[i].date, f.rows[i].values[name := vals[i]])))
  }

  /** The last row with date `d`. */
  function LastWithDate(rows: seq<Row>, d: int): (r: Row)
    requires d in RowDates(rows)
    ensures r in rows && r.date == d
  {
    var n := |rows| - 1;
    if rows[n].date == d then rows[n]
    else
      assert RowDates(rows) == RowDates(rows[..n]) + [rows[n].date];
      LastWithDate(rows[..n], d)
  }

  lemma RowDatesAppend(a: seq<Row>, b: seq<Row>)
    ensures RowDates(a + b) == RowDates(a) + RowDates(b)
  {
  }

  lemma RowDatesInit(rows: seq<Row>)
    requires |rows| > 0
    ensures RowDates(rows) == RowDates(rows[..|rows| - 1]) + [rows[|rows| - 1].date]
  {
  }

  lemma {:induction false} LastWithDateAppend(a: seq<Row>, b: seq<Row>, d: int)
    requires d in RowDates(a) || d in RowDates(b)
    ensures RowDates(a + b) == RowDates(a) + RowDates(b)
    ensures d in RowDates(b) ==> LastWithDate(a + b, d) == LastWithDate(b, d)
    ensures d !in RowDates(b) ==> LastWithDate(a + b, d) == LastWithDate(a, d)
  {
    RowDatesAppend(a, b);
    if |b| > 0 {
      var n := |b| - 1;
      AppendInit(a, b);
      RowDatesInit(b);
      if b[n].date != d {
        LastWithDateAppend(a, b[..n], d);
      }
    } else {
      assert a + b == a;
    }
  }

  /** Columns of `pd.concat([a, b])`: those of `a`, then the new ones of `b`. */
  function UnionColumns(a: seq<string>, b: seq<string>): (r: seq<string>)
    ensures forall c :: c in r <==> c in a || c in b
  {
    a + Filter(b, (c: string) => c !in a)
  }

  /**
   * `pd.concat([stored, fetched]).sort_index()` followed by dropping repeated dates
   * with `keep='last'`: one row per date, dates ascending, and on a date both
   * tables hold, the row of `fetched` (the later one in the concatenation).
   */
  function Merge(stored: Frame, fetched: Frame): (r: Frame)
    ensures forall c :: c in r.columns <==> c in stored.columns || c in fetched.columns
    ensures StrictlyIncreasing(Dates(r))
    ensures forall d :: d in Dates(r) <==> d in Dates(stored) || d in Dates(fetched)
    ensures forall i :: 0 <= i < |r.rows| && r.rows[i].date in Dates(fetched) ==>
      r.rows[i] == LastWithDate(fetched.rows, r.rows[i].date)
    ensures forall i :: 0 <= i < |r.rows| && r.rows[i].date !in Dates(fetched) ==>
      r.rows[i].date in Dates(stored) && r.rows[i] == LastWithDate(stored.rows, r.rows[i].date)
  {
    var all := stored.rows + fetched.rows;
    var ds := SortedDistinct(RowDates(all));
    assert forall i :: 0 <= i < |ds| ==> ds[i] in RowDates(all);
    var rows := seq(|ds|, i requires 0 <= i < |ds| => LastWithDate(all, ds[i]));
    assert RowDates(rows) == ds;
    forall i | 0 <= i < |rows|
      ensures rows[i].date in Dates(fetched) ==> rows[i] == LastWithDate(fetched.rows, rows[i].date)
      ensures rows[i].date !in Dates(fetched) ==>
        rows[i].date in Dates(stored) && rows[i] == LastWithDate(stored.rows, rows[i].date)
    {
      LastWithDateAppend(stored.rows, fetched.rows, ds[i]);
    }
    RowDatesAppend(stored.rows, fetched.rows);
    Frame(UnionColumns(stored.columns, fetched.columns), rows)
  }

  /** `series.dropna()[series > 0].iloc[-1]`: the last positive value, if any. */
  function LastPositive(vs: seq<Num>): (r: Option<Num>)
    ensures r.Some? ==> Positive(r.value) && r.value in vs
    ensures r.None? <==> forall i :: 0 <= i < |vs| ==> !Positive(vs[i])
    ensures r.Some? ==>
      exists i :: 0 <= i < |vs| && vs[i] == r.value && (forall j :: i < j < |vs| ==> !Positive(vs[j]))
  {
    if |vs| == 0 then None
    else if Positive(vs[|vs| - 1]) then Some(vs[|vs| - 1])
    else
      var r := LastPositive(vs[..|vs| - 1]);
      assert forall i :: 0 <= i < |vs| - 1 ==> vs[..|vs| - 1][i] == vs[i];
      r
  }

  /** A table with columns `cols` and one row per date of `index`, cell (d, c) being `v(d, c)`. */
  function Tabulate(cols: seq<string>, index: seq<int>, v: (int, string) -> Num): (f: Frame)
    ensures f.columns == cols && Dates(f) == index
    ensures forall i, c :: 0 <= i < |index| && c in cols ==> Cell(f.rows[i], c) == v(index[i], c)
    ensures forall i, c :: 0 <= i < |index| && c !in cols ==> Cell(f.rows[i], c) == NaN
  {
    Frame(cols, seq(|index|, i requires 0 <= i < |index| => Row(index[i], map c | c in cols :: v(index[i], c))))
  }

  /** `df[c].iloc[-1]`: None where pandas raises (no such column, or no rows). */
  function LastValue(f: Frame, c: string): (r: Option<Num>)
    ensures r.Some? <==> c in f.columns && |f.rows| > 0
    ensures r.Some? ==> r.value == Column(f, c)[|f.rows| - 1]
  {
    if c in f.columns && |f.rows| > 0 then Some(Cell(f.rows[|f.rows| - 1], c)) else None
  }
}
