// The cached period fetch of the Python dashboard: a per-period memo with a
// one-hour lifetime in front of a database-backed fetch. The fetch reuses the
// stored history when every pair is up to date; otherwise it downloads the
// whole ticker set (a bulk download, a second bulk download, and finally one
// history per ticker), normalises it into per-price tables keyed by pair
// name, adds the derived JPY_KRW and JXY columns, saves, merges with the
// stored history, and works out current rates through a chain of fallbacks.
// Every network answer is an input; the clock is an input in seconds.

module PeriodCache {
  import opened Numbers
  import opened Seqs
  import opened Frames
  import opened MarketData
  import opened HistoryStore
  import IndexCalculator

  const CacheTtl: int := 3600

  // ---------------------------------------------------------------- memo

  /** One memo entry: the result of a period fetch and when it was stored. */
  datatype MemoEntry = MemoEntry(data: PeriodData, time: Option<int>)

  /** `_is_cache_valid`: an entry that exists, carries a time, and is younger than the lifetime. */
  predicate IsCacheValid(entry: Option<MemoEntry>, nowSec: int)
  {
    entry.Some? && entry.value.time.Some? && nowSec - entry.value.time.value < CacheTtl
  }

  /** An entry stored at `t` stays valid exactly until `t + CacheTtl`, and once invalid it stays invalid. */
  lemma EntryLifetime(e: MemoEntry, t: int, now1: int, now2: int)
    requires e.time == Some(t) && now1 <= now2
    ensures IsCacheValid(Some(e), now1) <==> now1 < t + CacheTtl
    ensures IsCacheValid(Some(e), now2) ==> IsCacheValid(Some(e), now1) || now1 < t
  {
  }

  // ---------------------------------------------------------- staleness

  /** A pair needs an update: no stored date, or the latest one is at least a whole day ago. */
  predicate Stale(latest: Option<int>, nowSec: int)
  {
    latest.None? || DaysSince(nowSec, latest.value) >= 1
  }

  predicate StaleIn(latest: map<string, Option<int>>, nowSec: int, p: string)
  {
    p in latest && Stale(latest[p], nowSec)
  }

  /** A pair last stored yesterday counts as covered by `get_data_coverage` and still as stale here. */
  lemma YesterdayIsCoveredAndStale(nowSec: int, day: int)
    requires DaysSince(nowSec, day) == 1
    ensures Stale(Some(day), nowSec) && DaysSince(nowSec, day) <= 1
  {
  }

  /** Every pair of `pairs` is up to date. */
  predicate AllUpToDate(pairs: seq<string>, latest: map<string, Option<int>>, nowSec: int)
  {
    forall j :: 0 <= j < |pairs| ==> !StaleIn(latest, nowSec, pairs[j])
  }

  /**
   * The staleness loop of `_fetch_with_db_cache` over the pairs of the
   * latest-date map: the pairs that need an update, in order, and whether
   * every pair is up to date.
   */
  method FindStalePairs(pairs: seq<string>, latest: map<string, Option<int>>, nowSec: int)
    returns (needsUpdate: seq<string>, allUpToDate: bool)
    ensures needsUpdate == Filter(pairs, (p: string) => StaleIn(latest, nowSec, p))
    ensures allUpToDate <==> AllUpToDate(pairs, latest, nowSec)
    ensures allUpToDate <==> |needsUpdate| == 0
  {
    var stale := (p: string) => StaleIn(latest, nowSec, p);
    needsUpdate := [];
    allUpToDate := true;
    var i := 0;
    while i < |pairs|
      invariant 0 <= i <= |pairs|
      invariant needsUpdate == Filter(pairs[..i], stale)
      invariant allUpToDate <==> forall j :: 0 <= j < i ==> !stale(pairs[j])
      invariant allUpToDate <==> |needsUpdate| == 0
    {
      var pair := pairs[i];
      FilterAppend(pairs[..i], [pair], stale);
      assert pairs[..i + 1] == pairs[..i] + [pair];
      assert [pair][1..] == [];
      if stale(pair) {
        needsUpdate := needsUpdate + [pair];
        allUpToDate := false;
      }
      i := i + 1;
    }
    assert pairs[..i] == pairs;
  }

  // ------------------------------------------------ per-ticker fallback

  /** A per-ticker history counts when it is not empty. */
  predicate Returned(h: Frame)
  {
    !IsEmpty(h)
  }

  /** The history of ticker `t` (an empty one for a ticker outside the list). */
  function HistoryOf(hists: seq<Frame>, t: string): (h: Frame)
    requires |hists| == |Tickers|
    ensures forall i :: 0 <= i < |Tickers| && Tickers[i] == t ==> h == hists[IndexIn(Tickers, t)]
  {
    var i := IndexIn(Tickers, t);
    if i < 0 then EmptyFrame else hists[i]
  }

  /** `hist[pt]` at date `d` after alignment on the union of dates: NaN where the history has no such date. */
  function HistCell(h: Frame, d: int, pt: string): Num
  {
    match FirstWithDate(h.rows, d)
    case None => NaN
    case Some(row) => Cell(row, pt)
  }

  /** The (t, price type) keys for the price types among `types` that the history `h` has. */
  function TickerKeys(t: string, h: Frame, types: seq<string>): (ks: seq<(string, string)>)
    ensures forall k :: k in ks <==> k.0 == t && k.1 in types && k.1 in h.columns
  {
    if |types| == 0 then []
    else
      var rest := TickerKeys(t, h, types[1..]);
      assert forall x :: x in types <==> x == types[0] || x in types[1..];
      (if types[0] in h.columns then [(t, types[0])] else []) + rest
  }

  /** The (ticker, price type) keys built from the first `n` tickers' histories. */
  function PerTickerKeys(hists: seq<Frame>, n: nat): (ks: seq<(string, string)>)
    requires |hists| == |Tickers| && n <= |Tickers|
    ensures forall k :: k in ks <==>
      exists i :: 0 <= i < n && Returned(hists[i]) && k.0 == Tickers[i] && k.1 in PriceTypes && k.1 in hists[i].columns
  {
    if n == 0 then []
    else
      var mine := if Returned(hists[n - 1]) then TickerKeys(Tickers[n - 1], hists[n - 1], PriceTypes) else [];
      PerTickerKeys(hists, n - 1) + mine
  }

  /** The dates of the returned histories among the first `n`, concatenated. */
  function PerTickerDates(hists: seq<Frame>, n: nat): (ds: seq<int>)
    requires |hists| == |Tickers| && n <= |Tickers|
    ensures forall d :: d in ds <==> exists i :: 0 <= i < n && Returned(hists[i]) && d in Dates(hists[i])
  {
    if n == 0 then []
    else PerTickerDates(hists, n - 1) + (if Returned(hists[n - 1]) then Dates(hists[n - 1]) else [])
  }

  /**
   * The table built from one history per ticker: the sorted union of the
   * returned tickers' dates, and a (ticker, price type) column for each
   * price type a returned ticker has. With no returned ticker, or none with
   * a price column, it is empty.
   */
  function PerTickerDownload(hists: seq<Frame>): (d: Download)
    requires |hists| == |Tickers|
    ensures d.TwoLevel?
    ensures StrictlyIncreasing(d.index)
    ensures forall day :: day in d.index <==>
      exists i :: 0 <= i < |Tickers| && Returned(hists[i]) && day in Dates(hists[i])
    ensures forall k :: k in d.keys <==>
      exists i :: 0 <= i < |Tickers| && Returned(hists[i]) && k.0 == Tickers[i] && k.1 in PriceTypes && k.1 in hists[i].columns
    ensures (forall i :: 0 <= i < |Tickers| ==> !Returned(hists[i])) ==> DownloadEmpty(d)
    ensures forall day, t, pt :: d.cell(day, t, pt) == HistCell(HistoryOf(hists, t), day, pt)
  {
    var keys := PerTickerKeys(hists, |Tickers|);
    var dates := PerTickerDates(hists, |Tickers|);
    var index := SortedDistinct(dates);
    assert (forall i :: 0 <= i < |Tickers| ==> !Returned(hists[i])) ==> |index| == 0 by {
      if |index| > 0 {
        assert index[0] in dates;
      }
    }
    TwoLevel(index, keys, (day: int, t: string, pt: string) => HistCell(HistoryOf(hists, t), day, pt))
  }

  // ------------------------------------------------------ normalisation

  /** The close, high, low and open tables of one download. */
  datatype Quad = Quad(close: Frame, high: Frame, low: Frame, open: Frame)

  const EmptyQuad: Quad := Quad(EmptyFrame, EmptyFrame, EmptyFrame, EmptyFrame)

  /** `dropna(how='all')` on each of the four tables. */
  function DropAllNa4(q: Quad): Quad
  {
    Quad(DropAllNa(q.close), DropAllNa(q.high), DropAllNa(q.low), DropAllNa(q.open))
  }

  /** A table with one row per date of `index` and no columns (`pd.DataFrame(index=...)`). */
  function IndexOnly(index: seq<int>): (f: Frame)
    ensures f.columns == [] && Dates(f) == index
  {
    Tabulate([], index, (d: int, c: string) => NaN)
  }

  /** The one-level download's column `name`, as a table with that single column. */
  function SingleColumn(d: Download, name: string): (f: Frame)
    requires d.OneLevel?
    ensures f.columns == [name] && Dates(f) == d.index
  {
    Tabulate([name], d.index, (date: int, c: string) => d.cell1(date, c))
  }

  /** The one-level download's ticker columns, renamed to pair names. */
  function TickerColumns(d: Download): (f: Frame)
    requires d.OneLevel?
    ensures forall c :: c in f.columns <==> c in AllPairs && TickerOf(c) in d.names
    ensures Dates(f) == d.index
  {
    Tabulate(Filter(AllPairs, (c: string) => TickerOf(c) in d.names), d.index,
      (date: int, c: string) => d.cell1(date, TickerOf(c)))
  }

  /** The four (ticker, price type) tables of a two-level download, read as grouped by ticker. */
  function GroupedByTicker(d: Download): Quad
    requires d.TwoLevel?
  {
    Quad(ByTicker(d, "Close"), ByTicker(d, "High"), ByTicker(d, "Low"), ByTicker(d, "Open"))
  }

  /** The one-level cases: price-type columns (all four must be present) or ticker columns (close only). */
  function NormaliseOneLevel(d: Download): (r: Result<Quad>)
    requires d.OneLevel?
    ensures "Close" in d.names ==> (r.Raised? <==> !("High" in d.names && "Low" in d.names && "Open" in d.names))
    ensures "Close" !in d.names ==> r.Ok? && r.value.high.columns == [] && r.value.low.columns == []
  {
    if "Close" in d.names then
      if "High" in d.names && "Low" in d.names && "Open" in d.names then
        Ok(Quad(SingleColumn(d, "Close"), SingleColumn(d, "High"), SingleColumn(d, "Low"), SingleColumn(d, "Open")))
      else Raised
    else
      Ok(Quad(TickerColumns(d), IndexOnly(d.index), IndexOnly(d.index), IndexOnly(d.index)))
  }

  /**
   * The normalisation as written: every two-level download goes through the
   * (ticker, price type) branch, whichever level holds the tickers.
   */
  function NormaliseAsWritten(d: Download): (r: Result<Quad>)
    ensures DownloadEmpty(d) ==> r == Ok(EmptyQuad)
    ensures !DownloadEmpty(d) && d.TwoLevel? ==> r == Ok(DropAllNa4(GroupedByTicker(d)))
  {
    if DownloadEmpty(d) then Ok(EmptyQuad)
    else match d
      case TwoLevel(_, _, _) => Ok(DropAllNa4(GroupedByTicker(d)))
      case OneLevel(_, _, _) =>
        match NormaliseOneLevel(d)
        case Raised => Raised
        case Ok(q) => Ok(DropAllNa4(q))
  }

  /**
   * The normalisation with the level order detected: a two-level download
   * whose first level holds the price types (the retry download, which uses
   * the default grouping) is read by price type, as the `elif` branch for
   * that layout intends.
   */
  function Normalise(d: Download): (r: Result<Quad>)
    ensures DownloadEmpty(d) ==> r == Ok(EmptyQuad)
    ensures !DownloadEmpty(d) && d.TwoLevel? && !HasFirstLevel(d, "Close") ==> r == NormaliseAsWritten(d)
    ensures d.OneLevel? ==> r == NormaliseAsWritten(d)
    ensures !DownloadEmpty(d) && d.TwoLevel? && HasFirstLevel(d, "Close") ==>
      (r.Raised? <==> !(HasFirstLevel(d, "High") && HasFirstLevel(d, "Low") && HasFirstLevel(d, "Open")))
    ensures !DownloadEmpty(d) && d.TwoLevel? && HasFirstLevel(d, "Close") && r.Ok? ==>
      r.value.close == DropAllNa(ByPrice(d, "Close").value)
  {
    if !DownloadEmpty(d) && d.TwoLevel? && HasFirstLevel(d, "Close") then
      match (ByPrice(d, "Close"), ByPrice(d, "High"), ByPrice(d, "Low"), ByPrice(d, "Open"))
      case (Ok(c), Ok(h), Ok(l), Ok(o)) => Ok(DropAllNa4(Quad(c, h, l, o)))
      case _ => Raised
    else NormaliseAsWritten(d)
  }

  /** No quoted ticker is spelled like a price type. */
  lemma TickersAreNotPriceTypes()
    ensures forall c :: c in AllPairs ==> TickerOf(c) !in PriceTypes
  {
    forall c | c in AllPairs ensures TickerOf(c) !in PriceTypes {
      var i :| 0 <= i < |AllPairs| && AllPairs[i] == c;
      assert TickerOf(c) == Tickers[i];
    }
  }

  /** A table without columns loses every row to `dropna(how='all')`. */
  lemma DropAllNaNoColumns(f: Frame)
    requires f.columns == []
    ensures DropAllNa(f).rows == []
  {
    FilterNone(f.rows, (row: Row) => RowHasValue(f.columns, row));
  }

  /** Reading a download grouped by price type as grouped by ticker finds no column at all. */
  lemma ByTickerOfByPriceLayout(d: Download, pt: string)
    requires d.TwoLevel? && forall k :: k in d.keys ==> k.0 in PriceTypes
    ensures ByTicker(d, pt).columns == []
    ensures DropAllNa(ByTicker(d, pt)).rows == []
  {
    TickersAreNotPriceTypes();
    FilterNone(AllPairs, (c: string) => (TickerOf(c), pt) in d.keys);
    DropAllNaNoColumns(ByTicker(d, pt));
  }

  /**
   * The normalisation as written turns every non-empty download grouped by
   * price type (the layout of the retry download) into four tables with no
   * rows and no columns.
   */
  lemma {:induction false} AsWrittenLosesByPriceLayout(d: Download)
    requires d.TwoLevel? && !DownloadEmpty(d) && forall k :: k in d.keys ==> k.0 in PriceTypes
    ensures NormaliseAsWritten(d).Ok?
    ensures var q := NormaliseAsWritten(d).value;
      q.close.rows == [] && q.high.rows == [] && q.low.rows == [] && q.open.rows == []
  {
    ByTickerOfByPriceLayout(d, "Close");
    ByTickerOfByPriceLayout(d, "High");
    ByTickerOfByPriceLayout(d, "Low");
    ByTickerOfByPriceLayout(d, "Open");
  }

  /** A download grouped by price type with one USD/JPY price `price` on the one date `day`. */
  function ByPriceExample(day: int, price: real): Download
  {
    TwoLevel([day], [("Close", "JPY=X"), ("High", "JPY=X"), ("Low", "JPY=X"), ("Open", "JPY=X")],
      (d: int, a: string, b: string) => Fin(price))
  }

  /** On that download the normalisation as written keeps no row. */
  lemma ByPriceExampleLost(day: int, price: real)
    ensures NormaliseAsWritten(ByPriceExample(day, price)).Ok?
    ensures NormaliseAsWritten(ByPriceExample(day, price)).value.close.rows == []
  {
    var d := ByPriceExample(day, price);
    assert forall k :: k in d.keys ==> k.0 in PriceTypes;
    AsWrittenLosesByPriceLayout(d);
  }

  /** The corrected normalisation reads a download grouped by price type through `ByPrice`. */
  lemma {:induction false} NormaliseByPriceLayout(d: Download)
    requires d.TwoLevel? && !DownloadEmpty(d)
    requires HasFirstLevel(d, "Close") && HasFirstLevel(d, "High") && HasFirstLevel(d, "Low") && HasFirstLevel(d, "Open")
    ensures Normalise(d) == Ok(DropAllNa4(Quad(ByPrice(d, "Close").value, ByPrice(d, "High").value,
      ByPrice(d, "Low").value, ByPrice(d, "Open").value)))
  {
  }

  /**
   * The corrected normalisation keeps, for a download grouped by price type,
   * every quoted pair with a close key as a close column, and every date on
   * which one of them has a value.
   */
  lemma CorrectedKeepsByPriceLayout(d: Download)
    requires d.TwoLevel? && !DownloadEmpty(d)
    requires HasFirstLevel(d, "Close") && HasFirstLevel(d, "High") && HasFirstLevel(d, "Low") && HasFirstLevel(d, "Open")
    ensures Normalise(d).Ok?
    ensures forall c :: c in AllPairs && ("Close", TickerOf(c)) in d.keys ==> c in Normalise(d).value.close.columns
    ensures forall i, c ::
      (0 <= i < |d.index| && c in AllPairs && ("Close", TickerOf(c)) in d.keys &&
       !d.cell(d.index[i], "Close", TickerOf(c)).NaN?) ==> d.index[i] in Dates(Normalise(d).value.close)
  {
    NormaliseByPriceLayout(d);
    var p := ByPrice(d, "Close").value;
    forall i, c | 0 <= i < |d.index| && c in AllPairs && ("Close", TickerOf(c)) in d.keys &&
      !d.cell(d.index[i], "Close", TickerOf(c)).NaN?
      ensures d.index[i] in Dates(Normalise(d).value.close)
    {
      assert Cell(p.rows[i], c) == d.cell(d.index[i], "Close", TickerOf(c));
      assert RowHasValue(p.columns, p.rows[i]);
      var kept := DropAllNa(p).rows;
      assert p.rows[i] in kept;
      var j :| 0 <= j < |kept| && kept[j] == p.rows[i];
      assert Dates(DropAllNa(p))[j] == d.index[i];
    }
  }

  /** On that download the corrected normalisation keeps the USD/JPY close. */
  lemma ByPriceExampleKept(day: int, price: real)
    ensures Normalise(ByPriceExample(day, price)).Ok?
    ensures UsdJpy in Normalise(ByPriceExample(day, price)).value.close.columns
    ensures day in Dates(Normalise(ByPriceExample(day, price)).value.close)
  {
    var d := ByPriceExample(day, price);
    assert d.keys[0] == ("Close", "JPY=X");
    assert d.keys[1] == ("High", "JPY=X");
    assert d.keys[2] == ("Low", "JPY=X");
    assert d.keys[3] == ("Open", "JPY=X");
    PairNameRoundTrip(1);
    assert AllPairs[1] == UsdJpy && Tickers[1] == "JPY=X";
    assert d.index[0] == day && !d.cell(d.index[0], "Close", TickerOf(UsdJpy)).NaN?;
    CorrectedKeepsByPriceLayout(d);
  }

  // ---------------------------------------------------- derived columns

  /** A JPY/KRW cell: USD_KRW / USD_JPY where both are positive, NaN elsewhere. */
  function JpyKrwOf(krw: Num, jpy: Num): (r: Num)
    ensures Positive(krw) && Positive(jpy) ==> r == Div(krw, jpy)
    ensures !(Positive(krw) && Positive(jpy)) ==> r.NaN?
  {
    if Positive(krw) && Positive(jpy) then Div(krw, jpy) else NaN
  }

  /** A JXY cell: 100 / USD_JPY where it is positive, NaN elsewhere. */
  function JxyOf(jpy: Num): (r: Num)
    ensures Positive(jpy) ==> r == Div(Hundred, jpy)
    ensures !Positive(jpy) ==> r.NaN?
  {
    if Positive(jpy) then Div(Hundred, jpy) else NaN
  }

  /** A defined derived cell is never negative and never NaN. */
  lemma DerivedCellsNonNegative(krw: Num, jpy: Num)
    ensures !JpyKrwOf(krw, jpy).NaN? ==> !Gt(Zero, JpyKrwOf(krw, jpy))
    ensures !JxyOf(jpy).NaN? ==> !Gt(Zero, JxyOf(jpy))
  {
  }

  /**
   * Adds the JPY_KRW and JXY columns to `f`, row by row from the given
   * USD/KRW and USD/JPY values; every other cell is left as it was.
   */
  function WithDerived(f: Frame, krw: seq<Num>, jpy: seq<Num>): (r: Frame)
    requires |krw| == |f.rows| && |jpy| == |f.rows|
    ensures Dates(r) == Dates(f)
    ensures forall c :: c in r.columns <==> c in f.columns || c == JpyKrw || c == Jxy
    ensures forall i :: 0 <= i < |f.rows| ==> Cell(r.rows[i], JpyKrw) == JpyKrwOf(krw[i], jpy[i])
    ensures forall i :: 0 <= i < |f.rows| ==> Cell(r.rows[i], Jxy) == JxyOf(jpy[i])
    ensures forall i, c :: 0 <= i < |f.rows| && c != JpyKrw && c != Jxy ==> Cell(r.rows[i], c) == Cell(f.rows[i], c)
  {
    var withKrw := WithColumn(f, JpyKrw, seq(|f.rows|, i requires 0 <= i < |f.rows| => JpyKrwOf(krw[i], jpy[i])));
    WithColumn(withKrw, Jxy, seq(|f.rows|, i requires 0 <= i < |f.rows| => JxyOf(jpy[i])))
  }

  /** Derived columns from the table's own USD/KRW and USD/JPY (close and open). */
  function DeriveSame(f: Frame): (r: Frame)
    requires UsdJpy in f.columns && UsdKrw in f.columns
    ensures Dates(r) == Dates(f)
    ensures forall i :: 0 <= i < |f.rows| ==>
      Cell(r.rows[i], JpyKrw) == JpyKrwOf(Cell(f.rows[i], UsdKrw), Cell(f.rows[i], UsdJpy)) &&
      Cell(r.rows[i], Jxy) == JxyOf(Cell(f.rows[i], UsdJpy))
    ensures forall i, c :: 0 <= i < |f.rows| && c != JpyKrw && c != Jxy ==> Cell(r.rows[i], c) == Cell(f.rows[i], c)
  {
    WithDerived(f, Column(f, UsdKrw), Column(f, UsdJpy))
  }

  /** Column `c` of `other` read at the dates of `target`, as pandas aligns two series: NaN where `other` lacks the date. */
  function Aligned(target: Frame, other: Frame, c: string): (vs: seq<Num>)
    ensures |vs| == |target.rows|
    ensures forall i :: 0 <= i < |target.rows| ==> vs[i] == HistCell(other, target.rows[i].date, c)
  {
    seq(|target.rows|, i requires 0 <= i < |target.rows| => HistCell(other, target.rows[i].date, c))
  }

  /**
   * Every date of `other` is a date of `target`: the union of the two date
   * indexes, on which the JPY_KRW mask and quotient are aligned, then has
   * `target`'s length.
   */
  predicate AlignsInto(other: Frame, target: Frame)
  {
    forall d :: d in Dates(other) ==> d in Dates(target)
  }

  /**
   * The outcome of one derived-column step: `Done` with the new table, or
   * `Stopped` when the step raised, with the table as the assignments made
   * before the exception left it.
   */
  datatype Step = Done(f: Frame) | Stopped(f: Frame)

  /**
   * Derived high (or low) columns, from this side's USD/KRW and the opposite
   * extreme's USD/JPY. JPY_KRW is USD_KRW of this side / USD_JPY of the
   * opposite table aligned by date; its assignment raises when this side has
   * no USD/KRW or the union of dates is longer than this side. JXY is
   * 100 / USD_JPY of the opposite table taken by position, and its
   * assignment raises when the two tables differ in length, after JPY_KRW
   * was already added.
   */
  function DeriveOpposite(side: Frame, opposite: Frame): (r: Step)
    ensures r.Stopped? <==> UsdKrw !in side.columns || !AlignsInto(opposite, side) || |opposite.rows| != |side.rows|
    ensures Dates(r.f) == Dates(side)
    ensures forall i, c :: 0 <= i < |side.rows| && c != JpyKrw && c != Jxy ==> Cell(r.f.rows[i], c) == Cell(side.rows[i], c)
    ensures UsdKrw !in side.columns || !AlignsInto(opposite, side) ==> r.f == side
    ensures UsdKrw in side.columns && AlignsInto(opposite, side) ==> forall i :: 0 <= i < |side.rows| ==>
      Cell(r.f.rows[i], JpyKrw) == JpyKrwOf(Cell(side.rows[i], UsdKrw), HistCell(opposite, side.rows[i].date, UsdJpy))
    ensures r.Done? ==> forall i :: 0 <= i < |side.rows| ==> Cell(r.f.rows[i], Jxy) == JxyOf(Cell(opposite.rows[i], UsdJpy))
    ensures r.Stopped? ==> forall i :: 0 <= i < |side.rows| ==> Cell(r.f.rows[i], Jxy) == Cell(side.rows[i], Jxy)
    ensures r.Done? ==> forall c :: c in r.f.columns <==> c in side.columns || c == JpyKrw || c == Jxy
    ensures r.Stopped? && UsdKrw in side.columns && AlignsInto(opposite, side) ==>
      forall c :: c in r.f.columns <==> c in side.columns || c == JpyKrw
  {
    if UsdKrw !in side.columns || !AlignsInto(opposite, side) then Stopped(side)
    else
      var jpy := Aligned(side, opposite, UsdJpy);
      var withKrw := WithColumn(side, JpyKrw,
        seq(|side.rows|, i requires 0 <= i < |side.rows| => JpyKrwOf(Cell(side.rows[i], UsdKrw), jpy[i])));
      if |opposite.rows| != |side.rows| then Stopped(withKrw)
      else Done(WithColumn(withKrw, Jxy,
        seq(|side.rows|, i requires 0 <= i < |side.rows| => JxyOf(Cell(opposite.rows[i], UsdJpy)))))
  }

  /**
   * When both tables have the same strictly ascending dates the step runs to
   * the end, and the positional JXY is the opposite USD/JPY read by date.
   */
  lemma SameDatesReadByDate(side: Frame, opposite: Frame)
    requires UsdKrw in side.columns && Dates(opposite) == Dates(side) && StrictlyIncreasing(Dates(side))
    ensures DeriveOpposite(side, opposite).Done?
    ensures forall i :: 0 <= i < |side.rows| ==>
      Cell(DeriveOpposite(side, opposite).f.rows[i], Jxy) == JxyOf(HistCell(opposite, side.rows[i].date, UsdJpy))
  {
    assert |opposite.rows| == |Dates(opposite)| == |Dates(side)| == |side.rows|;
    forall i | 0 <= i < |side.rows|
      ensures HistCell(opposite, side.rows[i].date, UsdJpy) == Cell(opposite.rows[i], UsdJpy)
    {
      var d := side.rows[i].date;
      assert Dates(side)[i] == d && Dates(opposite)[i] == opposite.rows[i].date;
      assert d in RowDates(opposite.rows);
      var row := FirstWithDate(opposite.rows, d).value;
      var j :| 0 <= j < |opposite.rows| && opposite.rows[j] == row;
      assert Dates(opposite)[j] == d;
      assert j == i;
    }
  }

  /** The derived columns need a non-empty close table with both USD/JPY and USD/KRW. */
  predicate CanDerive(q: Quad)
  {
    !IsEmpty(q.close) && UsdJpy in q.close.columns && UsdKrw in q.close.columns
  }

  /** The open table gets the derived columns only when it is non-empty and holds USD/JPY and USD/KRW. */
  predicate CanDeriveOpen(q: Quad)
  {
    !IsEmpty(q.open) && UsdJpy in q.open.columns && UsdKrw in q.open.columns
  }

  /** The high step raises: low has USD/JPY and the high table cannot take the derived columns. */
  predicate HighStepRaises(q: Quad)
  {
    UsdJpy in q.low.columns && DeriveOpposite(q.high, q.low).Stopped?
  }

  /** The low step raises: the new high table has USD/JPY and the low table cannot take the derived columns. */
  predicate LowStepRaises(q: Quad, high: Frame)
  {
    UsdJpy in high.columns && DeriveOpposite(q.low, high).Stopped?
  }

  /** Two tables agree on every date and on every cell outside the derived columns. */
  ghost predicate SameBesidesDerived(a: Frame, b: Frame)
  {
    Dates(a) == Dates(b) &&
    forall i, c :: 0 <= i < |a.rows| && c != JpyKrw && c != Jxy ==> Cell(a.rows[i], c) == Cell(b.rows[i], c)
  }

  /**
   * The derived-column step: close first, then high (from low's USD/JPY),
   * then low (from high's USD/JPY), then open; the first step that raises
   * stops the rest, keeping every column already assigned, including the
   * JPY_KRW column of the step that raised.
   */
  function DeriveAll(q: Quad): (r: Quad)
    ensures !CanDerive(q) ==> r == q
    ensures CanDerive(q) ==> r.close == DeriveSame(q.close)
    ensures SameBesidesDerived(r.close, q.close) && SameBesidesDerived(r.high, q.high)
    ensures SameBesidesDerived(r.low, q.low) && SameBesidesDerived(r.open, q.open)
    ensures CanDerive(q) && UsdJpy in q.low.columns ==> r.high == DeriveOpposite(q.high, q.low).f
    ensures CanDerive(q) && UsdJpy !in q.low.columns ==> r.high == q.high
    ensures CanDerive(q) && HighStepRaises(q) ==> r.low == q.low && r.open == q.open
    ensures CanDerive(q) && !HighStepRaises(q) && UsdJpy in r.high.columns ==> r.low == DeriveOpposite(q.low, r.high).f
    ensures CanDerive(q) && !HighStepRaises(q) && UsdJpy !in r.high.columns ==> r.low == q.low
    ensures CanDerive(q) && !HighStepRaises(q) && LowStepRaises(q, r.high) ==> r.open == q.open
    ensures CanDerive(q) && !HighStepRaises(q) && !LowStepRaises(q, r.high) ==>
      r.open == if CanDeriveOpen(q) then DeriveSame(q.open) else q.open
  {
    if !CanDerive(q) then q
    else
      var close := DeriveSame(q.close);
      var hs := if UsdJpy in q.low.columns then DeriveOpposite(q.high, q.low) else Done(q.high);
      if hs.Stopped? then Quad(close, hs.f, q.low, q.open)
      else
        var high := hs.f;
        var ls := if UsdJpy in high.columns then DeriveOpposite(q.low, high) else Done(q.low);
        if ls.Stopped? then Quad(close, high, ls.f, q.open)
        else Quad(close, high, ls.f, if CanDeriveOpen(q) then DeriveSame(q.open) else q.open)
  }

  /**
   * A low table whose dates are a strict part of the high table's: high
   * keeps the JPY_KRW column it was given but gets no JXY, and low and open
   * are left as they were.
   */
  lemma ShorterLowStopsAfterJpyKrw(q: Quad)
    requires CanDerive(q) && UsdJpy in q.low.columns && UsdKrw in q.high.columns
    requires AlignsInto(q.low, q.high) && |q.low.rows| < |q.high.rows|
    ensures JpyKrw in DeriveAll(q).high.columns
    ensures Jxy !in q.high.columns ==> Jxy !in DeriveAll(q).high.columns
    ensures DeriveAll(q).low == q.low && DeriveAll(q).open == q.open
  {
  }

  // ------------------------------------------------------- fetch inputs

  /**
   * What the quote provider answers during one fetch: the two bulk
   * downloads (None: the call raised), one history per ticker (empty when it
   * raised), the live quote and one-day close per pair for the current rates,
   * and the first failing batch of the save (None: none fails).
   */
  datatype Provider = Provider(
    bulkByTicker: Option<Download>,
    bulkByPeriod: Option<Download>,
    histories: seq<Frame>,
    quotes: seq<Quote>,
    dayCloses: seq<Option<Num>>,
    failingBatch: Option<nat>)

  predicate WellFormed(net: Provider)
  {
    |net.histories| == |Tickers| && |net.quotes| == |AllPairs| && |net.dayCloses| == |AllPairs|
  }

  /** The download the fetch works on: the first bulk download that did not raise, unless it is empty; else the per-ticker table. */
  function ChosenDownload(net: Provider): (d: Download)
    requires WellFormed(net)
    ensures net.bulkByTicker.Some? && !DownloadEmpty(net.bulkByTicker.value) ==> d == net.bulkByTicker.value
    ensures net.bulkByTicker.None? && net.bulkByPeriod.Some? && !DownloadEmpty(net.bulkByPeriod.value) ==>
      d == net.bulkByPeriod.value
    ensures ((net.bulkByTicker.Some? && DownloadEmpty(net.bulkByTicker.value)) ||
             (net.bulkByTicker.None? && (net.bulkByPeriod.None? || DownloadEmpty(net.bulkByPeriod.value)))) ==>
      d == PerTickerDownload(net.histories)
  {
    var bulk := if net.bulkByTicker.Some? then net.bulkByTicker else net.bulkByPeriod;
    if bulk.None? || DownloadEmpty(bulk.value) then PerTickerDownload(net.histories) else bulk.value
  }

  /** The new tables of one fetch: normalised and with the derived columns; Raised where the fetch raises. */
  function FetchedTables(net: Provider): (r: Result<Quad>)
    requires WellFormed(net)
    ensures r.Raised? <==> NormaliseAsWritten(ChosenDownload(net)).Raised?
    ensures r.Ok? ==> r.value == DeriveAll(NormaliseAsWritten(ChosenDownload(net)).value)
  {
    match NormaliseAsWritten(ChosenDownload(net))
    case Raised => Raised
    case Ok(q) => Ok(DeriveAll(q))
  }

  /** A stored table merged with a fetched one when the stored close table has data, else the fetched one. */
  function MergeIfStored(storedClose: Frame, stored: Frame, fetched: Frame): (r: Frame)
    ensures IsEmpty(storedClose) ==> r == fetched
    ensures !IsEmpty(storedClose) ==> StrictlyIncreasing(Dates(r))
    ensures !IsEmpty(storedClose) ==> forall d :: d in Dates(r) <==> d in Dates(stored) || d in Dates(fetched)
    ensures !IsEmpty(storedClose) ==> forall i :: 0 <= i < |r.rows| && r.rows[i].date in Dates(fetched) ==>
      r.rows[i] == LastWithDate(fetched.rows, r.rows[i].date)
  {
    if IsEmpty(storedClose) then fetched else Merge(stored, fetched)
  }

  /** The three tables a refresh returns: each fetched table merged into its stored one when any is stored. */
  function Refreshed(stored: Quad, q: Quad): (Frame, Frame, Frame)
  {
    (MergeIfStored(stored.close, stored.close, q.close),
     MergeIfStored(stored.close, stored.high, q.high),
     MergeIfStored(stored.close, stored.low, q.low))
  }

  // ------------------------------------------------------ current rates

  /** Whether the close table offers a last value for `key` (`not df_close.empty and key in df_close.columns`). */
  predicate HasLastClose(close: Frame, key: string)
  {
    !IsEmpty(close) && key in close.columns
  }

  /**
   * One pair's current rate: the live price when there is one; else the last
   * close of the table; else (only when the quote did not raise) the one-day
   * history's close; else 0.0.
   */
  function PairRate(q: Quote, dayClose: Option<Num>, close: Frame, key: string): (r: Num)
    ensures q.Price? ==> r == q.p
    ensures !q.Price? && HasLastClose(close, key) ==> r == LastValue(close, key).value
    ensures q.NoPrice? && !HasLastClose(close, key) && dayClose.Some? ==> r == dayClose.value
    ensures q.QuoteRaised? && !HasLastClose(close, key) ==> r == Zero
    ensures q.NoPrice? && !HasLastClose(close, key) && dayClose.None? ==> r == Zero
  {
    match q
    case Price(p) => p
    case NoPrice =>
      if HasLastClose(close, key) then LastValue(close, key).value
      else if dayClose.Some? then dayClose.value
      else Zero
    case QuoteRaised => if HasLastClose(close, key) then LastValue(close, key).value else Zero
  }

  /**
   * Current JXY: 100 / the current USD/JPY when that is positive; else
   * 100 / the last positive USD/JPY close; else None.
   */
  function CurrentJxy(jpy: Num, close: Frame): (r: Option<Num>)
    ensures Positive(jpy) ==> r == Some(Div(Hundred, jpy))
    ensures !Positive(jpy) && HasLastClose(close, UsdJpy) ==>
      match LastPositive(Column(close, UsdJpy))
      case Some(v) => r == Some(Div(Hundred, v))
      case None => r.None?
    ensures !Positive(jpy) && !HasLastClose(close, UsdJpy) ==> r.None?
  {
    if Positive(jpy) then Some(Div(Hundred, jpy))
    else if HasLastClose(close, UsdJpy) then
      match LastPositive(Column(close, UsdJpy))
      case Some(v) => Some(Div(Hundred, v))
      case None => None
    else None
  }

  /**
   * Current JPY/KRW: USD/KRW / USD/JPY from the current rates when both are
   * positive; else from the last positive closes of both; else None.
   */
  function CurrentJpyKrw(krw: Num, jpy: Num, close: Frame): (r: Option<Num>)
    ensures Positive(krw) && Positive(jpy) ==> r == Some(Div(krw, jpy))
    ensures !(Positive(krw) && Positive(jpy)) && HasLastClose(close, UsdKrw) && HasLastClose(close, UsdJpy) ==>
      var k, j := LastPositive(Column(close, UsdKrw)), LastPositive(Column(close, UsdJpy));
      if k.Some? && j.Some? then r == Some(Div(k.value, j.value)) else r.None?
    ensures !(Positive(krw) && Positive(jpy)) && !(HasLastClose(close, UsdKrw) && HasLastClose(close, UsdJpy)) ==> r.None?
  {
    if Positive(krw) && Positive(jpy) then Some(Div(krw, jpy))
    else if HasLastClose(close, UsdKrw) && HasLastClose(close, UsdJpy) then
      var k, j := LastPositive(Column(close, UsdKrw)), LastPositive(Column(close, UsdJpy));
      if k.Some? && j.Some? then Some(Div(k.value, j.value)) else None
    else None
  }

  /** A number that is not +infinity. */
  predicate Bounded(x: Num)
  {
    !x.PosInf?
  }

  /**
   * A current JXY is either None or a quotient of positive values: never NaN,
   * never negative, and positive whenever USD/JPY and its closes are finite.
   */
  lemma CurrentJxyPositive(jpy: Num, close: Frame)
    requires Bounded(jpy) && forall i :: 0 <= i < |close.rows| ==> Bounded(Cell(close.rows[i], UsdJpy))
    ensures CurrentJxy(jpy, close).Some? ==> Positive(CurrentJxy(jpy, close).value)
  {
    if Positive(jpy) {
      DivPositive(Hundred, jpy);
    } else if HasLastClose(close, UsdJpy) {
      var v := LastPositive(Column(close, UsdJpy));
      if v.Some? {
        assert Bounded(v.value);
        DivPositive(Hundred, v.value);
      }
    }
  }

  /** The same for the current JPY/KRW: positive whenever the USD/JPY it divides by is finite. */
  lemma CurrentJpyKrwPositive(krw: Num, jpy: Num, close: Frame)
    requires Bounded(jpy) && forall i :: 0 <= i < |close.rows| ==> Bounded(Cell(close.rows[i], UsdJpy))
    ensures CurrentJpyKrw(krw, jpy, close).Some? ==> Positive(CurrentJpyKrw(krw, jpy, close).value)
  {
    if Positive(krw) && Positive(jpy) {
      DivPositive(krw, jpy);
    } else if HasLastClose(close, UsdKrw) && HasLastClose(close, UsdJpy) {
      var k, j := LastPositive(Column(close, UsdKrw)), LastPositive(Column(close, UsdJpy));
      if k.Some? && j.Some? {
        assert Bounded(j.value);
        DivPositive(k.value, j.value);
      }
    }
  }

  /** The current rates of the cached fetch: each pair's rate, then JXY and JPY_KRW, which may be None. */
  predicate IsCachedRates(net: Provider, close: Frame, m: map<string, Option<Num>>)
    requires WellFormed(net)
  {
    assert UsdJpy == AllPairs[1] && UsdKrw == AllPairs[6] && UsdJpy in PairSet() && UsdKrw in PairSet();
    && m.Keys == PairSet() + {Jxy, JpyKrw}
    && (forall i :: 0 <= i < |AllPairs| ==>
      m[AllPairs[i]] == Some(PairRate(net.quotes[i], net.dayCloses[i], close, AllPairs[i])))
    && m[Jxy] == CurrentJxy(m[UsdJpy].value, close)
    && m[JpyKrw] == CurrentJpyKrw(m[UsdKrw].value, m[UsdJpy].value, close)
  }

  /** The first current-rate loop of `_fetch_with_db_cache`: each key's rate, in order. */
  method PairRates(keys: seq<string>, quotes: seq<Quote>, dayCloses: seq<Option<Num>>, close: Frame)
    returns (rates: map<string, Option<Num>>)
    requires |quotes| == |keys| && |dayCloses| == |keys| && Distinct(keys)
    ensures rates.Keys == set j | 0 <= j < |keys| :: keys[j]
    ensures forall j :: 0 <= j < |keys| ==> rates[keys[j]] == Some(PairRate(quotes[j], dayCloses[j], close, keys[j]))
  {
    rates := map[];
    for i := 0 to |keys|
      invariant rates.Keys == set j | 0 <= j < i :: keys[j]
      invariant forall j :: 0 <= j < i ==> rates[keys[j]] == Some(PairRate(quotes[j], dayCloses[j], close, keys[j]))
    {
      rates := rates[keys[i] := Some(PairRate(quotes[i], dayCloses[i], close, keys[i]))];
    }
  }

  /** The current-rate loops of `_fetch_with_db_cache`, over the pairs in order, then the two yen rates. */
  method CachedCurrentRates(net: Provider, close: Frame) returns (rates: map<string, Option<Num>>)
    requires WellFormed(net)
    ensures IsCachedRates(net, close, rates)
  {
    AllPairsDistinct();
    rates := PairRates(AllPairs, net.quotes, net.dayCloses, close);
    assert UsdJpy == AllPairs[1] && UsdKrw == AllPairs[6];
    assert Jxy !in PairSet() && JpyKrw !in PairSet();
    var jpy := rates[UsdJpy].value;
    var krw := rates[UsdKrw].value;
    rates := rates[Jxy := CurrentJxy(jpy, close)];
    rates := rates[JpyKrw := CurrentJpyKrw(krw, jpy, close)];
  }

  // ------------------------------------------------------- the fetcher

  /**
   * Every pair has a stored row less than one whole day before `nowSec`,
   * in a store that answers queries.
   */
  ghost predicate AllFresh(t: Table, serving: bool, nowSec: int)
  {
    serving &&
    forall j :: 0 <= j < |AllPairs| ==> exists d :: d in StoredDates(t, AllPairs[j]) && DaysSince(nowSec, d) < 1
  }

  /**
   * The staleness loop over the latest dates the store reports finds every
   * pair up to date exactly when every pair is fresh in the store.
   */
  lemma UpToDateIffFresh(t: Table, serving: bool, latest: map<string, Option<int>>, nowSec: int)
    requires latest.Keys == PairSet()
    requires forall p :: p in latest ==> if serving then IsLatest(t, p, latest[p]) else latest[p].None?
    ensures AllUpToDate(AllPairs, latest, nowSec) <==> AllFresh(t, serving, nowSec)
  {
    assert forall j :: 0 <= j < |AllPairs| ==> AllPairs[j] in PairSet();
    if !serving {
      assert StaleIn(latest, nowSec, AllPairs[0]);
    } else {
      forall j | 0 <= j < |AllPairs|
        ensures !StaleIn(latest, nowSec, AllPairs[j]) <==>
          exists d :: d in StoredDates(t, AllPairs[j]) && DaysSince(nowSec, d) < 1
      {
        var p := AllPairs[j];
        if exists d :: d in StoredDates(t, p) && DaysSince(nowSec, d) < 1 {
          var d :| d in StoredDates(t, p) && DaysSince(nowSec, d) < 1;
          DaysSinceAntitone(nowSec, d, latest[p].value);
        }
      }
    }
  }

  /** The day `nowSec` falls on. */
  function Today(nowSec: int): int
  {
    nowSec / SecondsPerDay
  }

  /** The first day of the period's stored range: `months * 30 + 7` days before today. */
  function PeriodStart(months: int, nowSec: int): int
  {
    Today(nowSec) - (months * 30 + 7)
  }

  /** The stored tables `_fetch_with_db_cache` loads: all pairs over the period's range up to today; open is not stored. */
  ghost function StoredQuad(t: Table, serving: bool, months: int, nowSec: int): Quad
  {
    var start, end := PeriodStart(months, nowSec), Today(nowSec);
    Quad(Loaded(t, serving, AllPairs, start, end, CloseOf), Loaded(t, serving, AllPairs, start, end, HighOf),
         Loaded(t, serving, AllPairs, start, end, LowOf), EmptyFrame)
  }

  /** The stored tables are returned as they are: every pair is fresh and the stored close table has data. */
  ghost predicate UsesStored(t: Table, serving: bool, months: int, nowSec: int)
  {
    AllFresh(t, serving, nowSec) && !IsEmpty(StoredQuad(t, serving, months, nowSec).close)
  }

  /** `_fetch_with_db_cache` raises: the stored tables are not used and the new tables raise. */
  ghost predicate DbFetchRaises(t: Table, serving: bool, months: int, nowSec: int, net: Provider)
    requires WellFormed(net)
  {
    !UsesStored(t, serving, months, nowSec) && FetchedTables(net).Raised?
  }

  /**
   * `r` and the new table `t'` are what `_fetch_with_db_cache` gives over a
   * store holding `t`: the stored tables, with the table untouched, when
   * they are used; otherwise the new tables saved and merged into the stored
   * ones, or Raised with the table untouched when the new tables raise. The
   * current rates always follow the fallback chain over the close table.
   */
  ghost predicate IsDbFetchResult(t: Table, connected: bool, reachable: bool, months: int, nowSec: int,
                                  net: Provider, r: Result<PeriodData>, t': Table)
    requires WellFormed(net)
  {
    var serving := connected && reachable;
    var stored := StoredQuad(t, serving, months, nowSec);
    && (r.Raised? <==> DbFetchRaises(t, serving, months, nowSec, net))
    && (r.Raised? ==> t' == t)
    && (r.Ok? ==> IsCachedRates(net, r.value.close, r.value.rates))
    && (UsesStored(t, serving, months, nowSec) ==>
      && r.Ok? && t' == t
      && (r.value.close, r.value.high, r.value.low) == (stored.close, stored.high, stored.low))
    && (!UsesStored(t, serving, months, nowSec) && FetchedTables(net).Ok? ==>
      var q := FetchedTables(net).value;
      && r.Ok?
      && (r.value.close, r.value.high, r.value.low) == Refreshed(stored, q)
      && t' == SavedTable(t, SaveRecords(q.close, q.high, q.low, Some(q.open)), connected, reachable, net.failingBatch))
  }

  /** The memo and the history store behind `fetch_period_data_with_cache`. */
  class PeriodFetcher {
    var memo: map<int, MemoEntry>
    const db: ExchangeHistoryDB

    constructor (db: ExchangeHistoryDB)
      ensures memo == map[] && this.db == db
    {
      memo := map[];
      this.db := db;
    }

    /** `_fetch_with_db_cache`. */
    method FetchWithDbCache(months: int, nowSec: int, net: Provider) returns (r: Result<PeriodData>)
      requires WellFormed(net)
      modifies db`table
      ensures IsDbFetchResult(old(db.table), old(db.connected), old(db.reachable), months, nowSec, net, r, db.table)
    {
      var stored := LoadStored(months, nowSec);
      var latest := db.GetAllLatestDates(AllPairs);
      assert (set p | p in AllPairs) == PairSet() by {
        assert forall p :: p in AllPairs ==> exists j :: 0 <= j < |AllPairs| && AllPairs[j] == p;
      }
      UpToDateIffFresh(db.table, db.Serving(), latest, nowSec);
      var needsUpdate, allUpToDate := FindStalePairs(AllPairs, latest, nowSec);
      var close, high, low;
      if allUpToDate && !IsEmpty(stored.close) {
        close, high, low := stored.close, stored.high, stored.low;
      } else {
        var refreshed := Refresh(stored, net);
        if refreshed.Raised? {
          return Raised;
        }
        close, high, low := refreshed.value.0, refreshed.value.1, refreshed.value.2;
      }
      var rates := CachedCurrentRates(net, close);
      r := Ok(PeriodData(close, high, low, rates));
    }

    /** The stored close, high and low tables of the period's date range (open is not stored). */
    method LoadStored(months: int, nowSec: int) returns (stored: Quad)
      ensures stored == StoredQuad(db.table, db.Serving(), months, nowSec)
      ensures !db.Serving() ==> stored.close == EmptyFrame
    {
      var close, high, low := db.LoadHistoryData(AllPairs, PeriodStart(months, nowSec), Today(nowSec));
      stored := Quad(close, high, low, EmptyFrame);
    }

    /**
     * The refresh branch of `_fetch_with_db_cache`: fetch the four tables,
     * save them, and merge them into the stored ones when there are any.
     */
    method Refresh(stored: Quad, net: Provider) returns (r: Result<(Frame, Frame, Frame)>)
      requires WellFormed(net)
      modifies db`table
      ensures r.Raised? <==> FetchedTables(net).Raised?
      ensures r.Raised? ==> db.table == old(db.table)
      ensures r.Ok? ==>
        var q := FetchedTables(net).value;
        && r.value == Refreshed(stored, q)
        && db.table == SavedTable(old(db.table), SaveRecords(q.close, q.high, q.low, Some(q.open)),
                                  old(db.connected), old(db.reachable), net.failingBatch)
    {
      var fetched := FetchedTables(net);
      if fetched.Raised? {
        return Raised;
      }
      var q := fetched.value;
      var saved, batches := db.SaveHistoryData(q.close, q.high, q.low, Some(q.open), net.failingBatch);
      r := Ok(Refreshed(stored, q));
    }

    /**
     * `fetch_period_data_with_cache`: a valid memo entry for the period is
     * returned as it is; otherwise the database-backed fetch runs, and when it
     * raises the plain download fetch runs instead; either result is memoised
     * with the current time. A failing plain fetch raises and memoises nothing.
     */
    method FetchPeriodDataWithCache(months: int, nowSec: int, net: Provider,
                                    fallback: string -> Download, fallbackQuotes: seq<Quote>)
      returns (r: Result<PeriodData>)
      requires WellFormed(net) && |fallbackQuotes| == |AllPairs|
      modifies this`memo, db`table
      ensures
        var hit := months in old(memo) && IsCacheValid(Some(old(memo)[months]), nowSec);
        && (hit ==> r == Ok(old(memo)[months].data) && memo == old(memo) && db.table == old(db.table))
        && (!hit && r.Ok? ==> memo == old(memo)[months := MemoEntry(r.value, Some(nowSec))])
        && (!hit && r.Raised? ==> memo == old(memo))
        && (!hit && !DbFetchRaises(old(db.table), old(db.Serving()), months, nowSec, net) ==>
          IsDbFetchResult(old(db.table), old(db.connected), old(db.reachable), months, nowSec, net, r, db.table))
        && (!hit && DbFetchRaises(old(db.table), old(db.Serving()), months, nowSec, net) ==>
          && db.table == old(db.table)
          && (r.Raised? <==> IndexCalculator.PlainFetchRaises(months, fallback, fallbackQuotes))
          && (r.Ok? ==> IndexCalculator.IsPlainFetchResult(months, fallback, fallbackQuotes, r.value)))
    {
      if months in memo && IsCacheValid(Some(memo[months]), nowSec) {
        return Ok(memo[months].data);
      }
      var res := FetchWithDbCache(months, nowSec, net);
      if res.Raised? {
        res := IndexCalculator.FetchPeriodDataAndCurrentRates(months, fallback, fallbackQuotes);
        if res.Raised? {
          return Raised;
        }
      }
      memo := memo[months := MemoEntry(res.value, Some(nowSec))];
      return res;
    }
  }
}
