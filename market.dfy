// The currency pairs, their Yahoo Finance tickers, the U.S. Dollar Index
// weights, and the shapes in which price downloads arrive.

module MarketData {
  import opened Numbers
  import opened Seqs
  import opened Frames

  /** ICE U.S. Dollar Index constant. */
  const DxyConstant: real := 50.143432

  /** The six index components with their weights, in the order the sources iterate them. */
  const DxyWeights: seq<(string, real)> := [
    ("EUR_USD", -0.576), ("USD_JPY", 0.136), ("GBP_USD", -0.119),
    ("USD_CAD", 0.091), ("USD_SEK", 0.042), ("USD_CHF", 0.036)]

  const DxyPairs: seq<string> := ["EUR_USD", "USD_JPY", "GBP_USD", "USD_CAD", "USD_SEK", "USD_CHF"]

  const UsdKrw: string := "USD_KRW"
  const UsdJpy: string := "USD_JPY"
  const JpyKrw: string := "JPY_KRW"
  const Jxy: string := "JXY"

  /** The seven quoted pairs: the index components and USD/KRW. */
  const AllPairs: seq<string> := DxyPairs + [UsdKrw]

  /** Yahoo Finance tickers of `AllPairs`, position by position. */
  const Tickers: seq<string> := ["EURUSD=X", "JPY=X", "GBPUSD=X", "CAD=X", "SEK=X", "CHF=X", "USDKRW=X"]

  /** The column a ticker is renamed to; other names stay as they are. */
  function PairName(ticker: string): (r: string)
    ensures forall i :: 0 <= i < |Tickers| && Tickers[i] == ticker ==> r == AllPairs[i]
  {
    if ticker == "EURUSD=X" then "EUR_USD"
    else if ticker == "JPY=X" then "USD_JPY"
    else if ticker == "GBPUSD=X" then "GBP_USD"
    else if ticker == "CAD=X" then "USD_CAD"
    else if ticker == "SEK=X" then "USD_SEK"
    else if ticker == "CHF=X" then "USD_CHF"
    else if ticker == "USDKRW=X" then "USD_KRW"
    else ticker
  }

  /** The provider's period string for a number of months; any other number means one year. */
  function PeriodString(months: int): (s: string)
    ensures months !in {1, 3, 6, 12} ==> s == "1y"
  {
    if months == 1 then "1mo"
    else if months == 3 then "3mo"
    else if months == 6 then "6mo"
    else "1y"
  }

  /** The ticker of a pair name (the inverse of `PairName` on the quoted pairs). */
  function TickerOf(pair: string): (t: string)
    ensures forall i :: 0 <= i < |AllPairs| && AllPairs[i] == pair ==> t == Tickers[i]
  {
    if pair == "EUR_USD" then "EURUSD=X"
    else if pair == "USD_JPY" then "JPY=X"
    else if pair == "GBP_USD" then "GBPUSD=X"
    else if pair == "USD_CAD" then "CAD=X"
    else if pair == "USD_SEK" then "SEK=X"
    else if pair == "USD_CHF" then "CHF=X"
    else if pair == "USD_KRW" then "USDKRW=X"
    else pair
  }

  /** Renaming a quoted ticker and mapping it back gives the ticker again. */
  lemma PairNameRoundTrip(i: int)
    requires 0 <= i < |Tickers|
    ensures PairName(Tickers[i]) == AllPairs[i] && TickerOf(PairName(Tickers[i])) == Tickers[i]
  {
  }

  /** The price types a daily download carries. */
  const PriceTypes: seq<string> := ["Open", "High", "Low", "Close"]

  /**
   * A bulk price download of the quoted tickers. `TwoLevel` has a two-level
   * column index whose keys are (first level, second level); `OneLevel` has
   * plain column names. `cell` gives the value at a date and column; a cell
   * the download does not hold reads as NaN.
   */
  datatype Download =
    | TwoLevel(index: seq<int>, keys: seq<(string, string)>, cell: (int, string, string) -> Num)
    | OneLevel(index: seq<int>, names: seq<string>, cell1: (int, string) -> Num)

  /** pandas `DataFrame.empty` for a download. */
  predicate DownloadEmpty(d: Download)
  {
    match d
    case TwoLevel(index, keys, _) => |index| == 0 || |keys| == 0
    case OneLevel(index, names, _) => |index| == 0 || |names| == 0
  }

  /** Whether some column key of a two-level download has first level `a`. */
  predicate HasFirstLevel(d: Download, a: string)
    requires d.TwoLevel?
  {
    exists k :: k in d.keys && k.0 == a
  }

  /**
   * The price-type table of a download grouped by ticker, (ticker, price) keys:
   * one column per quoted pair whose key is present, renamed to the pair name.
   */
  function ByTicker(d: Download, pt: string): (f: Frame)
    requires d.TwoLevel?
    ensures forall c :: c in f.columns <==> c in AllPairs && (TickerOf(c), pt) in d.keys
    ensures Dates(f) == d.index
    ensures forall i, c :: 0 <= i < |f.rows| && c in f.columns ==>
      Cell(f.rows[i], c) == d.cell(d.index[i], TickerOf(c), pt)
  {
    var cols := Filter(AllPairs, (c: string) => (TickerOf(c), pt) in d.keys);
    Tabulate(cols, d.index, (date: int, c: string) => d.cell(date, TickerOf(c), pt))
  }

  /**
   * `download[pt]` on a download grouped by price type, (price, ticker) keys,
   * renamed to pair names; Raised (KeyError) when no key has first level `pt`.
   */
  function ByPrice(d: Download, pt: string): (r: Result<Frame>)
    requires d.TwoLevel?
    ensures r.Raised? <==> !HasFirstLevel(d, pt)
    ensures r.Ok? ==> forall c :: c in r.value.columns <==> c in AllPairs && (pt, TickerOf(c)) in d.keys
    ensures r.Ok? ==> Dates(r.value) == d.index
    ensures r.Ok? ==> forall i, c :: 0 <= i < |r.value.rows| && c in r.value.columns ==>
      Cell(r.value.rows[i], c) == d.cell(d.index[i], pt, TickerOf(c))
  {
    if !HasFirstLevel(d, pt) then Raised
    else
      var cols := Filter(AllPairs, (c: string) => (pt, TickerOf(c)) in d.keys);
      Ok(Tabulate(cols, d.index, (date: int, c: string) => d.cell(date, pt, TickerOf(c))))
  }

  /** What `ticker.info.get('regularMarketPrice')` gives: a price, nothing, or an exception. */
  datatype Quote = Price(p: Num) | NoPrice | QuoteRaised

  /** The seven quoted pairs are pairwise distinct. */
  lemma AllPairsDistinct()
    ensures forall j, k :: 0 <= j < k < |AllPairs| ==> AllPairs[j] != AllPairs[k]
    ensures Distinct(AllPairs)
  {
    assert AllPairs == ["EUR_USD", "USD_JPY", "GBP_USD", "USD_CAD", "USD_SEK", "USD_CHF", "USD_KRW"];
  }

  /** The set of keys of a map filled for every quoted pair. */
  function PairSet(): set<string>
  {
    set j | 0 <= j < |AllPairs| :: AllPairs[j]
  }

  /** The two derived keys are not among the quoted pairs. */
  lemma CrossKeysUnquoted()
    ensures forall i :: 0 <= i < |AllPairs| ==> AllPairs[i] != Jxy && AllPairs[i] != JpyKrw
    ensures Jxy !in PairSet() && JpyKrw !in PairSet() && Jxy != JpyKrw
  {
    assert AllPairs == ["EUR_USD", "USD_JPY", "GBP_USD", "USD_CAD", "USD_SEK", "USD_CHF", "USD_KRW"];
  }

  /** The tables and current rates a period fetch returns; a derived rate may be None. */
  datatype PeriodData = PeriodData(close: Frame, high: Frame, low: Frame, rates: map<string, Option<Num>>)
}
