// The Python index calculator: the U.S. Dollar Index as the weighted product
// C × Π rate^weight, both over a close table (one value per row) and at one
// set of current rates, and the plain download-then-quote period fetch.
// The real-exponent power is a parameter: only the structure around it is
// specified.

module IndexCalculator {
  import opened Numbers
  import opened Seqs
  import opened Frames
  import opened MarketData

  /** `x ** w` for a real exponent. */
  type Pow = (Num, real) -> Num

  function RateIn(rates: map<string, Num>, key: string): Num
  {
    if key in rates then rates[key] else NaN
  }

  /** Π rate(k) ** w over `ws`, multiplied left to right starting from 1.0. */
  function WeightedProduct(ws: seq<(string, real)>, rates: map<string, Num>, pow: Pow): Num
  {
    if |ws| == 0 then Fin(1.0)
    else Mul(WeightedProduct(ws[..|ws| - 1], rates, pow), pow(RateIn(rates, ws[|ws| - 1].0), ws[|ws| - 1].1))
  }

  /** The index at one set of rates: C × Π rate ** weight over the six components. */
  function DxyOf(rates: map<string, Num>, pow: Pow): Num
  {
    Mul(Fin(DxyConstant), WeightedProduct(DxyWeights, rates, pow))
  }

  /** The weights are keyed by the six components, in order. */
  lemma WeightKeys()
    ensures |DxyWeights| == |DxyPairs|
    ensures forall j :: 0 <= j < |DxyPairs| ==> DxyWeights[j].0 == DxyPairs[j]
  {
  }

  /** 1.0 is a left unit of multiplication, infinities and NaN included. */
  lemma MulOneLeft(x: Num)
    ensures Mul(Fin(1.0), x) == x
  {
  }

  /**
   * The product over the six weights, written out as the series expression
   * writes it, equals the fold `DxyOf` uses.
   */
  lemma {:induction false} DxyOfUnfolded(m: map<string, Num>, pow: Pow)
    ensures DxyOf(m, pow) == Mul(Fin(DxyConstant),
      Mul(Mul(Mul(Mul(Mul(pow(RateIn(m, "EUR_USD"), -0.576), pow(RateIn(m, "USD_JPY"), 0.136)),
        pow(RateIn(m, "GBP_USD"), -0.119)), pow(RateIn(m, "USD_CAD"), 0.091)),
        pow(RateIn(m, "USD_SEK"), 0.042)), pow(RateIn(m, "USD_CHF"), 0.036)))
  {
    var w := DxyWeights;
    var p0, p1, p2 := pow(RateIn(m, "EUR_USD"), -0.576), pow(RateIn(m, "USD_JPY"), 0.136), pow(RateIn(m, "GBP_USD"), -0.119);
    var p3, p4, p5 := pow(RateIn(m, "USD_CAD"), 0.091), pow(RateIn(m, "USD_SEK"), 0.042), pow(RateIn(m, "USD_CHF"), 0.036);
    assert w[..1][..0] == [];
    assert WeightedProduct(w[..1], m, pow) == p0 by {
      MulOneLeft(p0);
    }
    assert w[..2][..1] == w[..1];
    assert WeightedProduct(w[..2], m, pow) == Mul(p0, p1);
    assert w[..3][..2] == w[..2];
    assert WeightedProduct(w[..3], m, pow) == Mul(Mul(p0, p1), p2);
    assert w[..4][..3] == w[..3];
    assert WeightedProduct(w[..4], m, pow) == Mul(Mul(Mul(p0, p1), p2), p3);
    assert w[..5][..4] == w[..4];
    assert WeightedProduct(w[..5], m, pow) == Mul(Mul(Mul(Mul(p0, p1), p2), p3), p4);
    assert w[..6][..5] == w[..5] && w[..6] == w;
  }

  /**
   * `calculate_dollar_index_series`: one index value per row of the close
   * table, in row order; Raised (KeyError) when a component column is missing.
   */
  function CalculateDollarIndexSeries(close: Frame, pow: Pow): (r: Result<seq<Num>>)
    ensures r.Raised? <==> exists p :: p in DxyPairs && p !in close.columns
    ensures r.Ok? ==> |r.value| == |close.rows|
    ensures r.Ok? ==> forall i :: 0 <= i < |close.rows| ==> r.value[i] == DxyOf(close.rows[i].values, pow)
  {
    if exists p :: p in DxyPairs && p !in close.columns then Raised
    else
      var series := seq(|close.rows|, i requires 0 <= i < |close.rows| =>
        var row := close.rows[i];
        Mul(Fin(DxyConstant),
          Mul(Mul(Mul(Mul(Mul(pow(Cell(row, "EUR_USD"), -0.576), pow(Cell(row, "USD_JPY"), 0.136)),
            pow(Cell(row, "GBP_USD"), -0.119)), pow(Cell(row, "USD_CAD"), 0.091)),
            pow(Cell(row, "USD_SEK"), 0.042)), pow(Cell(row, "USD_CHF"), 0.036))));
      assert forall i :: 0 <= i < |close.rows| ==> series[i] == DxyOf(close.rows[i].values, pow) by {
        forall i | 0 <= i < |close.rows| ensures series[i] == DxyOf(close.rows[i].values, pow) {
          var row := close.rows[i];
          DxyOfUnfolded(row.values, pow);
          assert forall c :: Cell(row, c) == RateIn(row.values, c);
        }
      }
      Ok(series)
  }

  /**
   * `x ** w` on a Python float raises ZeroDivisionError when `x` is 0.0 and
   * `w` is negative, as for the EUR/USD and GBP/USD weights.
   */
  predicate PowRaises(x: Num, w: real)
  {
    x == Zero && w < 0.0
  }

  /** The loop of `calculate_current_dxy` stops at step `j`: its component is missing, or its power raises. */
  predicate StopsAt(rates: map<string, Num>, j: int)
    requires 0 <= j < |DxyWeights|
  {
    DxyWeights[j].0 !in rates || PowRaises(rates[DxyWeights[j].0], DxyWeights[j].1)
  }

  /** Some present component is 0.0 under a negative weight. */
  predicate SomePowRaises(rates: map<string, Num>)
  {
    exists j :: 0 <= j < |DxyWeights| && DxyWeights[j].0 in rates && PowRaises(rates[DxyWeights[j].0], DxyWeights[j].1)
  }

  /** The first step at or after `i` where the loop stops, or `|DxyWeights|` when it runs to the end. */
  function StopFrom(rates: map<string, Num>, i: nat): (k: nat)
    requires i <= |DxyWeights|
    ensures i <= k <= |DxyWeights|
    ensures forall j :: i <= j < k ==> !StopsAt(rates, j)
    ensures k < |DxyWeights| ==> StopsAt(rates, k)
    decreases |DxyWeights| - i
  {
    if i == |DxyWeights| || StopsAt(rates, i) then i else StopFrom(rates, i + 1)
  }

  /**
   * `calculate_current_dxy`, over components in weight order: 0.0 at the
   * first missing component, ZeroDivisionError at the first component that
   * is 0.0 under a negative weight, whichever comes first; when neither
   * happens, C × Π rate ** weight, with no check of the rates' sign.
   */
  method CalculateCurrentDxy(rates: map<string, Num>, pow: Pow) returns (dxy: Result<Num>)
    ensures StopFrom(rates, 0) == |DxyWeights| ==> dxy == Ok(DxyOf(rates, pow))
    ensures StopFrom(rates, 0) < |DxyWeights| && DxyWeights[StopFrom(rates, 0)].0 !in rates ==> dxy == Ok(Zero)
    ensures StopFrom(rates, 0) < |DxyWeights| && DxyWeights[StopFrom(rates, 0)].0 in rates ==> dxy.Raised?
  {
    var product := Fin(1.0);
    var i := 0;
    while i < |DxyWeights|
      invariant 0 <= i <= |DxyWeights|
      invariant StopFrom(rates, i) == StopFrom(rates, 0)
      invariant product == WeightedProduct(DxyWeights[..i], rates, pow)
    {
      var (key, weight) := DxyWeights[i];
      if key !in rates {
        return Ok(Zero);
      }
      if PowRaises(rates[key], weight) {
        return Raised;
      }
      product := Mul(product, pow(rates[key], weight));
      assert DxyWeights[..i + 1][..i] == DxyWeights[..i];
      i := i + 1;
    }
    assert DxyWeights[..i] == DxyWeights;
    dxy := Ok(Mul(Fin(DxyConstant), product));
  }

  /**
   * With every component present and none 0.0 under a negative weight, the
   * index is the weighted product; with some component missing and no power
   * raising, it is 0.0.
   */
  lemma CurrentDxyCases(rates: map<string, Num>)
    ensures (forall p :: p in DxyPairs ==> p in rates) && !SomePowRaises(rates) ==> StopFrom(rates, 0) == |DxyWeights|
    ensures (exists p :: p in DxyPairs && p !in rates) ==> StopFrom(rates, 0) < |DxyWeights|
  {
    WeightKeys();
    if exists p :: p in DxyPairs && p !in rates {
      var p :| p in DxyPairs && p !in rates;
      var j :| 0 <= j < |DxyPairs| && DxyPairs[j] == p;
      assert StopsAt(rates, j);
    }
  }

  /**
   * Only the two negatively weighted components can raise, and a 0.0
   * EUR/USD, the first component, raises whatever the other rates are.
   */
  lemma {:induction false} OnlyNegativeWeightsRaise(rates: map<string, Num>)
    ensures StopFrom(rates, 0) < |DxyWeights| && DxyWeights[StopFrom(rates, 0)].0 in rates ==>
      DxyWeights[StopFrom(rates, 0)].0 in {"EUR_USD", "GBP_USD"} && rates[DxyWeights[StopFrom(rates, 0)].0] == Zero
    ensures "EUR_USD" in rates && rates["EUR_USD"] == Zero ==>
      StopFrom(rates, 0) == 0 && DxyWeights[0].0 in rates
  {
    var k := StopFrom(rates, 0);
    if k < |DxyWeights| && DxyWeights[k].0 in rates {
      assert PowRaises(rates[DxyWeights[k].0], DxyWeights[k].1);
      assert k == 0 || k == 2;
    }
  }

  /** One current rate: the live price when there is one, else the close table's last value. */
  function LiveOrLastClose(q: Quote, close: Frame, key: string): (r: Result<Num>)
    ensures q.Price? ==> r == Ok(q.p)
    ensures q.NoPrice? ==> (r.Ok? <==> LastValue(close, key).Some?)
    ensures q.NoPrice? && r.Ok? ==> r.value == LastValue(close, key).value
    ensures q.QuoteRaised? ==> r.Raised?
  {
    match q
    case Price(p) => Ok(p)
    case NoPrice => if LastValue(close, key).Some? then Ok(LastValue(close, key).value) else Raised
    case QuoteRaised => Raised
  }

  /**
   * The rate lookup fails: a quote raises, a missing quote has no last close
   * to fall back on, or the live USD/JPY price is 0 (Python float division
   * by zero; a table value divides as a numpy float and gives an infinity).
   */
  predicate RatesFail(quotes: seq<Quote>, close: Frame)
    requires |quotes| == |AllPairs|
  {
    (exists i :: 0 <= i < |AllPairs| && LiveOrLastClose(quotes[i], close, AllPairs[i]).Raised?) ||
    quotes[1] == Price(Zero)
  }

  /** The current-rates dictionary: every pair's rate, JXY = 100 / USD_JPY and JPY_KRW = USD_KRW / USD_JPY. */
  predicate IsCurrentRates(quotes: seq<Quote>, close: Frame, m: map<string, Num>)
    requires |quotes| == |AllPairs|
    requires !RatesFail(quotes, close)
  {
    assert UsdJpy == AllPairs[1] && UsdKrw == AllPairs[6];
    && m.Keys == PairSet() + {Jxy, JpyKrw}
    && (forall i :: 0 <= i < |AllPairs| ==> m[AllPairs[i]] == LiveOrLastClose(quotes[i], close, AllPairs[i]).value)
    && m[Jxy] == Div(Hundred, m[UsdJpy])
    && m[JpyKrw] == Div(m[UsdKrw], m[UsdJpy])
  }

  /** The loop of `_fetch_current_rates`: each pair's live price or last close, in order; Raised on the first failure. */
  method CollectRates(quotes: seq<Quote>, close: Frame) returns (r: Result<map<string, Num>>)
    requires |quotes| == |AllPairs|
    ensures r.Raised? <==> exists i :: 0 <= i < |AllPairs| && LiveOrLastClose(quotes[i], close, AllPairs[i]).Raised?
    ensures r.Ok? ==> r.value.Keys == PairSet()
    ensures r.Ok? ==> forall i :: 0 <= i < |AllPairs| ==>
      r.value[AllPairs[i]] == LiveOrLastClose(quotes[i], close, AllPairs[i]).value
  {
    AllPairsDistinct();
    var rates: map<string, Num> := map[];
    var i := 0;
    while i < |AllPairs|
      invariant 0 <= i <= |AllPairs|
      invariant rates.Keys == set j | 0 <= j < i :: AllPairs[j]
      invariant forall j :: 0 <= j < i ==> LiveOrLastClose(quotes[j], close, AllPairs[j]).Ok?
      invariant forall j :: 0 <= j < i ==> rates[AllPairs[j]] == LiveOrLastClose(quotes[j], close, AllPairs[j]).value
    {
      var rate := LiveOrLastClose(quotes[i], close, AllPairs[i]);
      if rate.Raised? {
        return Raised;
      }
      rates := rates[AllPairs[i] := rate.value];
      i := i + 1;
    }
    return Ok(rates);
  }

  /** The collected rates with JXY and JPY_KRW added are the current-rates dictionary. */
  lemma CrossRatesComplete(quotes: seq<Quote>, close: Frame, rates: map<string, Num>)
    requires |quotes| == |AllPairs| && !RatesFail(quotes, close)
    requires rates.Keys == PairSet()
    requires forall i :: 0 <= i < |AllPairs| ==> rates[AllPairs[i]] == LiveOrLastClose(quotes[i], close, AllPairs[i]).value
    ensures UsdJpy in rates && UsdKrw in rates
    ensures IsCurrentRates(quotes, close,
      rates[Jxy := Div(Hundred, rates[UsdJpy])][JpyKrw := Div(rates[UsdKrw], rates[UsdJpy])])
  {
    assert UsdJpy == AllPairs[1] && UsdKrw == AllPairs[6];
    CrossKeysUnquoted();
    var m1 := rates[Jxy := Div(Hundred, rates[UsdJpy])];
    assert m1[UsdJpy] == rates[UsdJpy] && m1[UsdKrw] == rates[UsdKrw];
  }

  /**
   * `_fetch_current_rates` with the fallbacks of its `.get` calls taken only
   * when the key is missing; the current rates never depend on the close
   * table when every quote has a live price.
   */
  method FetchCurrentRates(quotes: seq<Quote>, close: Frame) returns (r: Result<map<string, Num>>)
    requires |quotes| == |AllPairs|
    ensures r.Raised? <==> RatesFail(quotes, close)
    ensures r.Ok? ==> IsCurrentRates(quotes, close, r.value)
  {
    var collected := CollectRates(quotes, close);
    if collected.Raised? {
      return Raised;
    }
    var rates := collected.value;
    if quotes[1] == Price(Zero) {
      return Raised;
    }
    CrossRatesComplete(quotes, close, rates);
    var jpy := rates[UsdJpy];
    rates := rates[Jxy := Div(Hundred, jpy)];
    rates := rates[JpyKrw := Div(rates[UsdKrw], jpy)];
    return Ok(rates);
  }

  /** The failures of `_fetch_current_rates` as written, where the `.get` defaults are evaluated eagerly. */
  predicate RatesFailAsWritten(quotes: seq<Quote>, close: Frame)
    requires |quotes| == |AllPairs|
  {
    RatesFail(quotes, close) || LastValue(close, UsdJpy).None? || LastValue(close, UsdKrw).None?
  }

  /**
   * `_fetch_current_rates` as written: the default arguments
   * `df_close['USD_JPY'].iloc[-1]` and `df_close['USD_KRW'].iloc[-1]` of the
   * two `.get` calls are evaluated even though both keys are always present.
   */
  method FetchCurrentRatesAsWritten(quotes: seq<Quote>, close: Frame) returns (r: Result<map<string, Num>>)
    requires |quotes| == |AllPairs|
    ensures r.Raised? <==> RatesFailAsWritten(quotes, close)
    ensures r.Ok? ==> IsCurrentRates(quotes, close, r.value)
  {
    var collected := CollectRates(quotes, close);
    if collected.Raised? {
      return Raised;
    }
    var rates := collected.value;
    var jpyDefault := LastValue(close, UsdJpy);
    if jpyDefault.None? {
      return Raised;
    }
    if quotes[1] == Price(Zero) {
      return Raised;
    }
    CrossRatesComplete(quotes, close, rates);
    var jpy := rates[UsdJpy];
    rates := rates[Jxy := Div(Hundred, jpy)];
    var krwDefault := LastValue(close, UsdKrw);
    if krwDefault.None? {
      return Raised;
    }
    rates := rates[JpyKrw := Div(rates[UsdKrw], jpy)];
    return Ok(rates);
  }

  /** Seven live, nonzero quotes. */
  function LiveQuotes(): seq<Quote>
  {
    [Price(Fin(1.1)), Price(Fin(150.0)), Price(Fin(1.3)), Price(Fin(1.4)), Price(Fin(10.5)), Price(Fin(0.9)), Price(Fin(1350.0))]
  }

  /**
   * With every quote live, the rates need no table: yet an empty close table
   * (all rows dropped because one column was NaN throughout) makes the code as
   * written raise an IndexError.
   */
  lemma EagerDefaultRaises()
    ensures |LiveQuotes()| == |AllPairs|
    ensures RatesFailAsWritten(LiveQuotes(), EmptyFrame)
    ensures !RatesFail(LiveQuotes(), EmptyFrame)
  {
    var q := LiveQuotes();
    forall i | 0 <= i < |AllPairs| ensures LiveOrLastClose(q[i], EmptyFrame, AllPairs[i]).Ok? {
      assert q[i].Price?;
    }
  }

  /** Live, nonzero quotes always give the current rates, whatever the close table holds. */
  lemma {:induction false} LiveQuotesSuffice(quotes: seq<Quote>, close: Frame)
    requires |quotes| == |AllPairs|
    requires forall i :: 0 <= i < |quotes| ==> quotes[i].Price?
    requires quotes[1].p != Zero
    ensures !RatesFail(quotes, close)
  {
  }

  /** The two versions differ only when the close table has no last USD/JPY or USD/KRW value. */
  lemma AsWrittenAgreesWithLastValues(quotes: seq<Quote>, close: Frame)
    requires |quotes| == |AllPairs|
    requires UsdJpy in close.columns && UsdKrw in close.columns && |close.rows| > 0
    ensures RatesFailAsWritten(quotes, close) == RatesFail(quotes, close)
  {
  }

  /** `df_all[pt]` after `yf.download` (price-type first level), renamed; Raised when pandas raises. */
  function SelectPrice(d: Download, pt: string): (r: Result<Frame>)
    ensures d.OneLevel? ==> r.Raised?
    ensures d.TwoLevel? ==> r == ByPrice(d, pt)
  {
    match d
    case TwoLevel(_, _, _) => ByPrice(d, pt)
    // a one-level download gives a Series, whose `rename(columns=...)` raises TypeError
    case OneLevel(_, _, _) => Raised
  }

  /** Every rate as a present value. */
  function Lifted(m: map<string, Num>): (l: map<string, Option<Num>>)
    ensures l.Keys == m.Keys && forall k :: k in l ==> l[k] == Some(m[k])
    ensures (map k | k in l :: l[k].value) == m
  {
    var l := map k | k in m :: Some(m[k]);
    assert (map k | k in l :: l[k].value) == m;
    l
  }

  /**
   * The tables of the plain fetch: the Close, High and Low tables of the
   * period's download without the rows holding a NaN; Raised where taking
   * one of them raises.
   */
  function PlainTables(months: int, download: string -> Download): (r: Result<(Frame, Frame, Frame)>)
    ensures
      var d := download(PeriodString(months));
      var c, h, l := SelectPrice(d, "Close"), SelectPrice(d, "High"), SelectPrice(d, "Low");
      && (r.Raised? <==> c.Raised? || h.Raised? || l.Raised?)
      && (r.Ok? ==> r.value == (DropAnyNa(c.value), DropAnyNa(h.value), DropAnyNa(l.value)))
  {
    var d := download(PeriodString(months));
    match (SelectPrice(d, "Close"), SelectPrice(d, "High"), SelectPrice(d, "Low"))
    case (Ok(c), Ok(h), Ok(l)) => Ok((DropAnyNa(c), DropAnyNa(h), DropAnyNa(l)))
    case _ => Raised
  }

  /** The plain fetch raises: taking a table raises, or reading the current rates from the close table does. */
  predicate PlainFetchRaises(months: int, download: string -> Download, quotes: seq<Quote>)
    requires |quotes| == |AllPairs|
  {
    var t := PlainTables(months, download);
    t.Raised? || RatesFailAsWritten(quotes, t.value.0)
  }

  /** The plain fetch's result: its tables, and the current rates read from the close table, every one present. */
  predicate IsPlainFetchResult(months: int, download: string -> Download, quotes: seq<Quote>, r: PeriodData)
    requires |quotes| == |AllPairs| && !PlainFetchRaises(months, download, quotes)
  {
    var t := PlainTables(months, download).value;
    && (r.close, r.high, r.low) == t
    && r.rates.Keys == PairSet() + {Jxy, JpyKrw}
    && (forall k :: k in r.rates ==> r.rates[k].Some?)
    && IsCurrentRates(quotes, r.close, map k | k in r.rates :: r.rates[k].value)
  }

  /**
   * `fetch_period_data_and_current_rates`: download the period (an unknown
   * month count means one year), take the Close, High and Low tables, drop
   * every row with a NaN, then read the current rates from the close table
   * as `_fetch_current_rates` is written.
   */
  method FetchPeriodDataAndCurrentRates(months: int, download: string -> Download, quotes: seq<Quote>)
    returns (r: Result<PeriodData>)
    requires |quotes| == |AllPairs|
    ensures r.Raised? <==> PlainFetchRaises(months, download, quotes)
    ensures r.Ok? ==> IsPlainFetchResult(months, download, quotes, r.value)
  {
    var tables := PlainTables(months, download);
    if tables.Raised? {
      return Raised;
    }
    var (close, high, low) := tables.value;
    var rates := FetchCurrentRatesAsWritten(quotes, close);
    if rates.Raised? {
      return Raised;
    }
    var m := rates.value;
    var lifted := Lifted(m);
    r := Ok(PeriodData(close, high, low, lifted));
  }
}
