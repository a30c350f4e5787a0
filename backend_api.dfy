// The JSON shaping of the FastAPI backend: the `or 0` defaults of the
// current-rates endpoint, and the period endpoint's conversion of price
// tables and current rates into JSON-safe lists and maps.

module BackendApi {
  import opened Numbers
  import opened Frames
  import opened MarketData

  /** The largest magnitude the backend passes on as a number. */
  const JsonMax: real := 1.0e308

  /** A value JSON can carry: null, or a finite number no larger than `JsonMax` in magnitude. */
  predicate JsonSafe(x: Option<Num>)
  {
    x.None? || (x.value.Fin? && -JsonMax <= x.value.v <= JsonMax)
  }

  /**
   * `clean_float_value` on a number or None: the number itself when it is
   * finite and within `JsonMax`, otherwise None.
   */
  function CleanFloat(x: Option<Num>): (r: Option<Num>)
    ensures JsonSafe(r)
    ensures r.Some? <==> x.Some? && JsonSafe(x)
    ensures r.Some? ==> r == x
  {
    if x.Some? && x.value.Fin? && -JsonMax <= x.value.v <= JsonMax then x else None
  }

  /** Cleaning a cleaned value changes nothing. */
  lemma CleanFloatIdempotent(x: Option<Num>)
    ensures CleanFloat(CleanFloat(x)) == CleanFloat(x)
  {
  }

  /** `clean_list`: every value of a list cleaned, position by position. */
  method CleanList(vs: seq<Num>) returns (r: seq<Option<Num>>)
    ensures |r| == |vs|
    ensures forall i :: 0 <= i < |vs| ==> r[i] == CleanFloat(Some(vs[i]))
    ensures forall i :: 0 <= i < |r| ==> JsonSafe(r[i])
  {
    r := [];
    for i := 0 to |vs|
      invariant |r| == i
      invariant forall j :: 0 <= j < i ==> r[j] == CleanFloat(Some(vs[j]))
    {
      r := r + [CleanFloat(Some(vs[i]))];
    }
  }

  /** A cleaned list keeps every finite value in range and nulls exactly the others. */
  predicate CleanedColumn(f: Frame, c: string, vs: seq<Option<Num>>)
  {
    && |vs| == |f.rows|
    && forall i :: 0 <= i < |f.rows| ==> vs[i] == CleanFloat(Some(Cell(f.rows[i], c)))
  }

  /** The three column dictionaries of the period endpoint. */
  datatype Tables = Tables(close: map<string, seq<Option<Num>>>, high: map<string, seq<Option<Num>>>,
                           low: map<string, seq<Option<Num>>>)

  /**
   * The entry of column `c` in each dictionary: the cleaned columns when
   * `c` is present in the high and the low table, and three empty lists
   * when one of them lacks it (the KeyError branch).
   */
  predicate ColumnEntry(t: Tables, close: Frame, high: Frame, low: Frame, c: string)
  {
    && c in t.close && c in t.high && c in t.low
    && (c in high.columns && c in low.columns ==>
          CleanedColumn(close, c, t.close[c]) && CleanedColumn(high, c, t.high[c])
          && CleanedColumn(low, c, t.low[c]))
    && (!(c in high.columns && c in low.columns) ==> t.close[c] == [] && t.high[c] == [] && t.low[c] == [])
  }

  /**
   * The column dictionaries of the period endpoint: empty for an empty close
   * table, otherwise one entry per close column in all three.
   */
  method CleanTables(close: Frame, high: Frame, low: Frame) returns (t: Tables)
    ensures IsEmpty(close) ==> t == Tables(map[], map[], map[])
    ensures !IsEmpty(close) ==>
      && (forall c :: c in t.close <==> c in close.columns)
      && t.high.Keys == t.close.Keys && t.low.Keys == t.close.Keys
      && forall c :: c in close.columns ==> ColumnEntry(t, close, high, low, c)
  {
    t := Tables(map[], map[], map[]);
    if IsEmpty(close) {
      return;
    }
    for i := 0 to |close.columns|
      invariant forall c :: c in t.close <==> c in close.columns[..i]
      invariant t.high.Keys == t.close.Keys && t.low.Keys == t.close.Keys
      invariant forall c :: c in close.columns[..i] ==> ColumnEntry(t, close, high, low, c)
    {
      var c := close.columns[i];
      assert close.columns[..i + 1] == close.columns[..i] + [c];
      if c in high.columns && c in low.columns {
        var vc := CleanList(Column(close, c));
        var vh := CleanList(Column(high, c));
        var vl := CleanList(Column(low, c));
        t := Tables(t.close[c := vc], t.high[c := vh], t.low[c := vl]);
      } else {
        t := Tables(t.close[c := []], t.high[c := []], t.low[c := []]);
      }
    }
    assert close.columns[..|close.columns|] == close.columns;
  }

  /** Every list the period endpoint returns holds only JSON-safe values. */
  lemma {:induction false} TablesJsonSafe(t: Tables, close: Frame, high: Frame, low: Frame, c: string)
    requires ColumnEntry(t, close, high, low, c)
    ensures forall i :: 0 <= i < |t.close[c]| ==> JsonSafe(t.close[c][i])
    ensures forall i :: 0 <= i < |t.high[c]| ==> JsonSafe(t.high[c][i])
    ensures forall i :: 0 <= i < |t.low[c]| ==> JsonSafe(t.low[c][i])
  {
    if c in high.columns && c in low.columns {
      assert CleanedColumn(close, c, t.close[c]);
      assert CleanedColumn(high, c, t.high[c]);
      assert CleanedColumn(low, c, t.low[c]);
    }
  }

  /** The two derived yen keys whose missing or zero values are reported as null. */
  predicate IsYenKey(key: string)
  {
    key == Jxy || key == JpyKrw
  }

  /**
   * One cleaned current rate: a yen key that is missing or 0 becomes null;
   * any other value is cleaned, with a cleaned 0 under a yen key nulled and
   * a nulled value under any key reported as 0.0.
   */
  function CleanRate(key: string, x: Option<Num>): (r: Option<Num>)
    ensures IsYenKey(key) && (x.None? || x.value == Zero) ==> r.None?
    ensures !IsYenKey(key) ==> r == if CleanFloat(x).Some? then CleanFloat(x) else Some(Zero)
    ensures IsYenKey(key) && x.Some? && x.value != Zero ==>
      r == if CleanFloat(x).Some? then x else Some(Zero)
  {
    if IsYenKey(key) && (x.None? || x.value == Zero) then None
    else
      var cleaned := CleanFloat(x);
      if IsYenKey(key) && cleaned == Some(Zero) then None
      else if cleaned.Some? then cleaned else Some(Zero)
  }

  /**
   * What a cleaned rate means: it is JSON-safe, it is null only under a yen
   * key, and it is 0.0 exactly when the value was 0.0 under another key or
   * was not JSON-safe (NaN, an infinity, a huge number, or, under another
   * key, None).
   */
  lemma CleanRateMeaning(key: string, x: Option<Num>)
    ensures JsonSafe(CleanRate(key, x))
    ensures CleanRate(key, x).None? ==> IsYenKey(key)
    ensures IsYenKey(key) ==>
      (CleanRate(key, x).None? <==> x.None? || x.value == Zero)
    ensures CleanRate(key, x) == Some(Zero) <==>
      (!IsYenKey(key) && x == Some(Zero)) || (x.Some? && !JsonSafe(x)) || (!IsYenKey(key) && x.None?)
    ensures JsonSafe(x) && x.Some? && x.value != Zero ==> CleanRate(key, x) == x
  {
  }

  /** A NaN yen rate is reported as 0.0 rather than null: the zero check sees NaN and the cleaned None apart. */
  lemma YenNaNReportedAsZero()
    ensures CleanRate(Jxy, Some(NaN)) == Some(Zero) && CleanRate(JpyKrw, Some(PosInf)) == Some(Zero)
    ensures CleanRate(Jxy, None).None? && CleanRate(UsdKrw, None) == Some(Zero)
  {
  }

  /** The cleaned current-rates map: the same keys, each value cleaned by `CleanRate`. */
  method CleanCurrentRates(rates: map<string, Option<Num>>) returns (r: map<string, Option<Num>>)
    ensures r.Keys == rates.Keys
    ensures forall k :: k in rates ==> r[k] == CleanRate(k, rates[k])
    ensures forall k :: k in r ==> JsonSafe(r[k]) && (r[k].None? ==> IsYenKey(k))
  {
    r := map[];
    var todo := rates.Keys;
    while todo != {}
      invariant todo <= rates.Keys
      invariant r.Keys == rates.Keys - todo
      invariant forall k :: k in r ==> r[k] == CleanRate(k, rates[k])
      decreases todo
    {
      var k :| k in todo;
      r := r[k := CleanRate(k, rates[k])];
      todo := todo - {k};
    }
    forall k | k in r
      ensures JsonSafe(r[k]) && (r[k].None? ==> IsYenKey(k))
    {
      CleanRateMeaning(k, rates[k]);
    }
  }

  /** The period endpoint's response. */
  datatype PeriodResponse = PeriodResponse(tables: Tables, currentRates: map<string, Option<Num>>, dates: seq<int>)

  /**
   * The period endpoint on the tables and rates `fetch_period_data_with_cache`
   * returned: the dates of the close table (none when it is empty), its
   * column dictionaries and the cleaned current rates.
   */
  method GetPeriodData(data: PeriodData) returns (resp: PeriodResponse)
    ensures IsEmpty(data.close) ==> resp.dates == [] && resp.tables == Tables(map[], map[], map[])
    ensures !IsEmpty(data.close) ==>
      && resp.dates == Dates(data.close)
      && (forall c :: c in resp.tables.close <==> c in data.close.columns)
      && forall c :: c in data.close.columns ==> ColumnEntry(resp.tables, data.close, data.high, data.low, c)
    ensures resp.currentRates.Keys == data.rates.Keys
    ensures forall k :: k in data.rates ==> resp.currentRates[k] == CleanRate(k, data.rates[k])
  {
    var dates := if IsEmpty(data.close) then [] else Dates(data.close);
    var tables := CleanTables(data.close, data.high, data.low);
    var rates := CleanCurrentRates(data.rates);
    resp := PeriodResponse(tables, rates, dates);
  }

  /** `x or 0` on a fetched rate: None and 0.0 give 0; anything else, NaN included, is kept. */
  function OrZeroPy(x: Option<Num>): (r: Num)
    ensures x.Some? && PyTruthy(x.value) ==> r == x.value
    ensures x.None? || x == Some(Zero) ==> r == Zero
  {
    if x.Some? && PyTruthy(x.value) then x.value else Zero
  }

  /** Python's `or 0` and JavaScript's `|| 0` differ only on a NaN rate. */
  lemma OrZeroAgreesWithJs(x: Option<Num>)
    ensures OrZeroPy(x) == OrJs(x, Zero) <==> x != Some(NaN)
  {
  }

  /** The `/current` response. */
  datatype CurrentResponse = CurrentResponse(investingUsd: Num, hanaRate: Num, usdtKrw: Num, investingJpy: Num)

  /**
   * The current-rates endpoint on the four fetched values: each field is its
   * value, or 0 where the fetch failed or gave 0.0.
   */
  function GetCurrentRates(investingUsd: Option<Num>, hanaRate: Option<Num>, usdtKrw: Option<Num>,
                           investingJpy: Option<Num>): (r: CurrentResponse)
    ensures r.investingUsd == Zero <==> investingUsd.None? || investingUsd == Some(Zero)
    ensures r.hanaRate == Zero <==> hanaRate.None? || hanaRate == Some(Zero)
    ensures r.usdtKrw == Zero <==> usdtKrw.None? || usdtKrw == Some(Zero)
    ensures r.investingJpy == Zero <==> investingJpy.None? || investingJpy == Some(Zero)
    ensures investingUsd.Some? && investingUsd.value != Zero ==> r.investingUsd == investingUsd.value
    ensures hanaRate.Some? && hanaRate.value != Zero ==> r.hanaRate == hanaRate.value
    ensures usdtKrw.Some? && usdtKrw.value != Zero ==> r.usdtKrw == usdtKrw.value
    ensures investingJpy.Some? && investingJpy.value != Zero ==> r.investingJpy == investingJpy.value
  {
    CurrentResponse(OrZeroPy(investingUsd), OrZeroPy(hanaRate), OrZeroPy(usdtKrw), OrZeroPy(investingJpy))
  }
}
