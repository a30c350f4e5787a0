// The TypeScript index calculations of the server library: the dollar index
// series and current value over column arrays, the O/X/- indicator signals,
// and the yen index. Column arrays are a map from pair name to the array of
// closes (`Record<string, number[]>`); reading past an array's end or a
// missing key gives `undefined`, which every guard here treats as invalid.
// The same series and current-index code appears a second time in the
// period assembly module; it is modelled once, here.

module JsCalculations {
  import opened Numbers
  import opened MarketData
  import opened IndexCalculator

  /** The rates of row `i`: each array's element `i`, for the arrays long enough to have one. */
  function RatesAt(close: map<string, seq<Num>>, i: int): (m: map<string, Num>)
    ensures forall k :: k in m <==> k in close && 0 <= i < |close[k]|
    ensures forall k :: k in m ==> m[k] == close[k][i]
  {
    map k | k in close && 0 <= i < |close[k]| :: close[k][i]
  }

  /** `values && values[i] && values[i] > 0`. */
  predicate ValidAt(close: map<string, seq<Num>>, key: string, i: int)
  {
    key in close && 0 <= i < |close[key]| && Positive(close[key][i])
  }

  predicate AllValidAt(close: map<string, seq<Num>>, i: int)
  {
    forall j :: 0 <= j < |DxyPairs| ==> ValidAt(close, DxyPairs[j], i)
  }

  /** `(dfClose['EUR_USD'] || []).length`. */
  function EurUsdLength(close: map<string, seq<Num>>): nat
  {
    if "EUR_USD" in close then |close["EUR_USD"]| else 0
  }

  /**
   * The inner loop of `calculateDollarIndexSeries` at row `i`: whether every
   * component is valid there, and if so the weighted product of the row.
   */
  method RowProduct(close: map<string, seq<Num>>, i: int, pow: Pow) returns (product: Num, hasAllValues: bool)
    ensures hasAllValues <==> AllValidAt(close, i)
    ensures hasAllValues ==> product == WeightedProduct(DxyWeights, RatesAt(close, i), pow)
  {
    WeightKeys();
    product := Fin(1.0);
    hasAllValues := true;
    var j := 0;
    while j < |DxyWeights|
      invariant 0 <= j <= |DxyWeights|
      invariant hasAllValues <==> forall t :: 0 <= t < j ==> ValidAt(close, DxyPairs[t], i)
      invariant hasAllValues ==> product == WeightedProduct(DxyWeights[..j], RatesAt(close, i), pow)
    {
      var (key, weight) := DxyWeights[j];
      if key in close && 0 <= i < |close[key]| && Positive(close[key][i]) {
        product := Mul(product, pow(close[key][i], weight));
      } else {
        hasAllValues := false;
      }
      assert DxyWeights[..j + 1][..j] == DxyWeights[..j];
      j := j + 1;
    }
    assert DxyWeights[..j] == DxyWeights;
  }

  /**
   * `calculateDollarIndexSeries`: one value per EUR_USD close; 0 where some
   * component is missing or not positive at that position, otherwise the
   * weighted product of that row's rates.
   */
  method CalculateDollarIndexSeries(close: map<string, seq<Num>>, pow: Pow) returns (series: seq<Num>)
    ensures |series| == EurUsdLength(close)
    ensures forall i :: 0 <= i < |series| && AllValidAt(close, i) ==> series[i] == DxyOf(RatesAt(close, i), pow)
    ensures forall i :: 0 <= i < |series| && !AllValidAt(close, i) ==> series[i] == Zero
  {
    var length := EurUsdLength(close);
    if length == 0 {
      return [];
    }
    series := [];
    var i := 0;
    while i < length
      invariant 0 <= i <= length && |series| == i
      invariant forall k :: 0 <= k < i && AllValidAt(close, k) ==> series[k] == DxyOf(RatesAt(close, k), pow)
      invariant forall k :: 0 <= k < i && !AllValidAt(close, k) ==> series[k] == Zero
    {
      var product, hasAllValues := RowProduct(close, i, pow);
      if hasAllValues {
        series := series + [Mul(Fin(DxyConstant), product)];
      } else {
        series := series + [Zero];
      }
      i := i + 1;
    }
  }

  /**
   * `calculateCurrentDxy`: 0 as soon as a component is missing or not
   * positive, otherwise the weighted product of the rates.
   */
  method CalculateCurrentDxy(rates: map<string, Num>, pow: Pow) returns (dxy: Num)
    ensures (exists p :: p in DxyPairs && !PositiveIn(rates, p)) ==> dxy == Zero
    ensures (forall p :: p in DxyPairs ==> PositiveIn(rates, p)) ==> dxy == DxyOf(rates, pow)
  {
    WeightKeys();
    var product := Fin(1.0);
    var i := 0;
    while i < |DxyWeights|
      invariant 0 <= i <= |DxyWeights|
      invariant forall j :: 0 <= j < i ==> PositiveIn(rates, DxyPairs[j])
      invariant product == WeightedProduct(DxyWeights[..i], rates, pow)
    {
      var (key, weight) := DxyWeights[i];
      if !(key in rates && Positive(rates[key])) {
        assert key == DxyPairs[i] && DxyPairs[i] in DxyPairs;
        return Zero;
      }
      product := Mul(product, pow(rates[key], weight));
      assert DxyWeights[..i + 1][..i] == DxyWeights[..i];
      i := i + 1;
    }
    assert DxyWeights[..i] == DxyWeights;
    dxy := Mul(Fin(DxyConstant), product);
  }

  /** A buy ('O'), hold-off ('X') or undecided ('-') signal. */
  datatype Signal = O | X | Dash

  /** `a < b ? 'O' : (a > b ? 'X' : '-')`. */
  function LevelSignal(a: Num, b: Num): (s: Signal)
    ensures s == O <==> Lt(a, b)
    ensures s == X <==> Gt(a, b)
    ensures s == Dash <==> NumEq(a, b) || a.NaN? || b.NaN?
  {
    if Lt(a, b) then O else if Gt(a, b) then X else Dash
  }

  /** `a > b ? 'O' : (a < b ? 'X' : '-')`: the gap-ratio comparison, the other way round. */
  function RatioSignal(a: Num, b: Num): (s: Signal)
    ensures s == O <==> Gt(a, b)
    ensures s == X <==> Lt(a, b)
  {
    if Gt(a, b) then O else if Lt(a, b) then X else Dash
  }

  /** A ratio signal is a level signal with its operands exchanged. */
  lemma RatioSignalIsSwappedLevel(a: Num, b: Num)
    ensures RatioSignal(a, b) == LevelSignal(b, a)
  {
  }

  /** Exchanging the operands of a level signal exchanges 'O' and 'X' and keeps '-'. */
  lemma {:induction false} LevelSignalAntisymmetric(a: Num, b: Num)
    ensures LevelSignal(a, b) == O <==> LevelSignal(b, a) == X
    ensures LevelSignal(a, b) == Dash <==> LevelSignal(b, a) == Dash
  {
    assert Lt(a, b) <==> Gt(b, a);
  }

  datatype Signals = Signals(
    dxy: Signal, usdKrw: Signal, gapRatio: Signal, fairRate: Signal,
    jxy: Signal, jpyKrw: Signal, jpyGapRatio: Signal, jpyFairRate: Signal)

  /** The dollar gap ratio, `(dxy / usdKrw) * 100`. */
  function GapRatio(dxy: Num, usdKrw: Num): Num
  {
    Mul(Div(dxy, usdKrw), Hundred)
  }

  /** The yen gap ratio per 100 yen, `(jxy * 100) / (jpyKrw * 100)`. */
  function JpyGapRatio(jxy: Num, jpyKrw: Num): Num
  {
    Div(Mul(jxy, Hundred), Mul(jpyKrw, Hundred))
  }

  /**
   * `calculateIndicatorSignals`: level signals 'O' below the 52-week middle
   * and 'X' above it; gap-ratio signals 'O' above the middle ratio; the fair
   * rates are the current index divided by the middle ratio.
   */
  function CalculateIndicatorSignals(
    currentDxy: Num, dxyMid: Num, currentUsdKrw: Num, usdKrwMid: Num,
    currentJxy: Num, jxyMid: Num, currentJpyKrw: Num, jpyKrwMid: Num): (s: Signals)
    ensures s.dxy == LevelSignal(currentDxy, dxyMid) && s.usdKrw == LevelSignal(currentUsdKrw, usdKrwMid)
    ensures s.jxy == LevelSignal(currentJxy, jxyMid) && s.jpyKrw == LevelSignal(currentJpyKrw, jpyKrwMid)
    ensures s.gapRatio == LevelSignal(GapRatio(dxyMid, usdKrwMid), GapRatio(currentDxy, currentUsdKrw))
    ensures s.jpyGapRatio == LevelSignal(JpyGapRatio(jxyMid, jpyKrwMid), JpyGapRatio(currentJxy, currentJpyKrw))
    ensures s.fairRate == LevelSignal(currentUsdKrw, Mul(Div(currentDxy, GapRatio(dxyMid, usdKrwMid)), Hundred))
    ensures s.jpyFairRate ==
      LevelSignal(Mul(currentJpyKrw, Hundred), Mul(Div(currentJxy, Div(jxyMid, jpyKrwMid)), Hundred))
  {
    var midGapRatio := GapRatio(dxyMid, usdKrwMid);
    var fairExchangeRate := Mul(Div(currentDxy, midGapRatio), Hundred);
    var jpyFairExchangeRate := Mul(Div(currentJxy, Div(jxyMid, jpyKrwMid)), Hundred);
    RatioSignalIsSwappedLevel(GapRatio(currentDxy, currentUsdKrw), midGapRatio);
    RatioSignalIsSwappedLevel(JpyGapRatio(currentJxy, currentJpyKrw), JpyGapRatio(jxyMid, jpyKrwMid));
    Signals(
      LevelSignal(currentDxy, dxyMid),
      LevelSignal(currentUsdKrw, usdKrwMid),
      RatioSignal(GapRatio(currentDxy, currentUsdKrw), midGapRatio),
      LevelSignal(currentUsdKrw, fairExchangeRate),
      LevelSignal(currentJxy, jxyMid),
      LevelSignal(currentJpyKrw, jpyKrwMid),
      RatioSignal(JpyGapRatio(currentJxy, currentJpyKrw), JpyGapRatio(jxyMid, jpyKrwMid)),
      LevelSignal(Mul(currentJpyKrw, Hundred), jpyFairExchangeRate))
  }

  /** `calculateCurrentJxy`: 0 for a falsy or non-positive rate, else 100 / rate. */
  function CalculateCurrentJxy(usdJpy: Num): (r: Num)
    ensures !Positive(usdJpy) ==> r == Zero
    ensures Positive(usdJpy) && usdJpy.Fin? ==> r.Fin? && r.v * usdJpy.v == 100.0
    ensures Positive(usdJpy) && usdJpy.PosInf? ==> r == Zero
  {
    if !JsTruthy(usdJpy) || !Gt(usdJpy, Zero) then Zero else Div(Hundred, usdJpy)
  }

  /** `(dfClose['USD_JPY'] || []).map(rate => rate > 0 ? 100 / rate : 0)`. */
  function CalculateJpyIndexSeries(close: map<string, seq<Num>>): (r: seq<Num>)
    ensures |r| == (if UsdJpy in close then |close[UsdJpy]| else 0)
  {
    var usdJpy := if UsdJpy in close then close[UsdJpy] else [];
    seq(|usdJpy|, i requires 0 <= i < |usdJpy| => if Gt(usdJpy[i], Zero) then Div(Hundred, usdJpy[i]) else Zero)
  }

  /** The yen index series is the current yen index taken at every close. */
  lemma JpyIndexSeriesIsPointwise(close: map<string, seq<Num>>, i: int)
    requires UsdJpy in close && 0 <= i < |close[UsdJpy]|
    ensures CalculateJpyIndexSeries(close)[i] == CalculateCurrentJxy(close[UsdJpy][i])
  {
    var rate := close[UsdJpy][i];
    assert CalculateJpyIndexSeries(close)[i] == if Gt(rate, Zero) then Div(Hundred, rate) else Zero;
    assert Gt(rate, Zero) ==> JsTruthy(rate);
  }

  /** Every yen index value is 0 or positive, whichever finite closes it comes from. */
  lemma {:induction false} JpyIndexSeriesNonNegative(close: map<string, seq<Num>>, i: int)
    requires UsdJpy in close && 0 <= i < |close[UsdJpy]| && close[UsdJpy][i].Fin?
    ensures var v := CalculateJpyIndexSeries(close)[i]; v == Zero || (v.Fin? && Positive(v))
  {
    var rate := close[UsdJpy][i];
    if Positive(rate) {
      DivPositive(Hundred, rate);
    }
  }

  /**
   * `calculateIndicatorSignal`: '-' exactly when the values are equal;
   * otherwise 'O' above the middle, or below it when `reverseLogic` is set.
   */
  function CalculateIndicatorSignal(current: Num, mid: Num, reverseLogic: bool): (s: Signal)
    ensures s == Dash <==> NumEq(current, mid)
    ensures s == O <==> !NumEq(current, mid) && (if reverseLogic then Lt(current, mid) else Gt(current, mid))
  {
    if NumEq(current, mid) then Dash
    else if reverseLogic then (if Lt(current, mid) then O else X)
    else (if Gt(current, mid) then O else X)
  }

  /**
   * Flipping `reverseLogic` exchanges 'O' and 'X' for comparable values; with
   * a NaN operand both settings give 'X'.
   */
  lemma ReverseLogicFlips(current: Num, mid: Num)
    ensures !current.NaN? && !mid.NaN? && !NumEq(current, mid) ==>
      (CalculateIndicatorSignal(current, mid, true) == O <==> CalculateIndicatorSignal(current, mid, false) == X)
    ensures current.NaN? || mid.NaN? ==>
      CalculateIndicatorSignal(current, mid, true) == X && CalculateIndicatorSignal(current, mid, false) == X
  {
  }
}
