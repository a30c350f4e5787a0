// The browser-side index calculations: a series that skips incomplete rows
// instead of writing 0, a current index that substitutes 1 for a missing
// rate, and signals that are two-valued or guarded by positivity checks.

module FrontendCalculations {
  import opened Numbers
  import opened Seqs
  import opened MarketData
  import opened IndexCalculator
  import opened JsCalculations

  /** `dfClose.key?.[i]` is truthy: present, in range, neither 0 nor NaN. */
  predicate TruthyAt(close: map<string, seq<Num>>, key: string, i: int)
  {
    key in close && 0 <= i < |close[key]| && JsTruthy(close[key][i])
  }

  predicate AllTruthyAt(close: map<string, seq<Num>>, i: int)
  {
    forall j :: 0 <= j < |DxyPairs| ==> TruthyAt(close, DxyPairs[j], i)
  }

  /** The positions below `n` whose six component values are all truthy, ascending. */
  function KeptRows(close: map<string, seq<Num>>, n: nat): (ks: seq<int>)
    ensures |ks| <= n
    ensures StrictlyIncreasing(ks)
    ensures forall k :: 0 <= k < |ks| ==> 0 <= ks[k] < n && AllTruthyAt(close, ks[k])
    ensures forall i :: 0 <= i < n && AllTruthyAt(close, i) ==> i in ks
  {
    if n == 0 then []
    else KeptRows(close, n - 1) + (if AllTruthyAt(close, n - 1) then [n - 1] else [])
  }

  /** When every position is complete, every position is kept. */
  lemma {:induction false} KeptRowsAll(close: map<string, seq<Num>>, n: nat)
    requires forall i :: 0 <= i < n ==> AllTruthyAt(close, i)
    ensures |KeptRows(close, n)| == n
  {
    if n > 0 {
      KeptRowsAll(close, n - 1);
    }
  }

  /**
   * The browser `calculateDollarIndexSeries`: the weighted product of each
   * complete row, in row order, skipping rows with a missing or zero value.
   */
  method CalculateDollarIndexSeries(close: map<string, seq<Num>>, pow: Pow) returns (series: seq<Num>)
    ensures var kept := KeptRows(close, EurUsdLength(close));
      && |series| == |kept|
      && forall k :: 0 <= k < |kept| ==> series[k] == DxyOf(RatesAt(close, kept[k]), pow)
    ensures |close| == 0 ==> series == []
  {
    if |close| == 0 {
      assert "EUR_USD" !in close;
      return [];
    }
    var length := EurUsdLength(close);
    series := [];
    ghost var kept: seq<int> := [];
    var i := 0;
    while i < length
      invariant 0 <= i <= length
      invariant kept == KeptRows(close, i) && |series| == |kept|
      invariant forall k :: 0 <= k < |series| ==> series[k] == DxyOf(RatesAt(close, kept[k]), pow)
    {
      var complete, value := RowValue(close, i, pow);
      assert KeptRows(close, i + 1) == kept + (if complete then [i] else []);
      if !complete {
        i := i + 1;
        continue;
      }
      series, kept := series + [value], kept + [i];
      i := i + 1;
    }
  }

  /** The loop body at row `i`: whether the six values are truthy, and then the row's index value. */
  method RowValue(close: map<string, seq<Num>>, i: nat, pow: Pow) returns (complete: bool, value: Num)
    ensures complete <==> AllTruthyAt(close, i)
    ensures complete ==> value == DxyOf(RatesAt(close, i), pow)
  {
    CompleteRow(close, i);
    if !(TruthyAt(close, "EUR_USD", i) && TruthyAt(close, "USD_JPY", i) && TruthyAt(close, "GBP_USD", i)
         && TruthyAt(close, "USD_CAD", i) && TruthyAt(close, "USD_SEK", i) && TruthyAt(close, "USD_CHF", i)) {
      return false, Zero;
    }
    var product :=
      Mul(Mul(Mul(Mul(Mul(pow(close["EUR_USD"][i], -0.576), pow(close["USD_JPY"][i], 0.136)),
        pow(close["GBP_USD"][i], -0.119)), pow(close["USD_CAD"][i], 0.091)),
        pow(close["USD_SEK"][i], 0.042)), pow(close["USD_CHF"][i], 0.036));
    DxyOfUnfolded(RatesAt(close, i), pow);
    complete, value := true, Mul(Fin(DxyConstant), product);
  }

  /** The six truthiness tests of the loop are the completeness of the row. */
  lemma CompleteRow(close: map<string, seq<Num>>, i: nat)
    ensures AllTruthyAt(close, i) <==>
      TruthyAt(close, "EUR_USD", i) && TruthyAt(close, "USD_JPY", i) && TruthyAt(close, "GBP_USD", i)
      && TruthyAt(close, "USD_CAD", i) && TruthyAt(close, "USD_SEK", i) && TruthyAt(close, "USD_CHF", i)
  {
    assert DxyPairs == ["EUR_USD", "USD_JPY", "GBP_USD", "USD_CAD", "USD_SEK", "USD_CHF"];
    assert AllTruthyAt(close, i) <==> forall j :: 0 <= j < 6 ==> TruthyAt(close, DxyPairs[j], i);
    assert (forall j :: 0 <= j < 6 ==> TruthyAt(close, DxyPairs[j], i)) <==>
      TruthyAt(close, DxyPairs[0], i) && TruthyAt(close, DxyPairs[1], i) && TruthyAt(close, DxyPairs[2], i)
      && TruthyAt(close, DxyPairs[3], i) && TruthyAt(close, DxyPairs[4], i) && TruthyAt(close, DxyPairs[5], i);
  }

  /** A rate of the map, or None where the key is missing. */
  function Get(rates: map<string, Num>, key: string): Option<Num>
  {
    if key in rates then Some(rates[key]) else None
  }

  /** The six components with 1 in place of each missing, zero or NaN rate. */
  function SubstituteOnes(rates: map<string, Num>): (m: map<string, Num>)
    ensures forall k :: k in m <==> k in DxyPairs
    ensures forall k :: k in m ==> m[k] == (if JsTruthyOpt(Get(rates, k)) then rates[k] else Fin(1.0))
  {
    map k | k in DxyPairs :: OrJs(Get(rates, k), Fin(1.0))
  }

  /** The substituted rate of each of the six components, by name. */
  lemma SubstitutedRates(rates: map<string, Num>)
    ensures var m, one := SubstituteOnes(rates), Fin(1.0);
      && RateIn(m, "EUR_USD") == OrJs(Get(rates, "EUR_USD"), one)
      && RateIn(m, "USD_JPY") == OrJs(Get(rates, "USD_JPY"), one)
      && RateIn(m, "GBP_USD") == OrJs(Get(rates, "GBP_USD"), one)
      && RateIn(m, "USD_CAD") == OrJs(Get(rates, "USD_CAD"), one)
      && RateIn(m, "USD_SEK") == OrJs(Get(rates, "USD_SEK"), one)
      && RateIn(m, "USD_CHF") == OrJs(Get(rates, "USD_CHF"), one)
  {
    assert DxyPairs == ["EUR_USD", "USD_JPY", "GBP_USD", "USD_CAD", "USD_SEK", "USD_CHF"];
    assert DxyPairs[0] in DxyPairs && DxyPairs[1] in DxyPairs && DxyPairs[2] in DxyPairs;
    assert DxyPairs[3] in DxyPairs && DxyPairs[4] in DxyPairs && DxyPairs[5] in DxyPairs;
  }

  /**
   * The browser `calculateCurrentDxy`: the weighted product with 1 in place
   * of every missing or zero rate; it never stops early with 0.
   */
  function CalculateCurrentDxy(rates: map<string, Num>, pow: Pow): (r: Num)
    ensures r == DxyOf(SubstituteOnes(rates), pow)
  {
    var one := Fin(1.0);
    var product :=
      Mul(Mul(Mul(Mul(Mul(pow(OrJs(Get(rates, "EUR_USD"), one), -0.576), pow(OrJs(Get(rates, "USD_JPY"), one), 0.136)),
        pow(OrJs(Get(rates, "GBP_USD"), one), -0.119)), pow(OrJs(Get(rates, "USD_CAD"), one), 0.091)),
        pow(OrJs(Get(rates, "USD_SEK"), one), 0.042)), pow(OrJs(Get(rates, "USD_CHF"), one), 0.036));
    SubstitutedRates(rates);
    DxyOfUnfolded(SubstituteOnes(rates), pow);
    Mul(Fin(DxyConstant), product)
  }

  /**
   * With all six rates present and positive, the browser current index is the
   * weighted product of the rates themselves, the value the server library
   * computes.
   */
  lemma {:induction false} CurrentDxyAgreesOnPositiveRates(rates: map<string, Num>, pow: Pow)
    requires forall p :: p in DxyPairs ==> PositiveIn(rates, p)
    ensures CalculateCurrentDxy(rates, pow) == DxyOf(rates, pow)
  {
    var m := SubstituteOnes(rates);
    forall p | p in DxyPairs
      ensures RateIn(m, p) == RateIn(rates, p)
    {
      assert PositiveIn(rates, p);
    }
    assert DxyPairs == ["EUR_USD", "USD_JPY", "GBP_USD", "USD_CAD", "USD_SEK", "USD_CHF"];
    DxyOfUnfolded(m, pow);
    DxyOfUnfolded(rates, pow);
  }

  /** `a < b ? 'O' : 'X'`: ties and NaN give 'X'. */
  function TwoValued(a: Num, b: Num): (s: Signal)
    ensures s != Dash
    ensures s == O <==> Lt(a, b)
  {
    if Lt(a, b) then O else X
  }

  /**
   * The browser `calculateIndicatorSignals`. The dollar signals are
   * two-valued; the yen signals are '-' unless the values they use are
   * positive.
   */
  function CalculateIndicatorSignals(
    currentDxy: Num, dxyMid: Num, currentUsdKrw: Num, usdKrwMid: Num,
    currentJxy: Num, jxyMid: Num, currentJpyKrw: Num, jpyKrwMid: Num): (s: Signals)
    ensures s.dxy == TwoValued(currentDxy, dxyMid) && s.usdKrw == TwoValued(currentUsdKrw, usdKrwMid)
    ensures s.gapRatio == TwoValued(GapRatio(dxyMid, usdKrwMid), GapRatio(currentDxy, currentUsdKrw))
    ensures s.fairRate == TwoValued(currentUsdKrw, Mul(Div(currentDxy, GapRatio(dxyMid, usdKrwMid)), Hundred))
    ensures s.jxy == Dash <==> !(Positive(currentJxy) && Positive(jxyMid))
    ensures s.jxy != Dash ==> s.jxy == TwoValued(currentJxy, jxyMid)
    ensures s.jpyKrw == Dash <==> !(Positive(currentJpyKrw) && Positive(jpyKrwMid))
    ensures s.jpyKrw != Dash ==> s.jpyKrw == TwoValued(currentJpyKrw, jpyKrwMid)
    ensures s.jpyGapRatio == Dash <==>
      !(Positive(currentJxy) && Positive(currentJpyKrw) && Positive(jxyMid) && Positive(jpyKrwMid))
    ensures s.jpyGapRatio != Dash ==>
      s.jpyGapRatio == TwoValued(JpyGapRatio(jxyMid, jpyKrwMid), JpyGapRatio(currentJxy, currentJpyKrw))
    ensures s.jpyFairRate == JpyFairRateSignal(currentJxy, jxyMid, currentJpyKrw, jpyKrwMid)
  {
    // `current > mid ? 'O' : 'X'` is the two-valued comparison the other way round
    var midGapRatio := GapRatio(dxyMid, usdKrwMid);
    var fairExchangeRate := Mul(Div(currentDxy, midGapRatio), Hundred);
    var jpyGapRatioSignal :=
      if Positive(currentJxy) && Positive(currentJpyKrw) && Positive(jxyMid) && Positive(jpyKrwMid) then
        TwoValued(JpyGapRatio(jxyMid, jpyKrwMid), JpyGapRatio(currentJxy, currentJpyKrw))
      else Dash;
    Signals(
      TwoValued(currentDxy, dxyMid),
      TwoValued(currentUsdKrw, usdKrwMid),
      TwoValued(midGapRatio, GapRatio(currentDxy, currentUsdKrw)),
      TwoValued(currentUsdKrw, fairExchangeRate),
      if Positive(currentJxy) && Positive(jxyMid) then TwoValued(currentJxy, jxyMid) else Dash,
      if Positive(currentJpyKrw) && Positive(jpyKrwMid) then TwoValued(currentJpyKrw, jpyKrwMid) else Dash,
      jpyGapRatioSignal,
      JpyFairRateSignal(currentJxy, jxyMid, currentJpyKrw, jpyKrwMid))
  }

  /**
   * The yen fair-rate signal: '-' unless the current JXY, both middles, their
   * ratio and the current JPY/KRW per 100 yen are positive; otherwise 'O'
   * when JPY/KRW per 100 yen is below the fair rate.
   */
  function JpyFairRateSignal(currentJxy: Num, jxyMid: Num, currentJpyKrw: Num, jpyKrwMid: Num): (s: Signal)
    ensures s == Dash <==>
      !(Positive(currentJxy) && Positive(jxyMid) && Positive(jpyKrwMid)
        && Positive(Div(jxyMid, jpyKrwMid)) && Positive(Mul(currentJpyKrw, Hundred)))
    ensures s != Dash ==>
      s == TwoValued(Mul(currentJpyKrw, Hundred), Mul(Div(currentJxy, Div(jxyMid, jpyKrwMid)), Hundred))
  {
    if Positive(currentJxy) && Positive(jxyMid) && Positive(jpyKrwMid) then
      var raw := Div(jxyMid, jpyKrwMid);
      if Positive(raw) then
        var jpyFairExchangeRate := Mul(Div(currentJxy, raw), Hundred);
        var currentJpyKrw100 := Mul(currentJpyKrw, Hundred);
        if Positive(currentJpyKrw100) then (if Lt(currentJpyKrw100, jpyFairExchangeRate) then O else X)
        else Dash
      else Dash
    else Dash
  }

  /**
   * The browser level signals agree with the server library's wherever the
   * library reaches a verdict, and read a library '-' (a tie or NaN) as 'X'.
   */
  lemma LevelSignalsAgree(a: Num, b: Num)
    ensures LevelSignal(a, b) != Dash ==> TwoValued(a, b) == LevelSignal(a, b)
    ensures LevelSignal(a, b) == Dash ==> TwoValued(a, b) == X
  {
  }

  /**
   * For a finite JPY/KRW middle, the two inner guards of the yen fair-rate
   * signal add nothing: it is '-' exactly when one of its four inputs is not
   * positive.
   */
  lemma {:induction false} FairRateGuardsReduce(currentJxy: Num, jxyMid: Num, currentJpyKrw: Num, jpyKrwMid: Num)
    requires jpyKrwMid.Fin?
    ensures JpyFairRateSignal(currentJxy, jxyMid, currentJpyKrw, jpyKrwMid) == Dash
      <==> !(Positive(currentJxy) && Positive(jxyMid) && Positive(jpyKrwMid) && Positive(currentJpyKrw))
  {
    if Positive(jxyMid) && Positive(jpyKrwMid) {
      DivPositive(jxyMid, jpyKrwMid);
    }
    assert Positive(Mul(currentJpyKrw, Hundred)) <==> Positive(currentJpyKrw);
  }
}
