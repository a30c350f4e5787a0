// The summary page's windowing of a year of period data down to the last N
// months, and its kimchi-premium figure. The clock is an input: `target`
// is the time N months before now, and `time` is the date parser.

module SummaryTab {
  import opened Numbers

  /** A value of a column dictionary: an array of numbers or nulls, or anything else. */
  datatype Entry = ArrayEntry(values: seq<Option<Num>>) | OtherEntry

  type Columns = map<string, Entry>

  /** The period data as the store holds it; a missing part is None. */
  datatype PeriodPayload = PeriodPayload(dfClose: Option<Columns>, dfHigh: Option<Columns>, dfLow: Option<Columns>,
                                         currentRates: map<string, Option<Num>>, dates: Option<seq<string>>)

  /** The windowed period data. */
  datatype Window = Window(dfClose: map<string, seq<Option<Num>>>, dfHigh: map<string, seq<Option<Num>>>,
                           dfLow: map<string, seq<Option<Num>>>, currentRates: map<string, Option<Num>>,
                           dates: seq<string>)

  /** `new Date(d) >= target`: false for a text that does not parse (an invalid date compares false). */
  predicate OnOrAfter(d: string, time: string -> Option<int>, target: int)
  {
    time(d).Some? && time(d).value >= target
  }

  /** The first position at or after `i` whose date is on or after `target`, or `|dates|`. */
  function FirstFrom(dates: seq<string>, time: string -> Option<int>, target: int, i: nat): (k: nat)
    requires i <= |dates|
    ensures i <= k <= |dates|
    ensures forall j :: i <= j < k ==> !OnOrAfter(dates[j], time, target)
    ensures k < |dates| ==> OnOrAfter(dates[k], time, target)
    decreases |dates| - i
  {
    if i == |dates| || OnOrAfter(dates[i], time, target) then i
    else FirstFrom(dates, time, target, i + 1)
  }

  /**
   * The window's start: the first date on or after `target`, or 0 when no
   * date is.
   */
  function StartOf(dates: seq<string>, time: string -> Option<int>, target: int): (k: nat)
    ensures k == 0 || k < |dates|
    ensures (exists i :: 0 <= i < |dates| && OnOrAfter(dates[i], time, target)) ==>
      && k < |dates| && OnOrAfter(dates[k], time, target)
      && forall j :: 0 <= j < k ==> !OnOrAfter(dates[j], time, target)
    ensures (forall i :: 0 <= i < |dates| ==> !OnOrAfter(dates[i], time, target)) ==> k == 0
  {
    var f := FirstFrom(dates, time, target, 0);
    if f == |dates| then 0 else f
  }

  /** The search loop of `filterDataByPeriod`, stopping at the first date on or after `target`. */
  method StartIndex(dates: seq<string>, time: string -> Option<int>, target: int) returns (startIndex: nat)
    ensures startIndex == StartOf(dates, time, target)
  {
    startIndex := 0;
    var i := 0;
    while i < |dates|
      invariant 0 <= i <= |dates|
      invariant FirstFrom(dates, time, target, 0) == FirstFrom(dates, time, target, i)
    {
      if OnOrAfter(dates[i], time, target) {
        startIndex := i;
        break;
      }
      i := i + 1;
    }
  }

  /** JavaScript `s.slice(k)`: the elements from position `k`, none when `k` is past the end. */
  function Tail<T>(s: seq<T>, k: nat): (r: seq<T>)
    ensures k <= |s| ==> r == s[k..]
    ensures |r| == if k <= |s| then |s| - k else 0
    ensures forall i :: 0 <= i < |r| ==> r[i] == s[k + i]
  {
    if k <= |s| then s[k..] else []
  }

  /**
   * One column dictionary windowed from `k`: the array entries sliced,
   * the other entries dropped, nothing for a missing dictionary.
   */
  method SliceColumns(cols: Option<Columns>, k: nat) returns (r: map<string, seq<Option<Num>>>)
    ensures cols.None? ==> r == map[]
    ensures cols.Some? ==> forall key :: key in r <==> key in cols.value && cols.value[key].ArrayEntry?
    ensures cols.Some? ==> forall key :: key in r ==> r[key] == Tail(cols.value[key].values, k)
  {
    r := map[];
    if cols.None? {
      return;
    }
    var m := cols.value;
    var todo := m.Keys;
    while todo != {}
      invariant todo <= m.Keys
      invariant forall key :: key in r <==> key in m && key !in todo && m[key].ArrayEntry?
      invariant forall key :: key in r ==> r[key] == Tail(m[key].values, k)
      decreases todo
    {
      var key :| key in todo;
      if m[key].ArrayEntry? {
        r := r[key := Tail(m[key].values, k)];
      }
      todo := todo - {key};
    }
  }

  /**
   * `filterDataByPeriod`: null without data or dates; otherwise the dates
   * and every array column cut at the same start, the current rates as they
   * were.
   */
  method FilterDataByPeriod(full: Option<PeriodPayload>, time: string -> Option<int>, target: int)
    returns (w: Option<Window>)
    ensures full.None? || full.value.dates.None? || |full.value.dates.value| == 0 ==> w.None?
    ensures full.Some? && full.value.dates.Some? && |full.value.dates.value| > 0 ==>
      var p := full.value;
      var k := StartOf(p.dates.value, time, target);
      && w.Some? && w.value.dates == p.dates.value[k..] && w.value.currentRates == p.currentRates
      && (p.dfClose.None? ==> w.value.dfClose == map[])
      && (p.dfClose.Some? ==> forall key :: key in w.value.dfClose <==>
            key in p.dfClose.value && p.dfClose.value[key].ArrayEntry?)
      && (p.dfClose.Some? ==> forall key :: key in w.value.dfClose ==>
            w.value.dfClose[key] == Tail(p.dfClose.value[key].values, k))
      && (p.dfHigh.None? ==> w.value.dfHigh == map[])
      && (p.dfHigh.Some? ==> forall key :: key in w.value.dfHigh <==>
            key in p.dfHigh.value && p.dfHigh.value[key].ArrayEntry?)
      && (p.dfHigh.Some? ==> forall key :: key in w.value.dfHigh ==>
            w.value.dfHigh[key] == Tail(p.dfHigh.value[key].values, k))
      && (p.dfLow.None? ==> w.value.dfLow == map[])
      && (p.dfLow.Some? ==> forall key :: key in w.value.dfLow <==>
            key in p.dfLow.value && p.dfLow.value[key].ArrayEntry?)
      && (p.dfLow.Some? ==> forall key :: key in w.value.dfLow ==>
            w.value.dfLow[key] == Tail(p.dfLow.value[key].values, k))
  {
    if full.None? || full.value.dates.None? || |full.value.dates.value| == 0 {
      return None;
    }
    var dates := full.value.dates.value;
    var startIndex := StartIndex(dates, time, target);
    var close := SliceColumns(full.value.dfClose, startIndex);
    var high := SliceColumns(full.value.dfHigh, startIndex);
    var low := SliceColumns(full.value.dfLow, startIndex);
    w := Some(Window(close, high, low, full.value.currentRates, dates[startIndex..]));
  }

  /**
   * A window keeps a column aligned with the dates: a column as long as the
   * dates is cut to exactly as many values as there are windowed dates, the
   * value at each windowed date being the one it had.
   */
  lemma {:induction false} WindowAligned(dates: seq<string>, values: seq<Option<Num>>, k: nat)
    requires |values| == |dates| && (k == 0 || k < |dates|)
    ensures |Tail(values, k)| == |dates[k..]|
    ensures forall i :: 0 <= i < |dates[k..]| ==> dates[k..][i] == dates[k + i] && Tail(values, k)[i] == values[k + i]
  {
    assert k <= |values|;
  }

  /**
   * The kimchi premium in percent: by how much the USDT price exceeds the
   * dollar rate, 0 when either is missing or 0 or the dollar rate is not
   * positive.
   */
  function KimchiPremium(usdtKrw: Option<Num>, investingUsd: Option<Num>): (p: Num)
    ensures !(JsTruthyOpt(usdtKrw) && JsTruthyOpt(investingUsd) && Positive(investingUsd.value)) ==> p == Zero
    ensures (JsTruthyOpt(usdtKrw) && JsTruthyOpt(investingUsd) && usdtKrw.value.Fin? && investingUsd.value.Fin?
             && investingUsd.value.v > 0.0) ==> p == Fin((usdtKrw.value.v / investingUsd.value.v - 1.0) * 100.0)
  {
    if JsTruthyOpt(usdtKrw) && JsTruthyOpt(investingUsd) && Positive(investingUsd.value) then
      Mul(Sub(Div(usdtKrw.value, investingUsd.value), Fin(1.0)), Hundred)
    else Zero
  }

  /**
   * On two finite positive rates the premium is positive exactly when the
   * USDT price is above the dollar rate, and 0 exactly when they are equal.
   */
  lemma {:induction false} KimchiPremiumSign(usdt: real, usd: real)
    requires usdt > 0.0 && usd > 0.0
    ensures Positive(KimchiPremium(Some(Fin(usdt)), Some(Fin(usd)))) <==> usdt > usd
    ensures KimchiPremium(Some(Fin(usdt)), Some(Fin(usd))) == Zero <==> usdt == usd
  {
    var q := usdt / usd;
    assert usdt - usd == (q - 1.0) * usd;
    if q > 1.0 {
      assert (q - 1.0) * usd > 0.0;
    } else if q < 1.0 {
      assert (1.0 - q) * usd > 0.0;
    }
  }
}
