// The TypeScript period fetch's assembly step: the per-ticker daily quotes are
// grouped by date, only the dates on which every pair has a positive close
// are kept, in ascending order, and column arrays, same-side derived yen
// arrays and the current prices are built from them. The quotes themselves
// are inputs; a ticker whose download failed contributes an empty list.

module PeriodAssembly {
  import opened Numbers
  import opened Seqs
  import opened MarketData

  /** One daily quote of a ticker; a missing price field is None. */
  datatype HistQuote = HistQuote(date: int, close: Option<Num>, high: Option<Num>, low: Option<Num>)

  /** The close, high and low a date holds for one pair. */
  datatype Hlc = Hlc(close: Num, high: Num, low: Num)

  /** `quote.close || 0`, `quote.high || 0`, `quote.low || 0`. */
  function HlcOf(q: HistQuote): (h: Hlc)
    ensures JsTruthyOpt(q.close) ==> h.close == q.close.value
    ensures !JsTruthyOpt(q.close) ==> h.close == Zero
    ensures JsTruthyOpt(q.high) ==> h.high == q.high.value
    ensures !JsTruthyOpt(q.high) ==> h.high == Zero
    ensures JsTruthyOpt(q.low) ==> h.low == q.low.value
    ensures !JsTruthyOpt(q.low) ==> h.low == Zero
  {
    Hlc(OrJs(q.close, Zero), OrJs(q.high, Zero), OrJs(q.low, Zero))
  }

  /** The last quote of the list dated `d`: the one whose fields the date keeps. */
  function LastOn(qs: seq<HistQuote>, d: int): (r: Option<HistQuote>)
    ensures r.Some? ==> r.value in qs && r.value.date == d
    ensures r.None? <==> forall j :: 0 <= j < |qs| ==> qs[j].date != d
  {
    if |qs| == 0 then None
    else if qs[|qs| - 1].date == d then Some(qs[|qs| - 1])
    else
      assert forall j :: 0 <= j < |qs| - 1 ==> qs[..|qs| - 1][j] == qs[j];
      LastOn(qs[..|qs| - 1], d)
  }

  /** Extending a list by one quote: the new quote is the last on its date, other dates are unchanged. */
  lemma LastOnStep(qs: seq<HistQuote>, j: int)
    requires 0 <= j < |qs|
    ensures forall d :: LastOn(qs[..j + 1], d) == if qs[j].date == d then Some(qs[j]) else LastOn(qs[..j], d)
  {
    var s := qs[..j + 1];
    assert |s| == j + 1 && s[j] == qs[j];
    assert s[..j] == qs[..j];
    forall d ensures LastOn(s, d) == if qs[j].date == d then Some(qs[j]) else LastOn(qs[..j], d) {
    }
  }

  /** Some list among the first `t` has a quote dated `d`. */
  predicate DatedIn(data: seq<seq<HistQuote>>, t: int, d: int)
    requires 0 <= t <= |data|
  {
    exists u :: 0 <= u < t && LastOn(data[u], d).Some?
  }

  /** What the date map holds for pair `u` on date `d`, and nothing where it has no quote. */
  predicate HoldsPair(dateMap: map<int, map<string, Hlc>>, d: int, key: string, qs: seq<HistQuote>)
    requires d in dateMap
  {
    && (key in dateMap[d] <==> LastOn(qs, d).Some?)
    && (key in dateMap[d] ==> dateMap[d][key] == HlcOf(LastOn(qs, d).value))
  }

  /** The other pairs' fields are those of `before`, on the dates `before` has. */
  ghost predicate OthersKept(before: map<int, map<string, Hlc>>, after: map<int, map<string, Hlc>>, key: string)
  {
    forall d, k :: d in after && k != key ==>
      && (k in after[d] <==> d in before && k in before[d])
      && (k in after[d] ==> after[d][k] == before[d][k])
  }

  /** What `OthersKept` says about one date and one other pair. */
  lemma KeptPair(before: map<int, map<string, Hlc>>, after: map<int, map<string, Hlc>>, key: string, d: int, k: string)
    requires OthersKept(before, after, key) && d in after && k != key
    ensures k in after[d] <==> d in before && k in before[d]
    ensures k in after[d] ==> after[d][k] == before[d][k]
  {
  }

  /** The date map after one quote of pair `key`: the quote's fields under `key` on its date, added if new. */
  function Put(dm: map<int, map<string, Hlc>>, key: string, q: HistQuote): (r: map<int, map<string, Hlc>>)
    ensures r.Keys == dm.Keys + {q.date}
  {
    dm[q.date := (if q.date in dm then dm[q.date] else map[])[key := HlcOf(q)]]
  }

  /** After one more quote, the dates are those of the earlier map and of the quotes so far. */
  lemma PutDates(dateMap: map<int, map<string, Hlc>>, dm: map<int, map<string, Hlc>>, key: string,
                 quotes: seq<HistQuote>, j: int)
    requires 0 <= j < |quotes|
    requires forall d :: d in dm <==> d in dateMap || LastOn(quotes[..j], d).Some?
    ensures forall d :: d in Put(dm, key, quotes[j]) <==> d in dateMap || LastOn(quotes[..j + 1], d).Some?
  {
    LastOnStep(quotes, j);
  }

  /** One more quote leaves the other pairs alone. */
  lemma PutKeepsOthers(dateMap: map<int, map<string, Hlc>>, dm: map<int, map<string, Hlc>>, key: string,
                       q: HistQuote)
    requires forall d :: d in dateMap ==> d in dm
    requires OthersKept(dateMap, dm, key)
    ensures OthersKept(dateMap, Put(dm, key, q), key)
  {
  }

  /** One more quote is the last one of its date for `key`. */
  lemma PutHolds(dm: map<int, map<string, Hlc>>, key: string, quotes: seq<HistQuote>, j: int)
    requires 0 <= j < |quotes|
    requires forall d :: d in dm && d != quotes[j].date ==> (key in dm[d] <==> LastOn(quotes[..j], d).Some?)
    requires forall d :: d in dm ==> HoldsPair(dm, d, key, quotes[..j])
    ensures forall d :: d in Put(dm, key, quotes[j]) ==> HoldsPair(Put(dm, key, quotes[j]), d, key, quotes[..j + 1])
  {
    LastOnStep(quotes, j);
  }

  /** The inner `quotes.forEach` of one ticker: its fields written under `key`. */
  method AddTicker(dateMap: map<int, map<string, Hlc>>, order: seq<int>, key: string, quotes: seq<HistQuote>)
    returns (dm: map<int, map<string, Hlc>>, ord: seq<int>)
    requires forall d :: d in dateMap <==> d in order
    requires forall d :: d in dateMap ==> key !in dateMap[d]
    ensures forall d :: d in dm <==> d in dateMap || LastOn(quotes, d).Some?
    ensures forall d :: d in dm <==> d in ord
    ensures OthersKept(dateMap, dm, key)
    ensures forall d :: d in dm ==> HoldsPair(dm, d, key, quotes)
  {
    dm, ord := dateMap, order;
    var j := 0;
    while j < |quotes|
      invariant 0 <= j <= |quotes|
      invariant forall d :: d in dm <==> d in dateMap || LastOn(quotes[..j], d).Some?
      invariant forall d :: d in dm <==> d in ord
      invariant OthersKept(dateMap, dm, key)
      invariant forall d :: d in dm ==> HoldsPair(dm, d, key, quotes[..j])
    {
      var q := quotes[j];
      PutDates(dateMap, dm, key, quotes, j);
      PutKeepsOthers(dateMap, dm, key, q);
      PutHolds(dm, key, quotes, j);
      if q.date !in dm {
        ord := ord + [q.date];
      }
      dm := Put(dm, key, q);
      j := j + 1;
    }
    assert quotes[..j] == quotes;
  }

  /** After ticker `t`, the dates are those some list among the first `t + 1` quotes. */
  lemma GroupStepDates(data: seq<seq<HistQuote>>, t: int, before: map<int, map<string, Hlc>>,
                       after: map<int, map<string, Hlc>>)
    requires 0 <= t < |data|
    requires forall d :: d in before <==> DatedIn(data, t, d)
    requires forall d :: d in after <==> d in before || LastOn(data[t], d).Some?
    ensures forall d :: d in after <==> DatedIn(data, t + 1, d)
  {
    forall d | DatedIn(data, t + 1, d)
      ensures d in after
    {
      var u :| 0 <= u < t + 1 && LastOn(data[u], d).Some?;
      if u < t {
        assert DatedIn(data, t, d);
      }
    }
    forall d | d in after
      ensures DatedIn(data, t + 1, d)
    {
      if d in before {
        var u :| 0 <= u < t && LastOn(data[u], d).Some?;
      } else {
        assert LastOn(data[t], d).Some?;
      }
    }
  }

  /** After ticker `t`, the first `t + 1` pairs hold their quotes and the others are still absent. */
  lemma GroupStepPairs(keys: seq<string>, data: seq<seq<HistQuote>>, t: int, before: map<int, map<string, Hlc>>,
                       after: map<int, map<string, Hlc>>)
    requires |data| == |keys| && Distinct(keys) && 0 <= t < |data|
    requires forall d :: d in before <==> DatedIn(data, t, d)
    requires forall d, k :: d in before && k in before[d] ==> k in keys
    requires forall d, u :: d in before && t <= u < |keys| ==> keys[u] !in before[d]
    requires forall d, u :: d in before && 0 <= u < t ==> HoldsPair(before, d, keys[u], data[u])
    requires OthersKept(before, after, keys[t])
    requires forall d :: d in after ==> HoldsPair(after, d, keys[t], data[t])
    ensures forall d, k :: d in after && k in after[d] ==> k in keys
    ensures forall d, u :: d in after && t + 1 <= u < |keys| ==> keys[u] !in after[d]
    ensures forall d, u :: d in after && 0 <= u < t + 1 ==> HoldsPair(after, d, keys[u], data[u])
  {
    forall d, k | d in after && k in after[d]
      ensures k in keys
    {
      if k != keys[t] {
        KeptPair(before, after, keys[t], d, k);
      }
    }
    forall d, u | d in after && 0 <= u < |keys| && u != t
      ensures u < t ==> HoldsPair(after, d, keys[u], data[u])
      ensures u > t ==> keys[u] !in after[d]
    {
      KeptPair(before, after, keys[t], d, keys[u]);
      if u < t && d !in before {
        assert !DatedIn(data, t, d);
        assert LastOn(data[u], d).None?;
      }
    }
  }

  /**
   * The `dateMap` loops: one entry per date some ticker quotes, holding each
   * pair's fields of its last quote on that date; `order` lists the dates in
   * the order they were first met.
   */
  method GroupByDate(keys: seq<string>, data: seq<seq<HistQuote>>)
    returns (dateMap: map<int, map<string, Hlc>>, order: seq<int>)
    requires |data| == |keys| && Distinct(keys)
    ensures forall d :: d in dateMap <==> DatedIn(data, |data|, d)
    ensures forall d :: d in dateMap <==> d in order
    ensures forall d, k :: d in dateMap && k in dateMap[d] ==> k in keys
    ensures forall d, u :: d in dateMap && 0 <= u < |keys| ==> HoldsPair(dateMap, d, keys[u], data[u])
  {
    dateMap := map[];
    order := [];
    var t := 0;
    while t < |data|
      invariant 0 <= t <= |data|
      invariant forall d :: d in dateMap <==> DatedIn(data, t, d)
      invariant forall d :: d in dateMap <==> d in order
      invariant forall d, k :: d in dateMap && k in dateMap[d] ==> k in keys
      invariant forall d, u :: d in dateMap && t <= u < |keys| ==> keys[u] !in dateMap[d]
      invariant forall d, u :: d in dateMap && 0 <= u < t ==> HoldsPair(dateMap, d, keys[u], data[u])
    {
      ghost var before := dateMap;
      dateMap, order := AddTicker(dateMap, order, keys[t], data[t]);
      GroupStepDates(data, t, before, dateMap);
      GroupStepPairs(keys, data, t, before, dateMap);
      t := t + 1;
    }
  }

  /** Every pair has a close, and every close is positive (`closeValue > 0`). */
  predicate CloseValid(row: map<string, Hlc>, keys: seq<string>)
  {
    forall u :: 0 <= u < |keys| ==> keys[u] in row && Positive(row[keys[u]].close)
  }

  /** The dates kept, `validDateEntries` after the filter and the sort, as a function of the date map. */
  function ValidDates(dateMap: map<int, map<string, Hlc>>, order: seq<int>, keys: seq<string>): (ds: seq<int>)
    ensures StrictlyIncreasing(ds)
    ensures forall d :: d in ds <==> d in order && d in dateMap && CloseValid(dateMap[d], keys)
  {
    SortedDistinct(Filter(order, (d: int) => d in dateMap && CloseValid(dateMap[d], keys)))
  }

  datatype Field = CloseField | HighField | LowField

  function FieldOf(h: Hlc, f: Field): Num
  {
    match f
    case CloseField => h.close
    case HighField => h.high
    case LowField => h.low
  }

  /** `data[`${key}_field`] || 0`: 0 where the date holds no value for the pair. */
  function ArrayValue(dateMap: map<int, map<string, Hlc>>, d: int, key: string, f: Field): Num
  {
    if d in dateMap && key in dateMap[d] then OrJs(Some(FieldOf(dateMap[d][key], f)), Zero) else Zero
  }

  /** The array of `key` holds the field's values at the first `len` dates. */
  predicate Filled(arr: map<string, seq<Num>>, key: string, dateMap: map<int, map<string, Hlc>>,
                   dates: seq<int>, len: int, f: Field)
  {
    && key in arr && |arr[key]| == len && 0 <= len <= |dates|
    && forall n :: 0 <= n < len ==> arr[key][n] == ArrayValue(dateMap, dates[n], key, f)
  }

  /** The three arrays of pair `key` are filled up to `len` dates. */
  predicate Filled3(close: map<string, seq<Num>>, high: map<string, seq<Num>>, low: map<string, seq<Num>>,
                    key: string, dateMap: map<int, map<string, Hlc>>, dates: seq<int>, len: int)
  {
    && Filled(close, key, dateMap, dates, len, CloseField)
    && Filled(high, key, dateMap, dates, len, HighField)
    && Filled(low, key, dateMap, dates, len, LowField)
  }

  /** The arrays are keyed by exactly the pairs. */
  ghost predicate KeyedBy(close: map<string, seq<Num>>, high: map<string, seq<Num>>, low: map<string, seq<Num>>,
                    keys: seq<string>)
  {
    forall k :: (k in close <==> k in keys) && (k in high <==> k in keys) && (k in low <==> k in keys)
  }

  /** The column arrays: for every pair, its close, high and low at each kept date, in date order. */
  method BuildArrays(keys: seq<string>, dateMap: map<int, map<string, Hlc>>, dates: seq<int>)
    returns (close: map<string, seq<Num>>, high: map<string, seq<Num>>, low: map<string, seq<Num>>)
    requires Distinct(keys)
    ensures KeyedBy(close, high, low, keys)
    ensures forall u :: 0 <= u < |keys| ==> Filled3(close, high, low, keys[u], dateMap, dates, |dates|)
  {
    close, high, low := map[], map[], map[];
    var t := 0;
    while t < |keys|
      invariant 0 <= t <= |keys|
      invariant KeyedBy(close, high, low, keys[..t])
      invariant forall k :: k in close ==> close[k] == [] && high[k] == [] && low[k] == []
    {
      close, high, low := close[keys[t] := []], high[keys[t] := []], low[keys[t] := []];
      assert keys[..t + 1] == keys[..t] + [keys[t]];
      t := t + 1;
    }
    assert keys[..t] == keys;
    var n := 0;
    while n < |dates|
      invariant 0 <= n <= |dates|
      invariant KeyedBy(close, high, low, keys)
      invariant forall u :: 0 <= u < |keys| ==> Filled3(close, high, low, keys[u], dateMap, dates, n)
    {
      close, high, low := PushDate(keys, dateMap, dates, n, close, high, low);
      n := n + 1;
    }
  }

  /** The inner `allKeys.forEach` for the date at position `n`: one value pushed on every array. */
  method PushDate(keys: seq<string>, dateMap: map<int, map<string, Hlc>>, dates: seq<int>, n: int,
                  close0: map<string, seq<Num>>, high0: map<string, seq<Num>>, low0: map<string, seq<Num>>)
    returns (close: map<string, seq<Num>>, high: map<string, seq<Num>>, low: map<string, seq<Num>>)
    requires Distinct(keys) && 0 <= n < |dates|
    requires KeyedBy(close0, high0, low0, keys)
    requires forall u :: 0 <= u < |keys| ==> Filled3(close0, high0, low0, keys[u], dateMap, dates, n)
    ensures KeyedBy(close, high, low, keys)
    ensures forall u :: 0 <= u < |keys| ==> Filled3(close, high, low, keys[u], dateMap, dates, n + 1)
  {
    close, high, low := close0, high0, low0;
    var date := dates[n];
    var t := 0;
    while t < |keys|
      invariant 0 <= t <= |keys|
      invariant KeyedBy(close, high, low, keys)
      invariant forall u :: 0 <= u < t ==> Filled3(close, high, low, keys[u], dateMap, dates, n + 1)
      invariant forall u :: t <= u < |keys| ==> Filled3(close, high, low, keys[u], dateMap, dates, n)
    {
      var key := keys[t];
      ghost var (c, h, l) := (close, high, low);
      close := close[key := close[key] + [ArrayValue(dateMap, date, key, CloseField)]];
      high := high[key := high[key] + [ArrayValue(dateMap, date, key, HighField)]];
      low := low[key := low[key] + [ArrayValue(dateMap, date, key, LowField)]];
      forall u | 0 <= u < |keys|
        ensures u < t + 1 ==> Filled3(close, high, low, keys[u], dateMap, dates, n + 1)
        ensures u > t ==> Filled3(close, high, low, keys[u], dateMap, dates, n)
      {
        if u == t {
          FilledPush(c, key, dateMap, dates, n, CloseField);
          FilledPush(h, key, dateMap, dates, n, HighField);
          FilledPush(l, key, dateMap, dates, n, LowField);
        } else {
          var len := if u < t then n + 1 else n;
          FilledOther(c, key, keys[u], close[key], dateMap, dates, len, CloseField);
          FilledOther(h, key, keys[u], high[key], dateMap, dates, len, HighField);
          FilledOther(l, key, keys[u], low[key], dateMap, dates, len, LowField);
        }
      }
      t := t + 1;
    }
  }

  /** Pushing the next date's value extends a filled array by one. */
  lemma FilledPush(arr: map<string, seq<Num>>, key: string, dateMap: map<int, map<string, Hlc>>,
                   dates: seq<int>, len: int, f: Field)
    requires Filled(arr, key, dateMap, dates, len, f) && len < |dates|
    ensures Filled(arr[key := arr[key] + [ArrayValue(dateMap, dates[len], key, f)]], key, dateMap, dates, len + 1, f)
  {
  }

  /** Replacing the array of one pair leaves the other pairs' arrays filled. */
  lemma FilledOther(arr: map<string, seq<Num>>, key: string, other: string, v: seq<Num>,
                    dateMap: map<int, map<string, Hlc>>, dates: seq<int>, len: int, f: Field)
    requires Filled(arr, other, dateMap, dates, len, f) && other != key
    ensures Filled(arr[key := v], other, dateMap, dates, len, f)
  {
  }

  /** The six derived values of one date. */
  datatype Derived = Derived(jpyKrwClose: Num, jpyKrwHigh: Num, jpyKrwLow: Num, jxyClose: Num, jxyHigh: Num, jxyLow: Num)

  /**
   * The derived yen values of one date from the USD/JPY and USD/KRW close,
   * high and low: all 0 unless both closes are positive; otherwise the close
   * quotients, and high over high and low over low where both are positive,
   * the close quotients where not.
   */
  function DerivedAt(jpy: Hlc, krw: Hlc): (r: Derived)
    ensures !(Positive(jpy.close) && Positive(krw.close)) ==> r == Derived(Zero, Zero, Zero, Zero, Zero, Zero)
    ensures Positive(jpy.close) && Positive(krw.close) ==>
      && r.jpyKrwClose == Div(krw.close, jpy.close) && r.jxyClose == Div(Hundred, jpy.close)
      && (Positive(jpy.high) && Positive(krw.high) ==>
        r.jpyKrwHigh == Div(krw.high, jpy.high) && r.jxyHigh == Div(Hundred, jpy.high))
      && (!(Positive(jpy.high) && Positive(krw.high)) ==>
        r.jpyKrwHigh == r.jpyKrwClose && r.jxyHigh == r.jxyClose)
      && (Positive(jpy.low) && Positive(krw.low) ==>
        r.jpyKrwLow == Div(krw.low, jpy.low) && r.jxyLow == Div(Hundred, jpy.low))
      && (!(Positive(jpy.low) && Positive(krw.low)) ==>
        r.jpyKrwLow == r.jpyKrwClose && r.jxyLow == r.jxyClose)
  {
    if Positive(jpy.close) && Positive(krw.close) then
      var (kh, xh) := if Positive(jpy.high) && Positive(krw.high)
        then (Div(krw.high, jpy.high), Div(Hundred, jpy.high))
        else (Div(krw.close, jpy.close), Div(Hundred, jpy.close));
      var (kl, xl) := if Positive(jpy.low) && Positive(krw.low)
        then (Div(krw.low, jpy.low), Div(Hundred, jpy.low))
        else (Div(krw.close, jpy.close), Div(Hundred, jpy.close));
      Derived(Div(krw.close, jpy.close), kh, kl, Div(Hundred, jpy.close), xh, xl)
    else Derived(Zero, Zero, Zero, Zero, Zero, Zero)
  }

  /** A number that is neither NaN nor an infinity. */
  predicate Finite(x: Num) { x.Fin? }

  /**
   * With positive finite closes and finite highs and lows, every derived
   * value is positive: the 0 branch is never taken, and a fallback to the
   * close quotient happens only where a high or low is not positive.
   */
  lemma {:induction false} DerivedPositive(jpy: Hlc, krw: Hlc)
    requires Positive(jpy.close) && Positive(krw.close) && Finite(jpy.close) && Finite(krw.close)
    requires Finite(jpy.high) && Finite(jpy.low)
    ensures var r := DerivedAt(jpy, krw);
      && Positive(r.jpyKrwClose) && Positive(r.jpyKrwHigh) && Positive(r.jpyKrwLow)
      && Positive(r.jxyClose) && Positive(r.jxyHigh) && Positive(r.jxyLow)
  {
    DivPositive(krw.close, jpy.close);
    DivPositive(Hundred, jpy.close);
    if Positive(jpy.high) && Positive(krw.high) {
      DivPositive(krw.high, jpy.high);
      DivPositive(Hundred, jpy.high);
    }
    if Positive(jpy.low) && Positive(krw.low) {
      DivPositive(krw.low, jpy.low);
      DivPositive(Hundred, jpy.low);
    }
  }

  /** The USD/JPY or USD/KRW close, high and low at position `i` of the arrays. */
  function HlcAt(close: map<string, seq<Num>>, high: map<string, seq<Num>>, low: map<string, seq<Num>>,
                 key: string, i: int): Hlc
    requires key in close && key in high && key in low
    requires 0 <= i < |close[key]| && i < |high[key]| && i < |low[key]|
  {
    Hlc(close[key][i], high[key][i], low[key][i])
  }

  /** The USD/JPY and USD/KRW arrays all have length `n`. */
  predicate YenArrays(close: map<string, seq<Num>>, high: map<string, seq<Num>>, low: map<string, seq<Num>>, n: int)
  {
    OfLength(close, high, low, UsdJpy, n) && OfLength(close, high, low, UsdKrw, n)
  }

  predicate OfLength(close: map<string, seq<Num>>, high: map<string, seq<Num>>, low: map<string, seq<Num>>,
                     k: string, n: int)
  {
    k in close && k in high && k in low && |close[k]| == n && |high[k]| == n && |low[k]| == n
  }

  /**
   * The derived-array loop: JPY_KRW and JXY close, high and low arrays, one
   * value per kept date, added to the three tables.
   */
  method DeriveArrays(close0: map<string, seq<Num>>, high0: map<string, seq<Num>>, low0: map<string, seq<Num>>, n: nat)
    returns (close: map<string, seq<Num>>, high: map<string, seq<Num>>, low: map<string, seq<Num>>)
    requires YenArrays(close0, high0, low0, n)
    ensures JpyKrw in close && Jxy in close && close == close0[JpyKrw := close[JpyKrw]][Jxy := close[Jxy]]
    ensures JpyKrw in high && Jxy in high && high == high0[JpyKrw := high[JpyKrw]][Jxy := high[Jxy]]
    ensures JpyKrw in low && Jxy in low && low == low0[JpyKrw := low[JpyKrw]][Jxy := low[Jxy]]
    ensures OfLength(close, high, low, JpyKrw, n) && OfLength(close, high, low, Jxy, n)
    ensures forall i :: 0 <= i < n ==>
      var r := DerivedAt(HlcAt(close0, high0, low0, UsdJpy, i), HlcAt(close0, high0, low0, UsdKrw, i));
      && close[JpyKrw][i] == r.jpyKrwClose && high[JpyKrw][i] == r.jpyKrwHigh && low[JpyKrw][i] == r.jpyKrwLow
      && close[Jxy][i] == r.jxyClose && high[Jxy][i] == r.jxyHigh && low[Jxy][i] == r.jxyLow
    ensures CrossColumns(close, high, low, n)
  {
    var jkC, jkH, jkL, jxC, jxH, jxL := [], [], [], [], [], [];
    var i := 0;
    while i < n
      invariant 0 <= i <= n
      invariant |jkC| == i && |jkH| == i && |jkL| == i && |jxC| == i && |jxH| == i && |jxL| == i
      invariant forall j :: 0 <= j < i ==>
        var r := DerivedAt(HlcAt(close0, high0, low0, UsdJpy, j), HlcAt(close0, high0, low0, UsdKrw, j));
        && jkC[j] == r.jpyKrwClose && jkH[j] == r.jpyKrwHigh && jkL[j] == r.jpyKrwLow
        && jxC[j] == r.jxyClose && jxH[j] == r.jxyHigh && jxL[j] == r.jxyLow
    {
      var r := DerivedAt(HlcAt(close0, high0, low0, UsdJpy, i), HlcAt(close0, high0, low0, UsdKrw, i));
      jkC, jkH, jkL := jkC + [r.jpyKrwClose], jkH + [r.jpyKrwHigh], jkL + [r.jpyKrwLow];
      jxC, jxH, jxL := jxC + [r.jxyClose], jxH + [r.jxyHigh], jxL + [r.jxyLow];
      i := i + 1;
    }
    close := close0[JpyKrw := jkC][Jxy := jxC];
    high := high0[JpyKrw := jkH][Jxy := jxH];
    low := low0[JpyKrw := jkL][Jxy := jxL];
    assert close[UsdJpy] == close0[UsdJpy] && high[UsdJpy] == high0[UsdJpy] && low[UsdJpy] == low0[UsdJpy];
    assert close[UsdKrw] == close0[UsdKrw] && high[UsdKrw] == high0[UsdKrw] && low[UsdKrw] == low0[UsdKrw];
  }

  /**
   * A quote request's outcome: the price fields the response offers, in the
   * order `regularMarketPrice`, `price`, `regularPrice`, `bid`, `ask`, or a
   * request that raised.
   */
  datatype QuoteResult = Quoted(fields: seq<Option<Num>>) | QuoteFailed

  /** `a || b || ... || 0`: the first truthy field, else 0. */
  function FirstTruthy(fields: seq<Option<Num>>): (p: Num)
    ensures p == Zero || JsTruthy(p)
    ensures (forall i :: 0 <= i < |fields| ==> !JsTruthyOpt(fields[i])) ==> p == Zero
    ensures forall i ::
      (0 <= i < |fields| && JsTruthyOpt(fields[i]) && forall j :: 0 <= j < i ==> !JsTruthyOpt(fields[j]))
      ==> p == fields[i].value
  {
    if |fields| == 0 then Zero
    else
      var tail := fields[1..];
      var rest := FirstTruthy(tail);
      forall i | 1 <= i < |fields| && JsTruthyOpt(fields[i]) && forall j :: 0 <= j < i ==> !JsTruthyOpt(fields[j])
        ensures rest == fields[i].value
      {
        assert tail[i - 1] == fields[i];
        assert forall j :: 0 <= j < i - 1 ==> tail[j] == fields[j + 1];
      }
      assert (forall i :: 0 <= i < |fields| ==> !JsTruthyOpt(fields[i])) ==>
        forall i :: 0 <= i < |tail| ==> !JsTruthyOpt(tail[i]);
      OrJs(fields[0], rest)
  }

  /** The last close of the pair's array when the array is non-empty and that close is positive. */
  function LastCloseFallback(close: map<string, seq<Num>>, key: string): (r: Option<Num>)
    ensures r.Some? <==> key in close && |close[key]| > 0 && Positive(close[key][|close[key]| - 1])
    ensures r.Some? ==> r.value == close[key][|close[key]| - 1]
  {
    if key in close && |close[key]| > 0 && Positive(close[key][|close[key]| - 1])
    then Some(close[key][|close[key]| - 1]) else None
  }

  /** A pair's current price: a positive quote price, else a positive last close, else none. */
  function PriceOf(q: QuoteResult, close: map<string, seq<Num>>, key: string): (r: Option<Num>)
    ensures r.Some? ==> Positive(r.value)
    ensures q.Quoted? && Positive(FirstTruthy(q.fields)) ==> r == Some(FirstTruthy(q.fields))
    ensures !(q.Quoted? && Positive(FirstTruthy(q.fields))) ==> r == LastCloseFallback(close, key)
  {
    match q
    case Quoted(fields) =>
      var price := FirstTruthy(fields);
      if JsTruthy(price) && Gt(price, Zero) then Some(price) else LastCloseFallback(close, key)
    case QuoteFailed => LastCloseFallback(close, key)
  }

  /** `currentPrices` holds the price of every pair that has one, and nothing else. */
  predicate PricesOf(cp: map<string, Num>, keys: seq<string>, quotes: seq<QuoteResult>, close: map<string, seq<Num>>)
    requires |quotes| == |keys|
  {
    && (forall k :: k in cp ==> k in keys)
    && forall u :: 0 <= u < |keys| ==>
      && (keys[u] in cp <==> PriceOf(quotes[u], close, keys[u]).Some?)
      && (keys[u] in cp ==> cp[keys[u]] == PriceOf(quotes[u], close, keys[u]).value)
  }

  /** One pass of the quote loop: the quote's price when positive, else a positive last close, else none. */
  method QuotedPrice(key: string, q: QuoteResult, close: map<string, seq<Num>>) returns (price: Option<Num>)
    ensures price == PriceOf(q, close, key)
  {
    price := None;
    match q {
      case Quoted(fields) =>
        var p := FirstTruthy(fields);
        if JsTruthy(p) && Gt(p, Zero) {
          return Some(p);
        }
      case QuoteFailed =>
    }
    if key in close && |close[key]| > 0 {
      var lastClose := close[key][|close[key]| - 1];
      if Gt(lastClose, Zero) {
        price := Some(lastClose);
      }
    }
  }

  /**
   * The quote loop, then the final pass that retries the last close for every
   * pair without a positive price; that pass never changes anything, since a
   * pair without a price has no positive last close either.
   */
  method CurrentPrices(keys: seq<string>, quotes: seq<QuoteResult>, close: map<string, seq<Num>>)
    returns (cp: map<string, Num>)
    requires |quotes| == |keys| && Distinct(keys)
    ensures PricesOf(cp, keys, quotes, close)
  {
    cp := map[];
    var t := 0;
    while t < |keys|
      invariant 0 <= t <= |keys|
      invariant forall k :: k in cp ==> k in keys[..t]
      invariant forall u :: 0 <= u < t ==>
        && (keys[u] in cp <==> PriceOf(quotes[u], close, keys[u]).Some?)
        && (keys[u] in cp ==> cp[keys[u]] == PriceOf(quotes[u], close, keys[u]).value)
    {
      var key := keys[t];
      var price := QuotedPrice(key, quotes[t], close);
      if price.Some? {
        cp := cp[key := price.value];
      }
      assert keys[..t + 1] == keys[..t] + [key];
      t := t + 1;
    }
    assert keys[..t] == keys;
    ghost var quoted := cp;
    t := 0;
    while t < |keys|
      invariant 0 <= t <= |keys| && cp == quoted
    {
      var key := keys[t];
      if !(key in cp && JsTruthy(cp[key])) || !Gt(cp[key], Zero) {
        if key in close && |close[key]| > 0 {
          var lastClose := close[key][|close[key]| - 1];
          if Gt(lastClose, Zero) {
            cp := cp[key := lastClose];
          }
        }
      }
      t := t + 1;
    }
  }

  /**
   * The current JXY and JPY_KRW: from the current USD/JPY and USD/KRW prices
   * when both are positive; else from the last closes of both arrays when
   * both are non-empty and positive; else neither is set.
   */
  method CurrentCrossRates(cp0: map<string, Num>, close: map<string, seq<Num>>) returns (cp: map<string, Num>)
    ensures PositiveIn(cp0, UsdJpy) && PositiveIn(cp0, UsdKrw) ==>
      cp == cp0[Jxy := Div(Hundred, cp0[UsdJpy])][JpyKrw := Div(cp0[UsdKrw], cp0[UsdJpy])]
    ensures !(PositiveIn(cp0, UsdJpy) && PositiveIn(cp0, UsdKrw)) ==>
      var j, k := LastCloseFallback(close, UsdJpy), LastCloseFallback(close, UsdKrw);
      cp == if j.Some? && k.Some? then cp0[Jxy := Div(Hundred, j.value)][JpyKrw := Div(k.value, j.value)] else cp0
  {
    cp := cp0;
    var hasUsdJpy := UsdJpy in cp && JsTruthy(cp[UsdJpy]) && Gt(cp[UsdJpy], Zero);
    var hasUsdKrw := UsdKrw in cp && JsTruthy(cp[UsdKrw]) && Gt(cp[UsdKrw], Zero);
    if hasUsdJpy && hasUsdKrw {
      cp := cp[Jxy := Div(Hundred, cp[UsdJpy])];
      cp := cp[JpyKrw := Div(cp[UsdKrw], cp[UsdJpy])];
    } else {
      var hasUsdJpyClose := UsdJpy in close && |close[UsdJpy]| > 0;
      var hasUsdKrwClose := UsdKrw in close && |close[UsdKrw]| > 0;
      if hasUsdJpyClose && hasUsdKrwClose {
        var usdJpy := close[UsdJpy][|close[UsdJpy]| - 1];
        var usdKrw := close[UsdKrw][|close[UsdKrw]| - 1];
        if Gt(usdJpy, Zero) && Gt(usdKrw, Zero) {
          cp := cp[Jxy := Div(Hundred, usdJpy)];
          cp := cp[JpyKrw := Div(usdKrw, usdJpy)];
        }
      }
    }
  }

  /**
   * With current prices taken from the quotes and last closes, the last-close
   * branch of the cross rates never sets anything: a pair without a price has
   * no positive last close. So JXY and JPY_KRW are set exactly when both
   * USD/JPY and USD/KRW have current prices.
   */
  lemma CrossRateFallbackIsDead(cp: map<string, Num>, keys: seq<string>, quotes: seq<QuoteResult>,
                                close: map<string, seq<Num>>, uj: int, uk: int)
    requires |quotes| == |keys| && PricesOf(cp, keys, quotes, close)
    requires 0 <= uj < |keys| && keys[uj] == UsdJpy && 0 <= uk < |keys| && keys[uk] == UsdKrw
    ensures !(PositiveIn(cp, UsdJpy) && PositiveIn(cp, UsdKrw)) ==>
      !(LastCloseFallback(close, UsdJpy).Some? && LastCloseFallback(close, UsdKrw).Some?)
  {
  }

  /** Every pair has a quote dated `d`, and the last such quote has a positive close. */
  predicate KeptDate(data: seq<seq<HistQuote>>, d: int)
  {
    forall u :: 0 <= u < |data| ==> LastOn(data[u], d).Some? && Positive(HlcOf(LastOn(data[u], d).value).close)
  }

  /** On a grouped date map, the filter keeps a date exactly when every pair has a positive close on it. */
  lemma {:induction false} KeptDateIff(keys: seq<string>, data: seq<seq<HistQuote>>,
                                       dateMap: map<int, map<string, Hlc>>, d: int)
    requires |data| == |keys| > 0
    requires forall d :: d in dateMap <==> DatedIn(data, |data|, d)
    requires forall d, u :: d in dateMap && 0 <= u < |keys| ==> HoldsPair(dateMap, d, keys[u], data[u])
    ensures d in dateMap && CloseValid(dateMap[d], keys) <==> KeptDate(data, d)
  {
    if KeptDate(data, d) {
      assert LastOn(data[0], d).Some?;
      assert DatedIn(data, |data|, d);
      forall u | 0 <= u < |keys|
        ensures keys[u] in dateMap[d] && Positive(dateMap[d][keys[u]].close)
      {
        assert HoldsPair(dateMap, d, keys[u], data[u]);
      }
    }
    if d in dateMap && CloseValid(dateMap[d], keys) {
      forall u | 0 <= u < |data|
        ensures LastOn(data[u], d).Some? && Positive(HlcOf(LastOn(data[u], d).value).close)
      {
        assert HoldsPair(dateMap, d, keys[u], data[u]);
      }
    }
  }

  /** `x || 0` applied twice is applied once. */
  lemma OrZeroIdempotent(x: Option<Num>)
    ensures OrJs(Some(OrJs(x, Zero)), Zero) == OrJs(x, Zero)
  {
  }

  /** The column arrays of pair `keys[u]` hold its close, high and low on each kept date. */
  predicate PairColumns(close: map<string, seq<Num>>, high: map<string, seq<Num>>, low: map<string, seq<Num>>,
                        dates: seq<int>, keys: seq<string>, data: seq<seq<HistQuote>>, u: int)
    requires 0 <= u < |data| && u < |keys|
  {
    && OfLength(close, high, low, keys[u], |dates|)
    && forall n :: 0 <= n < |dates| ==>
      && LastOn(data[u], dates[n]).Some?
      && var h := HlcOf(LastOn(data[u], dates[n]).value);
      close[keys[u]][n] == h.close && high[keys[u]][n] == h.high && low[keys[u]][n] == h.low
  }

  /** The JPY_KRW and JXY arrays hold the values derived from USD/JPY and USD/KRW at each position. */
  predicate CrossColumns(close: map<string, seq<Num>>, high: map<string, seq<Num>>, low: map<string, seq<Num>>, n: int)
  {
    && YenArrays(close, high, low, n) && OfLength(close, high, low, JpyKrw, n) && OfLength(close, high, low, Jxy, n)
    && forall i :: 0 <= i < n ==>
      var r := DerivedAt(HlcAt(close, high, low, UsdJpy, i), HlcAt(close, high, low, UsdKrw, i));
      && close[JpyKrw][i] == r.jpyKrwClose && high[JpyKrw][i] == r.jpyKrwHigh && low[JpyKrw][i] == r.jpyKrwLow
      && close[Jxy][i] == r.jxyClose && high[Jxy][i] == r.jxyHigh && low[Jxy][i] == r.jxyLow
  }

  /** Adding the two derived columns leaves a pair's columns as they were. */
  lemma PairColumnsKept(close0: map<string, seq<Num>>, high0: map<string, seq<Num>>, low0: map<string, seq<Num>>,
                        close: map<string, seq<Num>>, high: map<string, seq<Num>>, low: map<string, seq<Num>>,
                        dates: seq<int>, keys: seq<string>, data: seq<seq<HistQuote>>, u: int)
    requires 0 <= u < |data| && u < |keys| && keys[u] != JpyKrw && keys[u] != Jxy
    requires JpyKrw in close && Jxy in close && close == close0[JpyKrw := close[JpyKrw]][Jxy := close[Jxy]]
    requires JpyKrw in high && Jxy in high && high == high0[JpyKrw := high[JpyKrw]][Jxy := high[Jxy]]
    requires JpyKrw in low && Jxy in low && low == low0[JpyKrw := low[JpyKrw]][Jxy := low[Jxy]]
    requires PairColumns(close0, high0, low0, dates, keys, data, u)
    ensures PairColumns(close, high, low, dates, keys, data, u)
  {
    var k := keys[u];
    assert close[k] == close0[k] && high[k] == high0[k] && low[k] == low0[k];
  }

  /** The tables have a column for each pair, JPY_KRW and JXY, and no other. */
  ghost predicate PeriodKeys(close: map<string, seq<Num>>, high: map<string, seq<Num>>, low: map<string, seq<Num>>,
                             keys: seq<string>)
  {
    forall k :: (k in close <==> k in keys || k == JpyKrw || k == Jxy) && (k in high <==> k in close)
      && (k in low <==> k in close)
  }

  /** The pair list holds USD/JPY and USD/KRW and not the two derived names. */
  predicate YenPairs(keys: seq<string>)
  {
    UsdJpy in keys && UsdKrw in keys && JpyKrw !in keys && Jxy !in keys
  }

  /** The column arrays of every pair hold its values on the kept dates. */
  lemma {:induction false} ColumnsOfKeptDates(keys: seq<string>, data: seq<seq<HistQuote>>,
                                              dateMap: map<int, map<string, Hlc>>, dates: seq<int>,
                                              close: map<string, seq<Num>>, high: map<string, seq<Num>>,
                                              low: map<string, seq<Num>>, u: int)
    requires |data| == |keys| > 0 && 0 <= u < |keys|
    requires forall d :: d in dateMap <==> DatedIn(data, |data|, d)
    requires forall d, u :: d in dateMap && 0 <= u < |keys| ==> HoldsPair(dateMap, d, keys[u], data[u])
    requires forall d :: d in dates ==> d in dateMap && CloseValid(dateMap[d], keys)
    requires Filled3(close, high, low, keys[u], dateMap, dates, |dates|)
    ensures PairColumns(close, high, low, dates, keys, data, u)
  {
    forall n | 0 <= n < |dates|
      ensures LastOn(data[u], dates[n]).Some?
      ensures var h := HlcOf(LastOn(data[u], dates[n]).value);
        close[keys[u]][n] == h.close && high[keys[u]][n] == h.high && low[keys[u]][n] == h.low
    {
      var d := dates[n];
      assert d in dates;
      assert HoldsPair(dateMap, d, keys[u], data[u]);
      var q := LastOn(data[u], d).value;
      OrZeroIdempotent(q.close);
      OrZeroIdempotent(q.high);
      OrZeroIdempotent(q.low);
    }
  }

  /**
   * Grouping, filtering and the column arrays of `fetchPeriodData`;
   * `data[u]` holds the daily quotes of `keys[u]`.
   */
  method PairArrays(keys: seq<string>, data: seq<seq<HistQuote>>)
    returns (dates: seq<int>, close: map<string, seq<Num>>, high: map<string, seq<Num>>, low: map<string, seq<Num>>)
    requires |data| == |keys| && Distinct(keys) && |keys| > 0
    ensures StrictlyIncreasing(dates)
    ensures forall d :: d in dates <==> KeptDate(data, d)
    ensures forall u :: 0 <= u < |keys| ==> PairColumns(close, high, low, dates, keys, data, u)
    ensures KeyedBy(close, high, low, keys)
  {
    var dateMap, order := GroupByDate(keys, data);
    dates := ValidDates(dateMap, order, keys);
    forall d ensures d in dates <==> KeptDate(data, d) {
      KeptDateIff(keys, data, dateMap, d);
    }
    close, high, low := BuildArrays(keys, dateMap, dates);
    forall u | 0 <= u < |keys|
      ensures PairColumns(close, high, low, dates, keys, data, u)
    {
      ColumnsOfKeptDates(keys, data, dateMap, dates, close, high, low, u);
    }
  }

  /** `PairArrays`, then the derived JPY_KRW and JXY arrays. */
  method AssembleArrays(keys: seq<string>, data: seq<seq<HistQuote>>)
    returns (dates: seq<int>, close: map<string, seq<Num>>, high: map<string, seq<Num>>, low: map<string, seq<Num>>)
    requires |data| == |keys| && Distinct(keys) && YenPairs(keys)
    ensures StrictlyIncreasing(dates)
    ensures forall d :: d in dates <==> KeptDate(data, d)
    ensures forall u :: 0 <= u < |keys| ==> PairColumns(close, high, low, dates, keys, data, u)
    ensures CrossColumns(close, high, low, |dates|)
    ensures PeriodKeys(close, high, low, keys)
  {
    var close0, high0, low0;
    dates, close0, high0, low0 := PairArrays(keys, data);
    var uj :| 0 <= uj < |keys| && keys[uj] == UsdJpy;
    var uk :| 0 <= uk < |keys| && keys[uk] == UsdKrw;
    assert PairColumns(close0, high0, low0, dates, keys, data, uj);
    assert PairColumns(close0, high0, low0, dates, keys, data, uk);
    close, high, low := DeriveArrays(close0, high0, low0, |dates|);
    forall u | 0 <= u < |keys|
      ensures PairColumns(close, high, low, dates, keys, data, u)
    {
      PairColumnsKept(close0, high0, low0, close, high, low, dates, keys, data, u);
    }
  }

  /** The assembled period data: column arrays, their dates, and the current prices. */
  datatype Assembled = Assembled(
    close: map<string, seq<Num>>, high: map<string, seq<Num>>, low: map<string, seq<Num>>,
    dates: seq<int>, currentPrices: map<string, Num>)

  /** The current prices: each pair's price, and JXY and JPY_KRW exactly when USD/JPY and USD/KRW both have one. */
  predicate AssembledPrices(cp: map<string, Num>, keys: seq<string>, quotes: seq<QuoteResult>,
                            close: map<string, seq<Num>>)
    requires |quotes| == |keys|
  {
    && (forall u :: 0 <= u < |keys| ==>
      && (keys[u] in cp <==> PriceOf(quotes[u], close, keys[u]).Some?)
      && (keys[u] in cp ==> cp[keys[u]] == PriceOf(quotes[u], close, keys[u]).value))
    && (Jxy in cp <==> UsdJpy in cp && UsdKrw in cp)
    && (JpyKrw in cp <==> UsdJpy in cp && UsdKrw in cp)
    && (Jxy in cp ==> cp[Jxy] == Div(Hundred, cp[UsdJpy]) && cp[JpyKrw] == Div(cp[UsdKrw], cp[UsdJpy]))
  }

  /**
   * The post-download part of `fetchPeriodData`: `data[u]` and `quotes[u]`
   * are the daily quotes and the quote response of the pair `keys[u]`
   * (the seven pairs of `AllPairs` in the source).
   */
  method AssemblePeriodData(keys: seq<string>, data: seq<seq<HistQuote>>, quotes: seq<QuoteResult>)
    returns (r: Assembled)
    requires |data| == |keys| && |quotes| == |keys| && Distinct(keys) && YenPairs(keys)
    ensures StrictlyIncreasing(r.dates)
    ensures forall d :: d in r.dates <==> KeptDate(data, d)
    ensures forall u :: 0 <= u < |keys| ==> PairColumns(r.close, r.high, r.low, r.dates, keys, data, u)
    ensures CrossColumns(r.close, r.high, r.low, |r.dates|)
    ensures PeriodKeys(r.close, r.high, r.low, keys)
    ensures AssembledPrices(r.currentPrices, keys, quotes, r.close)
    ensures forall k :: k in r.currentPrices ==> k in keys || k == JpyKrw || k == Jxy
  {
    var dates, close, high, low := AssembleArrays(keys, data);
    var cp := CurrentPrices(keys, quotes, close);
    var uj :| 0 <= uj < |keys| && keys[uj] == UsdJpy;
    var uk :| 0 <= uk < |keys| && keys[uk] == UsdKrw;
    CrossRateFallbackIsDead(cp, keys, quotes, close, uj, uk);
    ghost var cp0 := cp;
    cp := CurrentCrossRates(cp, close);
    forall u | 0 <= u < |keys|
      ensures && (keys[u] in cp <==> PriceOf(quotes[u], close, keys[u]).Some?)
              && (keys[u] in cp ==> cp[keys[u]] == PriceOf(quotes[u], close, keys[u]).value)
    {
      assert keys[u] in cp <==> keys[u] in cp0;
    }
    r := Assembled(close, high, low, dates, cp);
  }

  /** The seven quoted pairs meet the requirements of the assembly. */
  lemma AllPairsAssemble()
    ensures Distinct(AllPairs) && YenPairs(AllPairs)
  {
    AllPairsDistinct();
    assert AllPairs == ["EUR_USD", "USD_JPY", "GBP_USD", "USD_CAD", "USD_SEK", "USD_CHF", "USD_KRW"];
  }
}
