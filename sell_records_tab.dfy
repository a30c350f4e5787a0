// The sell-records page: the date-range filter over the sell log and the
// summary figures computed from the records it keeps. Dates are times in
// milliseconds; a bound that is not set is None.

module SellRecordsTab {
  import opened Numbers
  import opened Seqs

  /** One day, the amount the end bound is moved forward so that the end day is included. */
  const Day: int := 86_400_000

  /** A sell record as the page reads it; the profit column may be null. */
  datatype Sale = Sale(sellTime: int, purchaseRate: real, sellRate: real, sellAmount: real, sellKrw: real,
                       profitKrw: Option<real>)

  /** The filter's test: not before the start, and before the day after the end. */
  predicate InRange(s: Sale, start: Option<int>, end: Option<int>)
  {
    (start.None? || s.sellTime >= start.value) && (end.None? || s.sellTime < end.value + Day)
  }

  /**
   * The records the page shows: all of them when neither bound is set,
   * otherwise those in range.
   */
  function FilterSales(sales: seq<Sale>, start: Option<int>, end: Option<int>): (r: seq<Sale>)
    ensures start.None? && end.None? ==> r == sales
    ensures forall i :: 0 <= i < |r| ==> r[i] in sales && InRange(r[i], start, end)
    ensures forall i :: 0 <= i < |sales| && InRange(sales[i], start, end) ==> sales[i] in r
  {
    if start.None? && end.None? then sales
    else Filter(sales, (s: Sale) => InRange(s, start, end))
  }

  /**
   * The early return for no bounds is the filter itself: with neither bound
   * set, every record is in range and the filter keeps them all.
   */
  lemma NoBoundsIsFilter(sales: seq<Sale>)
    ensures FilterSales(sales, None, None) == Filter(sales, (s: Sale) => InRange(s, None, None))
  {
    FilterAll(sales, (s: Sale) => InRange(s, None, None));
  }

  /**
   * The filter keeps the log's order and multiplicity: the records of a
   * concatenated log are those of its first part followed by those of its
   * second part.
   */
  lemma FilterSalesAppend(a: seq<Sale>, b: seq<Sale>, start: Option<int>, end: Option<int>)
    ensures FilterSales(a + b, start, end) == FilterSales(a, start, end) + FilterSales(b, start, end)
  {
    if !(start.None? && end.None?) {
      FilterAppend(a, b, (s: Sale) => InRange(s, start, end));
    }
  }

  /** A single record is shown exactly when it is in range. */
  lemma FilterSalesSingle(s: Sale, start: Option<int>, end: Option<int>)
    ensures FilterSales([s], start, end) == if InRange(s, start, end) then [s] else []
  {
    if !(start.None? && end.None?) {
      assert [s][1..] == [];
    }
  }

  /** A record sold on the end day itself is kept. */
  lemma EndDayIncluded(s: Sale, end: int)
    requires end <= s.sellTime < end + Day
    ensures InRange(s, None, Some(end)) && !InRange(s, None, Some(end - Day))
  {
  }

  /** `profit_krw || 0`. */
  function ProfitOf(s: Sale): real
  {
    if s.profitKrw.Some? then s.profitKrw.value else 0.0
  }

  /** Σ purchase_rate × sell_amount: what the sold amounts cost. */
  function TotalPurchase(sales: seq<Sale>): real
  {
    if |sales| == 0 then 0.0 else TotalPurchase(sales[..|sales| - 1]) + sales[|sales| - 1].purchaseRate * sales[|sales| - 1].sellAmount
  }

  /** Σ sell_amount. */
  function TotalAmount(sales: seq<Sale>): real
  {
    if |sales| == 0 then 0.0 else TotalAmount(sales[..|sales| - 1]) + sales[|sales| - 1].sellAmount
  }

  /** Σ (profit_krw || 0). */
  function TotalProfit(sales: seq<Sale>): real
  {
    if |sales| == 0 then 0.0 else TotalProfit(sales[..|sales| - 1]) + ProfitOf(sales[|sales| - 1])
  }

  /** Σ sell_krw: the proceeds. */
  function TotalProceeds(sales: seq<Sale>): real
  {
    if |sales| == 0 then 0.0 else TotalProceeds(sales[..|sales| - 1]) + sales[|sales| - 1].sellKrw
  }

  datatype Summary = Summary(totalPurchaseKrw: real, totalSellAmount: real, totalProfitKrw: real, profitRate: real)

  /**
   * The summary figures: all zero for no records; otherwise the sums, and
   * the profit as a percentage of the cost when the cost is positive, else 0.
   */
  function Summarise(sales: seq<Sale>): (r: Summary)
    ensures |sales| == 0 ==> r == Summary(0.0, 0.0, 0.0, 0.0)
    ensures r.totalPurchaseKrw == TotalPurchase(sales) && r.totalSellAmount == TotalAmount(sales)
    ensures r.totalProfitKrw == TotalProfit(sales)
    ensures r.totalPurchaseKrw > 0.0 ==> (r.profitRate > 0.0 <==> r.totalProfitKrw > 0.0)
    ensures r.totalPurchaseKrw > 0.0 ==> (r.profitRate == 0.0 <==> r.totalProfitKrw == 0.0)
    ensures r.totalPurchaseKrw <= 0.0 ==> r.profitRate == 0.0
  {
    if |sales| == 0 then Summary(0.0, 0.0, 0.0, 0.0)
    else
      var purchase := TotalPurchase(sales);
      var profit := TotalProfit(sales);
      var rate := if purchase > 0.0 then profit / purchase * 100.0 else 0.0;
      assert purchase > 0.0 ==> profit == rate / 100.0 * purchase;
      Summary(purchase, TotalAmount(sales), profit, rate)
  }

  /** A record as the ledger writes it: proceeds and profit computed from its rates and amount. */
  predicate Logged(s: Sale)
  {
    s.sellKrw == s.sellAmount * s.sellRate && s.profitKrw == Some((s.sellRate - s.purchaseRate) * s.sellAmount)
  }

  /**
   * Over records the ledger wrote, the total profit is the proceeds less the
   * cost: the summary's profit and cost describe the same sales.
   */
  lemma {:induction false} ProfitIsProceedsLessCost(sales: seq<Sale>)
    requires forall i :: 0 <= i < |sales| ==> Logged(sales[i])
    ensures TotalProfit(sales) == TotalProceeds(sales) - TotalPurchase(sales)
  {
    if |sales| > 0 {
      var init := sales[..|sales| - 1];
      assert forall i :: 0 <= i < |init| ==> init[i] == sales[i];
      ProfitIsProceedsLessCost(init);
      var s := sales[|sales| - 1];
      assert ProfitOf(s) == s.sellKrw - s.purchaseRate * s.sellAmount;
    }
  }

  /** A total over two runs of records is the sum of their totals, so filtered subsets add up. */
  lemma {:induction false} TotalsAppend(a: seq<Sale>, b: seq<Sale>)
    ensures TotalPurchase(a + b) == TotalPurchase(a) + TotalPurchase(b)
    ensures TotalAmount(a + b) == TotalAmount(a) + TotalAmount(b)
    ensures TotalProfit(a + b) == TotalProfit(a) + TotalProfit(b)
    decreases |b|
  {
    if |b| == 0 {
      assert a + b == a;
    } else {
      var b' := b[..|b| - 1];
      assert (a + b)[..|a + b| - 1] == a + b';
      assert (a + b)[|a + b| - 1] == b[|b| - 1];
      TotalsAppend(a, b');
    }
  }

  /**
   * The rate of return shown beside a record: the sell rate's gain over the
   * purchase rate in percent, 0 when the purchase rate is 0.
   */
  function RecordProfitRate(s: Sale): (r: real)
    ensures s.purchaseRate == 0.0 ==> r == 0.0
    ensures s.purchaseRate > 0.0 ==> (r > 0.0 <==> s.sellRate > s.purchaseRate)
    ensures s.purchaseRate > 0.0 ==> (r == 0.0 <==> s.sellRate == s.purchaseRate)
  {
    if s.purchaseRate != 0.0 then
      var r := (s.sellRate - s.purchaseRate) / s.purchaseRate * 100.0;
      assert s.sellRate - s.purchaseRate == r / 100.0 * s.purchaseRate;
      r
    else 0.0
  }

  /** On a record the ledger wrote with a positive amount and rate, the rate and the profit have the same sign. */
  lemma {:induction false} RecordRateMatchesProfit(s: Sale)
    requires Logged(s) && s.sellAmount > 0.0 && s.purchaseRate > 0.0
    ensures RecordProfitRate(s) > 0.0 <==> ProfitOf(s) > 0.0
  {
    var d := s.sellRate - s.purchaseRate;
    assert ProfitOf(s) == d * s.sellAmount;
    if d > 0.0 {
      assert d * s.sellAmount > 0.0;
    } else {
      assert (-d) * s.sellAmount >= 0.0;
    }
  }
}
