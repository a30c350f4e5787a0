// The Python database layer of the yen investments: inserting a cleaned
// investment record, and settling a sale against a holding with its entry in
// the sell log. The database client is modelled by its outcomes: whether a
// client exists, and whether each write succeeds.

module JpyDb {
  import opened Numbers
  import opened Investments

  /** A remainder at or below one yen closes the holding. */
  const DeleteThreshold: real := 1.0

  /**
   * `save_jpy_investment`: without a client nothing is sent; otherwise the
   * cleaned record is sent when every required field survived cleaning, and
   * the result is whether it was sent and the insert succeeded.
   */
  method SaveJpyInvestment(client: bool, data: Record, insertOk: bool) returns (ok: bool, sent: Option<Record>)
    ensures !client ==> sent.None?
    ensures client ==> (sent.Some? <==> RequiredPresent(CleanRecord(data)))
    ensures sent.Some? ==> sent.value == CleanRecord(data)
    ensures ok <==> sent.Some? && insertOk
  {
    if !client {
      return false, None;
    }
    var cleaned := CleanData(data);
    if |Missing(cleaned)| > 0 {
      return false, None;
    }
    return insertOk, Some(cleaned);
  }

  /** The dictionary `sell_jpy_investment` returns, without its message. */
  datatype SellOutcome = SellOutcome(success: bool, remaining: real)

  /** The yen holdings and the yen sell log. */
  class JpyLedger {
    var holdings: map<string, Holding>
    var sellRecords: seq<SellRecord>

    /** Every logged sale carries proceeds and profit computed from its rates and amount. */
    predicate Valid()
      reads this
    {
      forall i :: 0 <= i < |sellRecords| ==> Consistent(sellRecords[i])
    }

    constructor(holdings0: map<string, Holding>)
      ensures Valid()
      ensures holdings == holdings0 && sellRecords == []
    {
      holdings, sellRecords := holdings0, [];
    }

    /**
     * `sell_jpy_investment` at time `now`. `saveOk` is whether the sell
     * record is saved and `writeOk` whether the following delete or update
     * succeeds. Without a client, for an unknown holding, or for a holding
     * whose amount is null (the comparison raises), nothing changes and the
     * remainder reported is 0. Selling more than is held changes nothing and
     * reports the amount held; so does a failed record save. Otherwise the
     * sale is logged; a remainder of at most one yen deletes the holding and
     * reports 0, a larger one becomes the holding's amount and cost basis.
     * A failed final write reports failure with 0, the sale staying logged.
     */
    method SellJpyInvestment(client: bool, id: string, sellRate: real, sellAmount: real, now: string,
                             saveOk: bool, writeOk: bool) returns (out: SellOutcome)
      requires Valid()
      modifies this
      ensures Valid()
      ensures !client || id !in old(holdings) || old(holdings)[id].amount.None? ==>
        out == SellOutcome(false, 0.0) && holdings == old(holdings) && sellRecords == old(sellRecords)
      ensures client && id in old(holdings) && old(holdings)[id].amount.Some? ==>
        var h := old(holdings)[id];
        var current := h.amount.value;
        var remaining := current - sellAmount;
        && (sellAmount > current || !saveOk ==>
              out == SellOutcome(false, current) && holdings == old(holdings) && sellRecords == old(sellRecords))
        && (sellAmount <= current && saveOk ==>
              && sellRecords == old(sellRecords) + [RecordOf(id, h, sellRate, sellAmount, now)]
              && (!writeOk ==> out == SellOutcome(false, 0.0) && holdings == old(holdings))
              && (writeOk && remaining <= DeleteThreshold ==>
                    out == SellOutcome(true, 0.0) && holdings == old(holdings) - {id})
              && (writeOk && remaining > DeleteThreshold ==>
                    out == SellOutcome(true, remaining) && holdings == old(holdings)[id := Reduced(h, remaining)]))
    {
      if !client || id !in holdings {
        return SellOutcome(false, 0.0);
      }
      var investment := holdings[id];
      if investment.amount.None? {
        return SellOutcome(false, 0.0);
      }
      var currentAmount := investment.amount.value;
      if sellAmount > currentAmount {
        return SellOutcome(false, currentAmount);
      }
      var sellData := RecordOf(id, investment, sellRate, sellAmount, now);
      if !saveOk {
        return SellOutcome(false, currentAmount);
      }
      sellRecords := sellRecords + [sellData];
      var remaining := currentAmount - sellAmount;
      if !writeOk {
        return SellOutcome(false, 0.0);
      }
      if remaining <= DeleteThreshold {
        holdings := holdings - {id};
        return SellOutcome(true, 0.0);
      }
      holdings := holdings[id := Reduced(investment, remaining)];
      out := SellOutcome(true, remaining);
    }
  }
}
