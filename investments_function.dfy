// The serverless investments handler: the preflight and missing-client
// gate, investment creation with its required-field check, and the sell
// branch, which is the same for the dollar and the yen tables. Database
// calls are modelled by their outcomes.

module InvestmentsFunction {
  import opened Numbers
  import opened Investments

  /** A remainder at or below 0.01 closes the holding. */
  const DeleteThreshold: real := 0.01

  datatype Verb = Options | Get | Post | Delete

  /**
   * A response: its status code, the `remaining` field where the body has
   * one, and the missing required fields a 400 on creation lists.
   */
  datatype Response = Response(status: int, remaining: Option<real>, missing: seq<string>)

  function Status(code: int): Response
  {
    Response(code, None, [])
  }

  /**
   * The handler's first two checks: a preflight is answered with 200, any
   * other request without a database client with 503; None lets the request
   * through.
   */
  function Gate(verb: Verb, client: bool): (r: Option<Response>)
    ensures verb == Options ==> r == Some(Status(200))
    ensures verb != Options ==> (r.Some? <==> !client) && (r.Some? ==> r.value == Status(503))
  {
    if verb == Options then Some(Status(200))
    else if !client then Some(Status(503))
    else None
  }

  /**
   * Creating an investment: the body is cleaned, a 400 lists exactly the
   * required fields that did not survive; otherwise
   * the cleaned record is inserted, and a failed insert throws (500).
   */
  method CreateInvestment(client: bool, body: Record, insertOk: bool) returns (resp: Response, sent: Option<Record>)
    ensures !client ==> resp == Status(503) && sent.None?
    ensures client && !RequiredPresent(CleanRecord(body)) ==>
      && resp.status == 400 && sent.None?
      && (forall f :: f in resp.missing <==> f in RequiredFields && f !in CleanRecord(body))
    ensures client && RequiredPresent(CleanRecord(body)) ==>
      sent == Some(CleanRecord(body)) && resp == Status(if insertOk then 200 else 500)
  {
    if !client {
      return Status(503), None;
    }
    var cleaned := CleanData(body);
    var missing := Missing(cleaned);
    if |missing| > 0 {
      return Response(400, None, missing), None;
    }
    sent := Some(cleaned);
    resp := Status(if insertOk then 200 else 500);
  }

  /** JavaScript truthiness of an optional number from a request body: present and not 0. */
  predicate Truthy(x: Option<real>)
  {
    x.Some? && x.value != 0.0
  }

  /** `investment.usd_amount || 0` (or `jpy_amount`): a null or zero amount reads as 0. */
  function CurrentAmount(h: Holding): (a: real)
    ensures h.amount.Some? ==> a == h.amount.value
    ensures h.amount.None? ==> a == 0.0
  {
    if h.amount.Some? && h.amount.value != 0.0 then h.amount.value else 0.0
  }

  /** One currency's investment table and sell-record table. */
  class InvestmentTable {
    var holdings: map<string, Holding>
    var sellRecords: seq<SellRecord>

    /** Every logged sale carries proceeds and profit computed from its rates and amount. */
    predicate Valid()
      reads this
    {
      forall i :: 0 <= i < |sellRecords| ==> Consistent(sellRecords[i])
    }

    constructor(holdings0: map<string, Holding>)
      ensures Valid()
      ensures holdings == holdings0 && sellRecords == []
    {
      holdings, sellRecords := holdings0, [];
    }

    /**
     * The sell branch at time `now`: 503 without a client, 400 when the rate
     * or the amount is missing or 0, 404 for an unknown holding, 400 with the
     * amount held when selling more. Otherwise the sale is inserted (a
     * failure throws: 500, nothing changes); then a remainder of at most 0.01
     * deletes the holding (200 with 0) and a larger one becomes its amount
     * and cost basis (200 with the remainder). A failed delete or update
     * throws (500) with the sale already logged.
     */
    method Sell(client: bool, id: string, sellRate: Option<real>, sellAmount: Option<real>, now: string,
                insertOk: bool, writeOk: bool) returns (resp: Response)
      requires Valid()
      modifies this
      ensures Valid()
      ensures !client ==> resp == Status(503)
      ensures client && !(Truthy(sellRate) && Truthy(sellAmount)) ==> resp == Status(400)
      ensures client && Truthy(sellRate) && Truthy(sellAmount) && id !in old(holdings) ==> resp == Status(404)
      ensures resp.status != 200 && resp.status != 500 ==>
        holdings == old(holdings) && sellRecords == old(sellRecords)
      ensures client && Truthy(sellRate) && Truthy(sellAmount) && id in old(holdings) ==>
        var h := old(holdings)[id];
        var current := CurrentAmount(h);
        var rate, amount := sellRate.value, sellAmount.value;
        var remaining := current - amount;
        && (amount > current ==> resp == Response(400, Some(current), []))
        && (amount <= current && !insertOk ==>
              resp == Status(500) && holdings == old(holdings) && sellRecords == old(sellRecords))
        && (amount <= current && insertOk ==>
              && sellRecords == old(sellRecords) + [RecordOf(id, h, rate, amount, now)]
              && (!writeOk ==> resp == Status(500) && holdings == old(holdings))
              && (writeOk && remaining <= DeleteThreshold ==>
                    resp == Response(200, Some(0.0), []) && holdings == old(holdings) - {id})
              && (writeOk && remaining > DeleteThreshold ==>
                    && resp == Response(200, Some(remaining), [])
                    && holdings == old(holdings)[id := Reduced(h, remaining)]))
    {
      if !client {
        return Status(503);
      }
      if !Truthy(sellRate) || !Truthy(sellAmount) {
        return Status(400);
      }
      var rate, amount := sellRate.value, sellAmount.value;
      if id !in holdings {
        return Status(404);
      }
      var investment := holdings[id];
      var currentAmount := CurrentAmount(investment);
      if amount > currentAmount {
        return Response(400, Some(currentAmount), []);
      }
      if !insertOk {
        return Status(500);
      }
      sellRecords := sellRecords + [RecordOf(id, investment, rate, amount, now)];
      var remaining := currentAmount - amount;
      if !writeOk {
        return Status(500);
      }
      if remaining <= DeleteThreshold {
        holdings := holdings - {id};
        return Response(200, Some(0.0), []);
      }
      holdings := holdings[id := Reduced(investment, remaining)];
      resp := Response(200, Some(remaining), []);
    }
  }
}
