// The records of the investment ledger shared by the Python database layer
// and the serverless function: the value kinds a submitted record can hold,
// the cleaning rule applied to each value before insertion, the required
// fields, a holding and a sell record.

module Investments {
  import opened Numbers
  import opened Seqs

  /**
   * A value of a submitted record: null (None, null or undefined), a
   * floating-point number, an integer, a string, a boolean, a date or time
   * (carrying the ISO text its conversion yields), or any other object
   * (carrying its string conversion, None where that conversion raises).
   */
  datatype Value =
    | Null
    | Number(n: Num)
    | Integer(i: int)
    | Text(s: string)
    | Flag(b: bool)
    | Moment(iso: string)
    | Other(shown: Option<string>)

  type Record = map<string, Value>

  /** The one field that may be stored as null. */
  const Memo: string := "memo"

  const RequiredFields: seq<string> :=
    ["investment_number", "purchase_date", "exchange_rate", "purchase_krw", "exchange_name"]

  /** A value as cleaning leaves it: null only under `memo`, finite numbers, plain scalars and strings. */
  predicate Storable(key: string, v: Value)
  {
    match v
    case Null => key == Memo
    case Number(n) => n.Fin?
    case Moment(_) => false
    case Other(_) => false
    case _ => true
  }

  /**
   * The cleaning of one value, None where the value is dropped: null is kept
   * under `memo` only, NaN and the infinities are dropped, dates become their
   * ISO text, other objects their string conversion unless it raises.
   */
  function CleanValue(key: string, v: Value): (r: Option<Value>)
    ensures r.Some? ==> Storable(key, r.value)
    ensures Storable(key, v) ==> r == Some(v)
    ensures v.Null? ==> (r.Some? <==> key == Memo)
    ensures v.Number? ==> (r.Some? <==> v.n.Fin?)
    ensures v.Moment? ==> r == Some(Text(v.iso))
    ensures v.Other? ==> r == if v.shown.Some? then Some(Text(v.shown.value)) else None
  {
    match v
    case Null => if key == Memo then Some(Null) else None
    case Number(n) => if n.Fin? then Some(v) else None
    case Moment(iso) => Some(Text(iso))
    case Other(shown) => if shown.Some? then Some(Text(shown.value)) else None
    case _ => Some(v)
  }

  /** Cleaning a cleaned value keeps it. */
  lemma CleanValueIdempotent(key: string, v: Value)
    ensures CleanValue(key, v).Some? ==> CleanValue(key, CleanValue(key, v).value) == CleanValue(key, v)
  {
  }

  /** A record cleaned value by value: the keys whose values survive, with their cleaned values. */
  function CleanRecord(data: Record): (r: Record)
    ensures forall k :: k in r <==> k in data && CleanValue(k, data[k]).Some?
    ensures forall k :: k in r ==> Storable(k, r[k]) && Some(r[k]) == CleanValue(k, data[k])
  {
    map k | k in data && CleanValue(k, data[k]).Some? :: CleanValue(k, data[k]).value
  }

  /**
   * The cleaning loop of `save_jpy_investment` and `cleanData`: each entry
   * examined once and either copied, converted or skipped.
   */
  method CleanData(data: Record) returns (cleaned: Record)
    ensures cleaned == CleanRecord(data)
  {
    cleaned := map[];
    var todo := data.Keys;
    while todo != {}
      invariant todo <= data.Keys
      invariant forall k :: k in cleaned <==> k in data && k !in todo && CleanValue(k, data[k]).Some?
      invariant forall k :: k in cleaned ==> Some(cleaned[k]) == CleanValue(k, data[k])
      decreases todo
    {
      var key :| key in todo;
      match data[key] {
        case Null =>
          if key == Memo {
            cleaned := cleaned[key := Null];
          }
        case Number(n) =>
          if n.Fin? {
            cleaned := cleaned[key := Number(n)];
          }
        case Moment(iso) =>
          cleaned := cleaned[key := Text(iso)];
        case Other(shown) =>
          if shown.Some? {
            cleaned := cleaned[key := Text(shown.value)];
          }
        case _ =>
          cleaned := cleaned[key := data[key]];
      }
      todo := todo - {key};
    }
    assert cleaned.Keys == CleanRecord(data).Keys;
  }

  /** Every required field is present. */
  predicate RequiredPresent(r: Record)
  {
    forall f :: f in RequiredFields ==> f in r
  }

  /** The fields of `fields` a record lacks, in their order. */
  function MissingFrom(fields: seq<string>, r: Record): (m: seq<string>)
    ensures forall f :: f in m <==> f in fields && f !in r
    ensures |m| <= |fields|
  {
    if |fields| == 0 then []
    else (if fields[0] in r then [] else [fields[0]]) + MissingFrom(fields[1..], r)
  }

  /** The required fields a record lacks: none exactly when every required field is present. */
  function Missing(r: Record): (m: seq<string>)
    ensures forall f :: f in m <==> f in RequiredFields && f !in r
    ensures |m| == 0 <==> RequiredPresent(r)
  {
    var m := MissingFrom(RequiredFields, r);
    assert |m| > 0 ==> m[0] in m;
    m
  }

  /**
   * A stored holding: its number, purchase rate, amount held (the column
   * may be null), purchase cost in won and exchange name.
   */
  datatype Holding = Holding(number: int, exchangeRate: real, amount: Option<real>, purchaseKrw: real,
                             exchangeName: string)

  /** A sell record as written to the sell log. */
  datatype SellRecord = SellRecord(investmentId: string, investmentNumber: int, sellDate: string,
                                   purchaseRate: real, sellRate: real, sellAmount: real, sellKrw: real,
                                   profitKrw: real, exchangeName: string)

  /** A sell record's won proceeds and profit agree with its rates and amount. */
  predicate Consistent(r: SellRecord)
  {
    r.sellKrw == r.sellAmount * r.sellRate && r.profitKrw == (r.sellRate - r.purchaseRate) * r.sellAmount
  }

  /**
   * The sell record of selling `sellAmount` of holding `id` at `sellRate` at
   * time `now`: the proceeds in won, and the profit as the proceeds less the
   * purchase cost of the amount sold.
   */
  function RecordOf(id: string, h: Holding, sellRate: real, sellAmount: real, now: string): (r: SellRecord)
    ensures Consistent(r)
    ensures r.investmentId == id && r.investmentNumber == h.number && r.sellDate == now
    ensures r.purchaseRate == h.exchangeRate && r.sellRate == sellRate && r.sellAmount == sellAmount
    ensures r.exchangeName == h.exchangeName
    ensures r.profitKrw == r.sellKrw - h.exchangeRate * sellAmount
  {
    SellRecord(id, h.number, now, h.exchangeRate, sellRate, sellAmount, sellAmount * sellRate,
               (sellRate - h.exchangeRate) * sellAmount, h.exchangeName)
  }

  /** A holding after a partial sale: `remaining` held, at a purchase cost of `remaining` at the purchase rate. */
  function Reduced(h: Holding, remaining: real): (h': Holding)
    ensures h'.amount == Some(remaining) && h'.purchaseKrw == remaining * h.exchangeRate
    ensures h'.number == h.number && h'.exchangeRate == h.exchangeRate && h'.exchangeName == h.exchangeName
  {
    h.(amount := Some(remaining), purchaseKrw := remaining * h.exchangeRate)
  }

  /** The purchase cost matches the amount held at the purchase rate. */
  predicate CostBasisKept(h: Holding)
  {
    h.amount.Some? && h.purchaseKrw == h.amount.value * h.exchangeRate
  }

  /**
   * A partial sale splits the purchase cost: the reduced holding's cost plus
   * the cost of the amount sold (proceeds less profit) is the former cost.
   */
  lemma {:induction false} PartialSaleSplitsCost(id: string, h: Holding, sellRate: real, sellAmount: real,
                                                 now: string)
    requires CostBasisKept(h)
    ensures var h' := Reduced(h, h.amount.value - sellAmount);
      var r := RecordOf(id, h, sellRate, sellAmount, now);
      CostBasisKept(h') && h'.purchaseKrw + (r.sellKrw - r.profitKrw) == h.purchaseKrw
  {
    var a := h.amount.value;
    assert (a - sellAmount) * h.exchangeRate + h.exchangeRate * sellAmount == a * h.exchangeRate;
  }
}
