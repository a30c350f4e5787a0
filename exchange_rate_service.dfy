// The point-rate fetchers of the TypeScript service: the shared memory
// cache, the acceptance rule of each source, the bounded retry loop of the
// Investing.com scrapers and the fallback combination of the four rates.
// Requests, HTML selection and delays are inputs; `parseFloat` is a
// parameter (NaN where the text is not a number).

module ExchangeRateService {
  import opened Numbers
  import opened Text

  /** A `{ data, time }` cache entry; `time` in milliseconds. */
  datatype Entry = Entry(data: Option<Num>, time: Option<int>)

  const Empty: Entry := Entry(None, None)

  /** Three minutes, in milliseconds. */
  const CacheTtl: int := 180 * 1000

  const MaxRetries: nat := 3

  /** `isCacheValid`: data truthy (so neither null, 0 nor NaN), time set and not 0, and younger than the TTL. */
  predicate IsCacheValid(e: Entry, now: int)
  {
    JsTruthyOpt(e.data) && e.time.Some? && e.time.value != 0 && now - e.time.value < CacheTtl
  }

  /** A cached 0 is never served, however recent. */
  lemma ZeroNeverValid(t: Option<int>, now: int)
    ensures !IsCacheValid(Entry(Some(Zero), t), now)
  {
  }

  /** The Bithumb response: the request raised, or the `closing_price` field if present. */
  datatype UsdtResponse = UsdtRaised | UsdtPayload(closingPrice: Option<string>)

  /** `priceStr ? parseFloat(priceStr) : null`: null for a missing or empty string; NaN is kept. */
  function UsdtPrice(resp: UsdtResponse, parseFloat: string -> Num): (r: Option<Num>)
    ensures r.Some? <==> resp.UsdtPayload? && resp.closingPrice.Some? && resp.closingPrice.value != ""
    ensures r.Some? ==> r.value == parseFloat(resp.closingPrice.value)
  {
    match resp
    case UsdtRaised => None
    case UsdtPayload(p) => if p.Some? && p.value != "" then Some(parseFloat(p.value)) else None
  }

  /** The Hana page: the request raised, or the texts of the first and of the fallback selector. */
  datatype HanaPage = HanaRaised | HanaNodes(primary: Option<string>, alt: Option<string>)

  /** `num ? parseFloat(num) : null` on the normalised cell text. */
  function ParsedCell(text: string, parseFloat: string -> Num): (r: Option<Num>)
    ensures r.Some? <==> NormaliseJs(text) != ""
    ensures r.Some? ==> r.value == parseFloat(NormaliseJs(text))
  {
    var num := NormaliseJs(text);
    if num != "" then Some(parseFloat(num)) else None
  }

  /** The Hana range check: a number strictly between 1000 and 2000. */
  predicate HanaAccepted(rate: Option<Num>)
  {
    JsTruthyOpt(rate) && Gt(rate.value, Fin(1000.0)) && Lt(rate.value, Fin(2000.0))
  }

  /** What `fetchHanaUsdKrwRate` reports after a miss: the first node's text, else the fallback's, if in range. */
  function HanaResult(page: HanaPage, parseFloat: string -> Num): (r: Option<Num>)
    ensures r.Some? ==> Gt(r.value, Fin(1000.0)) && Lt(r.value, Fin(2000.0)) && r.value.Fin?
    ensures page.HanaRaised? || (page.primary.None? && page.alt.None?) ==> r.None?
    ensures page.HanaNodes? && page.primary.Some? ==>
      var rate := ParsedCell(page.primary.value, parseFloat); r == if HanaAccepted(rate) then rate else None
    ensures page.HanaNodes? && page.primary.None? && page.alt.Some? ==>
      var rate := ParsedCell(page.alt.value, parseFloat); r == if HanaAccepted(rate) then rate else None
  {
    match page
    case HanaRaised => None
    case HanaNodes(primary, alt) =>
      if primary.None? && alt.None? then None
      else
        var text := if primary.Some? then primary.value else alt.value;
        var rate := ParsedCell(text, parseFloat);
        if HanaAccepted(rate) then rate else None
  }

  /**
   * One request of an Investing.com scraper: it raised (a 403 or anything
   * else), or it answered with a status, whether the body is the
   * "Just a moment" challenge page, and the text of the selected cell.
   */
  datatype Attempt = Threw | Answered(challenge: bool, status: int, cell: Option<string>)

  /** The rate one attempt yields: an ordinary answer whose cell parses to a truthy number. */
  function AttemptRate(a: Attempt, parseFloat: string -> Num): (r: Option<Num>)
    ensures r.Some? ==> JsTruthy(r.value)
    ensures r.Some? <==> (a.Answered? && !a.challenge && a.status == 200 && a.cell.Some?
      && JsTruthyOpt(ParsedCell(a.cell.value, parseFloat)))
  {
    match a
    case Threw => None
    case Answered(challenge, status, cell) =>
      if challenge || status != 200 || cell.None? then None
      else
        var rate := ParsedCell(cell.value, parseFloat);
        if JsTruthyOpt(rate) then rate else None
  }

  /** The position of the first attempt that yields a rate, or -1. */
  function FirstSuccess(attempts: seq<Attempt>, parseFloat: string -> Num): (k: int)
    ensures -1 <= k < |attempts|
    ensures k >= 0 ==> AttemptRate(attempts[k], parseFloat).Some?
    ensures forall j :: 0 <= j < |attempts| && (k < 0 || j < k) ==> AttemptRate(attempts[j], parseFloat).None?
  {
    if |attempts| == 0 then -1
    else if AttemptRate(attempts[0], parseFloat).Some? then 0
    else
      var k := FirstSuccess(attempts[1..], parseFloat);
      assert forall j :: 1 <= j < |attempts| ==> attempts[j] == attempts[1..][j - 1];
      if k < 0 then -1 else k + 1
  }

  /** The first success is the first attempt that yields a rate after attempts that yield none. */
  lemma FirstSuccessAt(attempts: seq<Attempt>, parseFloat: string -> Num, n: int)
    requires 0 <= n < |attempts| && AttemptRate(attempts[n], parseFloat).Some?
    requires forall j :: 0 <= j < n ==> AttemptRate(attempts[j], parseFloat).None?
    ensures FirstSuccess(attempts, parseFloat) == n
  {
  }

  /** Without any successful attempt there is no first success. */
  lemma NoSuccess(attempts: seq<Attempt>, parseFloat: string -> Num)
    requires forall j :: 0 <= j < |attempts| ==> AttemptRate(attempts[j], parseFloat).None?
    ensures FirstSuccess(attempts, parseFloat) == -1
  {
  }

  /** The outcome of the retry loop: at most `MaxRetries` requests, stopping at the first success. */
  function RetryResult(attempts: seq<Attempt>, parseFloat: string -> Num): (r: (Option<Num>, nat))
    requires |attempts| == MaxRetries
  {
    var k := FirstSuccess(attempts, parseFloat);
    if k < 0 then (None, MaxRetries) else (AttemptRate(attempts[k], parseFloat), k + 1)
  }

  /**
   * The retry loop from attempt `i + 1` on: the first of the remaining
   * attempts that yields a rate ends it, and null follows the last.
   */
  function RetryFrom(attempts: seq<Attempt>, parseFloat: string -> Num, i: nat): (Option<Num>, nat)
    requires i <= |attempts|
    decreases |attempts| - i
  {
    if i == |attempts| then (None, |attempts|)
    else
      var rate := AttemptRate(attempts[i], parseFloat);
      if rate.Some? then (rate, i + 1) else RetryFrom(attempts, parseFloat, i + 1)
  }

  /** Stepping through the attempts one by one stops at the first success. */
  lemma {:induction false} RetryFromFirstSuccess(attempts: seq<Attempt>, parseFloat: string -> Num, i: nat)
    requires i <= |attempts|
    requires forall j :: 0 <= j < i ==> AttemptRate(attempts[j], parseFloat).None?
    ensures var k := FirstSuccess(attempts, parseFloat);
      RetryFrom(attempts, parseFloat, i) == if k < 0 then (None, |attempts|) else (AttemptRate(attempts[k], parseFloat), k + 1)
    decreases |attempts| - i
  {
    if i == |attempts| {
      NoSuccess(attempts, parseFloat);
    } else if AttemptRate(attempts[i], parseFloat).Some? {
      FirstSuccessAt(attempts, parseFloat, i);
    } else {
      RetryFromFirstSuccess(attempts, parseFloat, i + 1);
    }
  }

  /**
   * One pass of the retry loop's body: the request's answer is checked for
   * a challenge page, a 200 status and a rate cell, and the cell is parsed;
   * None means the loop goes on.
   */
  method TryAttempt(a: Attempt, parseFloat: string -> Num) returns (rate: Option<Num>)
    ensures rate == AttemptRate(a, parseFloat)
  {
    rate := None;
    match a {
      case Threw =>
      case Answered(challenge, status, cell) =>
        if !challenge && status == 200 && cell.Some? {
          var parsed := ParsedCell(cell.value, parseFloat);
          if JsTruthyOpt(parsed) {
            rate := parsed;
          }
        }
    }
  }

  /**
   * The retry loop shared by both Investing.com scrapers: `attempts[i]` is
   * what request `i + 1` would get. A challenge page, a non-200 status, a
   * missing cell, an unparsable cell or an exception all lead to the next
   * attempt, and to null after the last.
   */
  method InvestingAttempts(attempts: seq<Attempt>, parseFloat: string -> Num) returns (rate: Option<Num>, tries: nat)
    requires |attempts| == MaxRetries
    ensures (rate, tries) == RetryResult(attempts, parseFloat)
    ensures 1 <= tries <= MaxRetries
    ensures rate.Some? ==> JsTruthy(rate.value)
  {
    RetryFromFirstSuccess(attempts, parseFloat, 0);
    var attempt := 1;
    while attempt <= MaxRetries
      invariant 1 <= attempt <= MaxRetries + 1
      invariant RetryFrom(attempts, parseFloat, 0) == RetryFrom(attempts, parseFloat, attempt - 1)
    {
      var parsed := TryAttempt(attempts[attempt - 1], parseFloat);
      if parsed.Some? {
        return parsed, attempt;
      }
      // An exception, 403 or not, also leads to the next attempt: the loop
      // goes on after it, and gives null after the last.
      attempt := attempt + 1;
    }
    return None, MaxRetries;
  }

  /** The rates `fetchCurrentRates` reports. */
  datatype CurrentRates = CurrentRates(investingUsd: Num, hanaRate: Num, usdtKrw: Num, investingJpy: Num)

  /**
   * `fetchCurrentRates`: Investing.com USD/KRW falls back to Hana and then
   * to 0, Hana falls back to that result, the other two fall back to 0.
   */
  function CombineRates(investingUsd: Option<Num>, hana: Option<Num>, usdt: Option<Num>, investingJpy: Option<Num>)
    : (r: CurrentRates)
    ensures r.investingUsd == OrJs(investingUsd, OrJs(hana, Zero))
    ensures r.hanaRate == OrJs(hana, r.investingUsd)
    ensures r.usdtKrw == OrJs(usdt, Zero) && r.investingJpy == OrJs(investingJpy, Zero)
  {
    var finalInvestingUsd := OrJs(investingUsd, OrJs(hana, Zero));
    CurrentRates(finalInvestingUsd, OrJs(hana, OrJs(Some(finalInvestingUsd), Zero)), OrJs(usdt, Zero), OrJs(investingJpy, Zero))
  }

  /**
   * The two USD/KRW rates are 0 exactly when both sources failed, are never
   * NaN, and coincide when only one source delivered.
   */
  lemma {:induction false} CombinedUsdRates(investingUsd: Option<Num>, hana: Option<Num>, usdt: Option<Num>,
                                            investingJpy: Option<Num>)
    ensures var r := CombineRates(investingUsd, hana, usdt, investingJpy);
      && (r.investingUsd == Zero <==> !JsTruthyOpt(investingUsd) && !JsTruthyOpt(hana))
      && (r.hanaRate == Zero <==> !JsTruthyOpt(investingUsd) && !JsTruthyOpt(hana))
      && !r.investingUsd.NaN? && !r.hanaRate.NaN? && !r.usdtKrw.NaN? && !r.investingJpy.NaN?
      && (JsTruthyOpt(investingUsd) != JsTruthyOpt(hana) ==> r.investingUsd == r.hanaRate)
      && (JsTruthyOpt(investingUsd) && JsTruthyOpt(hana) ==> r.investingUsd == investingUsd.value && r.hanaRate == hana.value)
  {
  }

  /** The module-level `cache` object. */
  class RateCache {
    var usdt: Entry
    var hana: Entry
    var investingUsd: Entry
    var investingJpy: Entry

    /** Every stored value is truthy, and a stored Hana rate lies strictly between 1000 and 2000. */
    predicate Valid()
      reads this
    {
      && (usdt.data.Some? ==> JsTruthy(usdt.data.value))
      && (hana.data.Some? ==> HanaAccepted(hana.data))
      && (investingUsd.data.Some? ==> JsTruthy(investingUsd.data.value))
      && (investingJpy.data.Some? ==> JsTruthy(investingJpy.data.value))
    }

    constructor()
      ensures Valid()
      ensures usdt == Empty && hana == Empty && investingUsd == Empty && investingJpy == Empty
    {
      usdt, hana, investingUsd, investingJpy := Empty, Empty, Empty, Empty;
    }

    /**
     * `fetchUsdtKrwPrice` at time `now`: the parsed price is returned, NaN
     * included, but stored only when truthy.
     */
    method FetchUsdtKrwPrice(now: int, resp: UsdtResponse, parseFloat: string -> Num) returns (r: Option<Num>)
      requires Valid()
      modifies this
      ensures Valid()
      ensures IsCacheValid(old(usdt), now) ==> r == old(usdt).data && usdt == old(usdt)
      ensures !IsCacheValid(old(usdt), now) ==>
        && r == UsdtPrice(resp, parseFloat)
        && usdt == if JsTruthyOpt(r) then Entry(r, Some(now)) else old(usdt)
      ensures hana == old(hana) && investingUsd == old(investingUsd) && investingJpy == old(investingJpy)
    {
      if IsCacheValid(usdt, now) {
        return usdt.data;
      }
      match resp {
        case UsdtRaised =>
          return None;
        case UsdtPayload(priceStr) =>
          r := if priceStr.Some? && priceStr.value != "" then Some(parseFloat(priceStr.value)) else None;
          if JsTruthyOpt(r) {
            usdt := Entry(r, Some(now));
          }
      }
    }

    /** `fetchHanaUsdKrwRate` at time `now`: only a rate in range is returned and stored. */
    method FetchHanaUsdKrwRate(now: int, page: HanaPage, parseFloat: string -> Num) returns (r: Option<Num>)
      requires Valid()
      modifies this
      ensures Valid()
      ensures IsCacheValid(old(hana), now) ==> r == old(hana).data && hana == old(hana)
      ensures !IsCacheValid(old(hana), now) ==>
        && r == HanaResult(page, parseFloat)
        && hana == if r.Some? then Entry(r, Some(now)) else old(hana)
      ensures usdt == old(usdt) && investingUsd == old(investingUsd) && investingJpy == old(investingJpy)
    {
      if IsCacheValid(hana, now) {
        return hana.data;
      }
      match page {
        case HanaRaised =>
          return None;
        case HanaNodes(primary, alt) =>
          if primary.None? {
            if alt.None? {
              return None;
            }
            var rate := ParsedCell(alt.value, parseFloat);
            if HanaAccepted(rate) {
              hana := Entry(rate, Some(now));
              return rate;
            }
            return None;
          }
          var rate := ParsedCell(primary.value, parseFloat);
          if HanaAccepted(rate) {
            hana := Entry(rate, Some(now));
            return rate;
          }
          return None;
      }
    }

    /** `fetchInvestingUsdKrwRate` at time `now`: the retry loop's rate is returned and stored. */
    method FetchInvestingUsdKrwRate(now: int, attempts: seq<Attempt>, parseFloat: string -> Num)
      returns (r: Option<Num>, tries: nat)
      requires Valid() && |attempts| == MaxRetries
      modifies this
      ensures Valid()
      ensures IsCacheValid(old(investingUsd), now) ==>
        r == old(investingUsd).data && tries == 0 && investingUsd == old(investingUsd)
      ensures !IsCacheValid(old(investingUsd), now) ==>
        && (r, tries) == RetryResult(attempts, parseFloat)
        && investingUsd == if r.Some? then Entry(r, Some(now)) else old(investingUsd)
      ensures usdt == old(usdt) && hana == old(hana) && investingJpy == old(investingJpy)
    {
      if IsCacheValid(investingUsd, now) {
        return investingUsd.data, 0;
      }
      r, tries := InvestingAttempts(attempts, parseFloat);
      if r.Some? {
        investingUsd := Entry(r, Some(now));
      }
    }

    /**
     * `fetchInvestingJpyKrwRate` at time `now`: the cell is per yen, so the
     * rate returned and stored is 100 times the retry loop's rate.
     */
    method FetchInvestingJpyKrwRate(now: int, attempts: seq<Attempt>, parseFloat: string -> Num)
      returns (r: Option<Num>, tries: nat)
      requires Valid() && |attempts| == MaxRetries
      modifies this
      ensures Valid()
      ensures IsCacheValid(old(investingJpy), now) ==>
        r == old(investingJpy).data && tries == 0 && investingJpy == old(investingJpy)
      ensures !IsCacheValid(old(investingJpy), now) ==>
        && var (rate, n) := RetryResult(attempts, parseFloat);
        && tries == n
        && r == (if rate.Some? then Some(Mul(rate.value, Hundred)) else None)
        && investingJpy == if r.Some? then Entry(r, Some(now)) else old(investingJpy)
      ensures usdt == old(usdt) && hana == old(hana) && investingUsd == old(investingUsd)
    {
      if IsCacheValid(investingJpy, now) {
        return investingJpy.data, 0;
      }
      var rate;
      rate, tries := InvestingAttempts(attempts, parseFloat);
      if rate.Some? {
        var rate100 := Mul(rate.value, Hundred);
        MulHundredTruthy(rate.value);
        investingJpy := Entry(Some(rate100), Some(now));
        return Some(rate100), tries;
      }
      return None, tries;
    }
  }

  /** A truthy rate stays truthy when scaled to 100 yen. */
  lemma MulHundredTruthy(x: Num)
    requires JsTruthy(x)
    ensures JsTruthy(Mul(x, Hundred))
  {
  }
}
