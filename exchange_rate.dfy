// The point-rate fetchers of the Python service: four time-limited cache
// entries, the rules for when a fetched value is stored, and the text
// clean-up of scraped cells. The network and HTML parsing are inputs: a
// response is what the request and the selector produced.

module ExchangeRate {
  import opened Numbers
  import opened Text

  /** A `{'data': ..., 'time': ...}` cache entry; `time` in seconds. */
  datatype Entry = Entry(data: Option<Num>, time: Option<real>)

  const Empty: Entry := Entry(None, None)

  /** Default time to live, used for USDT; the scraped sources use 180 seconds. */
  const CacheTtl: real := 120.0
  const ScrapeTtl: real := 180.0

  /** `_is_cache_valid`: both fields set and fewer than `ttl` seconds elapsed; a stored 0.0 counts. */
  predicate IsCacheValid(e: Entry, now: real, ttl: real)
  {
    e.data.Some? && e.time.Some? && now - e.time.value < ttl
  }

  /** A value stored at `t` is served until `ttl` seconds later, whatever the value is. */
  lemma StoredEntryValid(x: Num, t: real, now: real, ttl: real)
    ensures IsCacheValid(Entry(Some(x), Some(t)), now, ttl) <==> now < t + ttl
  {
  }

  /** The Bithumb response: the request or its JSON raised, or the `closing_price` field if present. */
  datatype UsdtResponse = UsdtRaised | UsdtPayload(closingPrice: Option<string>)

  /** A scraped page: the request raised, or the text of the selected node, None when no node matched. */
  datatype Page = PageRaised | Node(text: Option<string>)

  /**
   * The value `fetch_usdt_krw_price` computes after a miss; `parse` is
   * `float()` on a string, None where it raises.
   */
  function UsdtResult(resp: UsdtResponse, parse: string -> Option<Num>): (r: Option<Num>)
    ensures resp.UsdtRaised? ==> r.None?
    ensures resp.UsdtPayload? && resp.closingPrice.None? ==> r.None?
    ensures resp.UsdtPayload? && resp.closingPrice.Some? ==> r == parse(resp.closingPrice.value)
  {
    match resp
    case UsdtRaised => None
    case UsdtPayload(p) => if p.Some? then parse(p.value) else None
  }

  /** The value a scraper computes after a miss: the node text without commas and won signs, parsed. */
  function ScrapedResult(page: Page, parse: string -> Option<Num>): (r: Option<Num>)
    ensures page.PageRaised? || page.text.None? ==> r.None?
    ensures page.Node? && page.text.Some? ==> r == parse(NormalisePy(page.text.value))
  {
    match page
    case PageRaised => None
    case Node(t) => if t.Some? then parse(NormalisePy(t.value)) else None
  }

  /** The next entry of a scraped source: any parsed float is stored, 0.0 included. */
  function ScrapedEntry(e: Entry, r: Option<Num>, now: real): (e': Entry)
    ensures r.Some? ==> e' == Entry(r, Some(now))
    ensures r.None? ==> e' == e
  {
    if r.Some? then Entry(r, Some(now)) else e
  }

  /** The module-level cache entries of the four fetchers. */
  class RateCaches {
    var usdt: Entry
    var hana: Entry
    var investingUsd: Entry
    var investingJpy: Entry

    /**
     * Every entry has both fields set or neither, and the USDT entry never
     * holds 0.0.
     */
    predicate Valid()
      reads this
    {
      && (usdt.data.Some? <==> usdt.time.Some?) && (hana.data.Some? <==> hana.time.Some?)
      && (investingUsd.data.Some? <==> investingUsd.time.Some?)
      && (investingJpy.data.Some? <==> investingJpy.time.Some?)
      && (usdt.data.Some? ==> PyTruthy(usdt.data.value))
    }

    constructor()
      ensures Valid()
      ensures usdt == Empty && hana == Empty && investingUsd == Empty && investingJpy == Empty
    {
      usdt, hana, investingUsd, investingJpy := Empty, Empty, Empty, Empty;
    }

    /**
     * `fetch_usdt_krw_price` at time `now`: a valid entry is returned
     * without a request; otherwise the fetched value is returned, and stored
     * only when it is truthy (not 0.0; NaN is truthy in Python).
     */
    method FetchUsdtKrwPrice(now: real, resp: UsdtResponse, parse: string -> Option<Num>) returns (r: Option<Num>)
      requires Valid()
      modifies this
      ensures Valid()
      ensures IsCacheValid(old(usdt), now, CacheTtl) ==> r == old(usdt).data && usdt == old(usdt)
      ensures !IsCacheValid(old(usdt), now, CacheTtl) ==>
        && r == UsdtResult(resp, parse)
        && usdt == if r.Some? && PyTruthy(r.value) then Entry(r, Some(now)) else old(usdt)
      ensures hana == old(hana) && investingUsd == old(investingUsd) && investingJpy == old(investingJpy)
    {
      if IsCacheValid(usdt, now, CacheTtl) {
        return usdt.data;
      }
      match resp {
        case UsdtRaised =>
          r := None;
        case UsdtPayload(priceStr) =>
          r := if priceStr.Some? then parse(priceStr.value) else None;
          if r.Some? && PyTruthy(r.value) {
            usdt := Entry(r, Some(now));
          }
      }
    }

    /** `fetch_hana_usd_krw_rate` at time `now`, with a 180-second lifetime. */
    method FetchHanaUsdKrwRate(now: real, page: Page, parse: string -> Option<Num>) returns (r: Option<Num>)
      requires Valid()
      modifies this
      ensures Valid()
      ensures IsCacheValid(old(hana), now, ScrapeTtl) ==> r == old(hana).data && hana == old(hana)
      ensures !IsCacheValid(old(hana), now, ScrapeTtl) ==>
        r == ScrapedResult(page, parse) && hana == ScrapedEntry(old(hana), r, now)
      ensures usdt == old(usdt) && investingUsd == old(investingUsd) && investingJpy == old(investingJpy)
    {
      if IsCacheValid(hana, now, ScrapeTtl) {
        return hana.data;
      }
      r := ScrapedResult(page, parse);
      if r.Some? {
        hana := Entry(r, Some(now));
      }
    }

    /** `fetch_investing_usd_krw_rate` at time `now`, with a 180-second lifetime. */
    method FetchInvestingUsdKrwRate(now: real, page: Page, parse: string -> Option<Num>) returns (r: Option<Num>)
      requires Valid()
      modifies this
      ensures Valid()
      ensures IsCacheValid(old(investingUsd), now, ScrapeTtl) ==>
        r == old(investingUsd).data && investingUsd == old(investingUsd)
      ensures !IsCacheValid(old(investingUsd), now, ScrapeTtl) ==>
        r == ScrapedResult(page, parse) && investingUsd == ScrapedEntry(old(investingUsd), r, now)
      ensures usdt == old(usdt) && hana == old(hana) && investingJpy == old(investingJpy)
    {
      if IsCacheValid(investingUsd, now, ScrapeTtl) {
        return investingUsd.data;
      }
      r := ScrapedResult(page, parse);
      if r.Some? {
        investingUsd := Entry(r, Some(now));
      }
    }

    /** `fetch_investing_jpy_krw_rate` at time `now`, with a 180-second lifetime. */
    method FetchInvestingJpyKrwRate(now: real, page: Page, parse: string -> Option<Num>) returns (r: Option<Num>)
      requires Valid()
      modifies this
      ensures Valid()
      ensures IsCacheValid(old(investingJpy), now, ScrapeTtl) ==>
        r == old(investingJpy).data && investingJpy == old(investingJpy)
      ensures !IsCacheValid(old(investingJpy), now, ScrapeTtl) ==>
        r == ScrapedResult(page, parse) && investingJpy == ScrapedEntry(old(investingJpy), r, now)
      ensures usdt == old(usdt) && hana == old(hana) && investingUsd == old(investingUsd)
    {
      if IsCacheValid(investingJpy, now, ScrapeTtl) {
        return investingJpy.data;
      }
      r := ScrapedResult(page, parse);
      if r.Some? {
        investingJpy := Entry(r, Some(now));
      }
    }
  }

  /** A fetched 0.0 from a scraped source is stored and then served until the entry expires. */
  lemma ScrapedZeroServed(e: Entry, t: real, now: real)
    ensures var e' := ScrapedEntry(e, Some(Zero), t);
      e'.data == Some(Zero) && (IsCacheValid(e', now, ScrapeTtl) <==> now < t + ScrapeTtl)
  {
  }
}
