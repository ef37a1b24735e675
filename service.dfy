/**
 * The currency access layer: a service object that caches the currency list
 * for five minutes, sorts a freshly fetched list by name, and forwards
 * conversion requests. The remote reply and the clock reading are inputs.
 */
module Service {
  import opened Wrappers
  import opened Text
  import opened Amount
  import opened Types
  import opened Api

  /** What the HTTP client hands back: a delivered body, or a rejection the error interceptor mapped. */
  datatype Reply<T> = Delivered(body: T) | Rejected(failure: TransportFailure)

  /** The two ways a service call fails: the transport rejected it, or the body's `meta.code` was not 200. */
  datatype ServiceError = Transport(error: ApiError) | BadMetaCode(message: string)
  {
    /** The `message` property of the thrown value. */
    function Message(): string
    {
      match this
      case Transport(e) => e.message
      case BadMetaCode(m) => m
    }
  }

  /** The time-to-live of the cached list, in milliseconds. */
  const CacheDuration: int := 5 * 60 * 1000
  const SuccessCode: int := 200
  const FetchFailedMessage: string := "Failed to fetch currencies"
  const ConvertFailedMessage: string := "Failed to convert currency"

  /** The comparison the list is sorted by: names in string order. */
  predicate NameLe(a: Currency, b: Currency)
  {
    LessEq(a.name, b.name)
  }

  predicate SortedByName(s: seq<Currency>)
  {
    forall i, j :: 0 <= i < j < |s| ==> NameLe(s[i], s[j])
  }

  /** Each neighbour pair of `s[lo..hi]` is in order. */
  predicate NeighboursInOrder(s: seq<Currency>, lo: int, hi: int)
    requires 0 <= lo <= hi <= |s|
  {
    forall k :: lo <= k < hi - 1 ==> NameLe(s[k], s[k + 1])
  }

  /** Neighbour order extends to every pair, because the string order is transitive. */
  lemma {:induction false} NeighboursGiveSorted(s: seq<Currency>)
    requires NeighboursInOrder(s, 0, |s|)
    ensures SortedByName(s)
  {
    if |s| > 1 {
      var p := s[..|s| - 1];
      assert NeighboursInOrder(p, 0, |p|) by {
        forall k | 0 <= k < |p| - 1 ensures NameLe(p[k], p[k + 1]) { assert p[k] == s[k] && p[k + 1] == s[k + 1]; }
      }
      NeighboursGiveSorted(p);
      forall i, j | 0 <= i < j < |s| ensures NameLe(s[i], s[j]) {
        if j < |s| - 1 {
          assert p[i] == s[i] && p[j] == s[j];
        } else if i < j - 1 {
          assert p[i] == s[i] && p[j - 1] == s[j - 1];
          LessEqTransitive(s[i].name, s[j - 1].name, s[j].name);
        }
      }
    }
  }

  /**
   * `Array.prototype.sort` with the name comparator, on the response array in
   * place: afterwards the array is sorted by name and holds the same elements.
   * Written as an insertion sort by neighbour swaps.
   */
  method SortByName(a: array<Currency>)
    modifies a
    ensures SortedByName(a[..])
    ensures multiset(a[..]) == multiset(old(a[..]))
  {
    var i := 0;
    while i < a.Length
      invariant 0 <= i <= a.Length
      invariant NeighboursInOrder(a[..], 0, i)
      invariant multiset(a[..]) == multiset(old(a[..]))
    {
      SinkInto(a, i);
      i := i + 1;
    }
    NeighboursGiveSorted(a[..]);
  }

  /** One insertion step: moves `a[i]` left past every larger name, so that `a[..i + 1]` is in order. */
  method SinkInto(a: array<Currency>, i: nat)
    requires i < a.Length
    requires NeighboursInOrder(a[..], 0, i)
    modifies a
    ensures NeighboursInOrder(a[..], 0, i + 1)
    ensures multiset(a[..]) == multiset(old(a[..]))
  {
    var j := i;
    while j > 0 && !NameLe(a[j - 1], a[j])
      invariant 0 <= j <= i
      invariant forall k :: 0 <= k < j - 1 ==> NameLe(a[k], a[k + 1])
      invariant forall k :: j <= k < i ==> NameLe(a[k], a[k + 1])
      invariant 0 < j < i ==> NameLe(a[j - 1], a[j + 1])
      invariant multiset(a[..]) == multiset(old(a[..]))
    {
      LessEqTotal(a[j - 1].name, a[j].name);
      Swap(a, j - 1, j);
      j := j - 1;
    }
  }

  /** Exchanges two neighbours; the array keeps its elements. */
  method Swap(a: array<Currency>, i: nat, j: nat)
    requires i < j < a.Length
    modifies a
    ensures a[i] == old(a[j]) && a[j] == old(a[i])
    ensures forall k :: 0 <= k < a.Length && k != i && k != j ==> a[k] == old(a[k])
    ensures multiset(a[..]) == multiset(old(a[..]))
  {
    a[i], a[j] := a[j], a[i];
  }

  /** The request of a currency list. */
  const CurrenciesRequest: RequestConfig := RequestConfig("/currencies", None)

  /** After the request interceptor, the currency-list request carries the key as its only parameter. */
  lemma CurrenciesRequestWithKey(key: string)
    requires key != ""
    ensures InjectApiKey(CurrenciesRequest, Some(key)) == RequestConfig("/currencies", Some(map[ApiKeyParam := Str(key)]))
  {
  }

  /** A conversion query; `amount` is `parseFloat` of the amount field. */
  datatype ConversionRequest = ConversionRequest(from: string, to: string, amount: Number)

  /** The request of a conversion: `/convert` with `from`, `to` and `amount` as query parameters. */
  function ConvertRequest(request: ConversionRequest): (r: RequestConfig)
    ensures r.url == "/convert" && r.params.Some?
    ensures r.params.value.Keys == {"from", "to", "amount"}
    ensures r.params.value["from"] == Str(request.from) && r.params.value["to"] == Str(request.to)
    ensures r.params.value["amount"] == Num(request.amount)
  {
    RequestConfig("/convert", Some(map["from" := Str(request.from), "to" := Str(request.to), "amount" := Num(request.amount)]))
  }

  /** After the request interceptor, a conversion request with a key carries exactly the query and the key. */
  lemma ConvertRequestWithKey(request: ConversionRequest, key: string)
    requires key != ""
    ensures var p := InjectApiKey(ConvertRequest(request), Some(key)).params.value;
      p.Keys == {"from", "to", "amount", ApiKeyParam} &&
      p["from"] == Str(request.from) && p["to"] == Str(request.to) &&
      p["amount"] == Num(request.amount) && p[ApiKeyParam] == Str(key)
  {
  }

  /** The ten codes offered as popular currencies, in their fixed order. */
  const PopularCodes: seq<string> := ["USD", "EUR", "GBP", "JPY", "AUD", "CAD", "CHF", "CNY", "SEK", "NZD"]

  class CurrencyService {
    var currencyCache: Option<seq<Currency>>
    var cacheTimestamp: int

    /** A cached list is always sorted by name, and an empty cache has timestamp 0. */
    ghost predicate Valid()
      reads this
    {
      (currencyCache.Some? ==> SortedByName(currencyCache.value)) &&
      (currencyCache.None? ==> cacheTimestamp == 0)
    }

    /** The cache answers a request at time `now`: there is a list, and it is younger than the time-to-live. */
    /**
     * The cache-hit test: a list is cached and less than `CacheDuration` ms
     * old. The window is half-open: from the fetch until just before
     * `CacheDuration` has passed the list is served, and from then on it is stale.
     */
    predicate CacheFresh(now: int)
      reads this
      ensures currencyCache.Some? && cacheTimestamp <= now < cacheTimestamp + CacheDuration ==> CacheFresh(now)
      ensures now >= cacheTimestamp + CacheDuration || currencyCache.None? ==> !CacheFresh(now)
    {
      currencyCache.Some? && now - cacheTimestamp < CacheDuration
    }

    constructor ()
      ensures Valid()
      ensures currencyCache == None && cacheTimestamp == 0
    {
      currencyCache := None;
      cacheTimestamp := 0;
    }

    /**
     * `getCurrencies` at clock reading `now`. `reply` is what the fetch of
     * `/currencies` would give; `fetched` says whether the fetch was made.
     * A fresh cache is returned as it is; otherwise the fetched list, sorted,
     * replaces the cache. A failure throws and leaves the cache as it was.
     */
    method GetCurrencies(now: int, reply: Reply<CurrencyResponse>) returns (r: Result<seq<Currency>, ServiceError>, fetched: bool)
      requires Valid()
      modifies this
      ensures Valid()
      ensures fetched <==> !old(CacheFresh(now))
      ensures !fetched ==>
        r == Success(old(currencyCache).value) &&
        currencyCache == old(currencyCache) && cacheTimestamp == old(cacheTimestamp)
      ensures fetched && reply.Delivered? && reply.body.metaCode == SuccessCode ==>
        r.Success? && SortedByName(r.value) && multiset(r.value) == multiset(reply.body.response) &&
        currencyCache == Some(r.value) && cacheTimestamp == now
      ensures fetched && reply.Rejected? ==>
        r == Failure(Transport(MapError(reply.failure))) &&
        currencyCache == old(currencyCache) && cacheTimestamp == old(cacheTimestamp)
      ensures fetched && reply.Delivered? && reply.body.metaCode != SuccessCode ==>
        r == Failure(BadMetaCode(FetchFailedMessage)) &&
        currencyCache == old(currencyCache) && cacheTimestamp == old(cacheTimestamp)
    {
      if CacheFresh(now) {
        return Success(currencyCache.value), false;
      }
      fetched := true;
      match reply
      case Rejected(failure) =>
        r := Failure(Transport(MapError(failure)));
      case Delivered(body) =>
        if body.metaCode != SuccessCode {
          r := Failure(BadMetaCode(FetchFailedMessage));
        } else {
          var list := body.response;
          var a := new Currency[|list|](i requires 0 <= i < |list| => list[i]);
          assert a[..] == list;
          SortByName(a);
          currencyCache := Some(a[..]);
          cacheTimestamp := now;
          r := Success(a[..]);
        }
    }

    /**
     * `convertCurrency`: the converted value when the reply's `meta.code` is
     * 200; otherwise it throws. It reads no field, so it never touches the cache.
     */
    function ConvertCurrency(reply: Reply<ConversionResponse>): (r: Result<real, ServiceError>)
      ensures r.Success? <==> reply.Delivered? && reply.body.metaCode == SuccessCode
      ensures r.Success? ==> r.value == reply.body.value
      ensures reply.Rejected? ==> r == Failure(Transport(MapError(reply.failure)))
      ensures reply.Delivered? && reply.body.metaCode != SuccessCode ==> r == Failure(BadMetaCode(ConvertFailedMessage))
    {
      match reply
      case Rejected(failure) => Failure(Transport(MapError(failure)))
      case Delivered(body) =>
        if body.metaCode != SuccessCode then Failure(BadMetaCode(ConvertFailedMessage)) else Success(body.value)
    }

    /** `getPopularCurrencies`: ten distinct three-letter codes, starting with USD and EUR. */
    function GetPopularCurrencies(): (r: seq<string>)
      ensures |r| == 10 && r[0] == "USD" && r[1] == "EUR"
      ensures forall i, j :: 0 <= i < j < |r| ==> r[i] != r[j]
      ensures forall i :: 0 <= i < |r| ==> |r[i]| == 3 && forall k :: 0 <= k < 3 ==> 'A' <= r[i][k] <= 'Z'
    {
      PopularCodes
    }

    /** `clearCache`: drops the list and resets the timestamp, so the next request fetches whatever the clock says. */
    method ClearCache()
      modifies this
      ensures Valid()
      ensures currencyCache == None && cacheTimestamp == 0
      ensures forall now :: !CacheFresh(now)
    {
      currencyCache := None;
      cacheTimestamp := 0;
    }
  }

  /**
   * Two requests less than the time-to-live apart, when the first one has to
   * fetch and the fetch succeeds: exactly one fetch is made and both requests
   * return the same list.
   */
  method TwoRequestsWithinTtl(s: CurrencyService, t0: int, t1: int, reply0: Reply<CurrencyResponse>, reply1: Reply<CurrencyResponse>)
      returns (first: Result<seq<Currency>, ServiceError>, second: Result<seq<Currency>, ServiceError>, fetches: nat)
    requires s.Valid() && !s.CacheFresh(t0)
    requires reply0.Delivered? && reply0.body.metaCode == SuccessCode
    requires t1 - t0 < CacheDuration
    modifies s
    ensures fetches == 1
    ensures first.Success? && second == first
  {
    var f0, f1;
    first, f0 := s.GetCurrencies(t0, reply0);
    second, f1 := s.GetCurrencies(t1, reply1);
    fetches := (if f0 then 1 else 0) + (if f1 then 1 else 0);
  }
}
