/** The product-data adapter (backend/utils/fetchBuyBox.js): it turns the
    provider's reply into the records the tracker and the ASIN fetcher use.
    The HTTP exchange itself is an input: the reply the provider gave, or the
    error the HTTP client threw. Every request made and every back-off slept
    is reported beside the record. */
module FetchBuyBox {
  import opened Js

  const NoKeyMessage := "Rainforest API key not configured"
  const InvalidResponseMessage := "Invalid response from Rainforest API"
  const NoWinnerMessage := "No BuyBox winner found"
  const OfferNotFoundMessage := "Seller offer not found"
  const UnknownSeller := "Unknown"
  const UnknownAvailability := "unknown"
  const NotFoundAvailability := "not_found"
  const ErrorAvailability := "error"
  const TooManyRequests := 429
  const RateLimitWaitMs := 5000

  /** The message of an error thrown by the HTTP client; never empty. */
  type ErrorMessage = s: string | s != "" witness "Request failed"

  // The parts of the provider's JSON body that the adapter reads.
  datatype MerchantInfo = MerchantInfo(name: Option<string>, id: Option<string>)
  datatype PriceInfo = PriceInfo(value: Option<Num>, currency: Option<string>)
  datatype Delivery = Delivery(isPrimeEligible: Option<bool>)
  datatype Winner = Winner(merchantInfo: Option<MerchantInfo>, price: Option<PriceInfo>, delivery: Option<Delivery>)
  datatype Availability = Availability(stockLevel: Option<Num>, kind: Option<string>)
  datatype Offer = Offer(merchantInfo: Option<MerchantInfo>, availability: Option<Availability>)
  datatype Product = Product(buyboxWinner: Option<Winner>, offers: Option<seq<Offer>>)
  datatype SearchResult = SearchResult(asin: string, title: Option<string>, price: Option<PriceInfo>,
                                       rating: Option<Num>, ratingsTotal: Option<Num>, image: Option<string>)
  datatype Body = Body(product: Option<Product>, searchResults: Option<seq<SearchResult>>)

  /** What one GET produced: a response whose body may be missing, or an
      error thrown by the client, carrying the HTTP status when the server
      answered at all. */
  datatype Reply = Response(data: Option<Body>) | Failure(status: Option<int>, message: ErrorMessage)

  /** The provider as the core sees it: the configured API key and, for each
      kind of request, the reply it gives for the requested ASIN or seller. */
  datatype Provider = Provider(apiKey: Option<string>,
                               buyBoxReply: string -> Reply,
                               stockReply: string -> Reply,
                               searchReply: string -> Reply)

  /** A record together with the number of requests sent and the time slept. */
  datatype Fetched<T> = Fetched(result: T, requests: nat, waitedMs: nat)

  datatype BuyBoxInfo = BuyBoxInfo(asin: string, currentSeller: Option<string>, sellerId: Option<string>,
                                   price: Option<Num>, currency: string, isPrime: bool, error: Option<string>)
  datatype StockInfo = StockInfo(asin: string, sellerId: string, stockLevel: Option<Num>,
                                 availability: string, error: Option<string>)
  datatype SellerAsin = SellerAsin(asin: string, title: Option<string>, price: Option<Num>, currency: string,
                                   rating: Option<Num>, ratingsTotal: Option<Num>, image: Option<string>,
                                   sellerId: string)

  // Optional chaining (`a?.b`) over the body.

  function NameOf(m: Option<MerchantInfo>): Option<string> { if m.Some? then m.value.name else None }
  function IdOf(m: Option<MerchantInfo>): Option<string> { if m.Some? then m.value.id else None }
  function ValueOf(p: Option<PriceInfo>): Option<Num> { if p.Some? then p.value.value else None }
  function CurrencyOf(p: Option<PriceInfo>): Option<string> { if p.Some? then p.value.currency else None }
  function StockLevelOf(a: Option<Availability>): Option<Num> { if a.Some? then a.value.stockLevel else None }
  function KindOf(a: Option<Availability>): Option<string> { if a.Some? then a.value.kind else None }

  /** `response.data.product`, when both are present */
  function ProductOf(reply: Reply): Option<Product>
  {
    if reply.Response? && reply.data.Some? then reply.data.value.product else None
  }

  /** `product.buybox_winner`, when the product is present */
  function WinnerOf(reply: Reply): Option<Winner>
  {
    if ProductOf(reply).Some? then ProductOf(reply).value.buyboxWinner else None
  }

  /** `product.offers`, when the product is present */
  function OffersOf(reply: Reply): Option<seq<Offer>>
  {
    if ProductOf(reply).Some? then ProductOf(reply).value.offers else None
  }

  /** `response.data.search_results`, when present */
  function SearchResultsOf(reply: Reply): Option<seq<SearchResult>>
  {
    if reply.Response? && reply.data.Some? then reply.data.value.searchResults else None
  }

  /** The catch blocks' wait: one fixed pause when the server said 429. */
  function Backoff(status: Option<int>): nat
  {
    if status == Some(TooManyRequests) then RateLimitWaitMs else 0
  }

  /** The message the catch block sees: the try body's own throw when the
      body was unusable, else the client's. */
  function FailureMessage(reply: Reply): string
  {
    if reply.Failure? then reply.message else InvalidResponseMessage
  }

  /** The wait the catch block performs for a reply that reached it. */
  function FailureWait(reply: Reply): nat
  {
    if reply.Failure? then Backoff(reply.status) else 0
  }

  function BuyBoxError(asin: string, message: string): BuyBoxInfo
  {
    BuyBoxInfo(asin, None, None, None, DefaultCurrency, false, Some(message))
  }

  /** The record built from a buy-box winner, defaults applied with `||`. */
  function WinnerInfo(asin: string, w: Winner): BuyBoxInfo
  {
    BuyBoxInfo(asin,
               Some(OrElse(NameOf(w.merchantInfo), UnknownSeller)),
               OrNull(IdOf(w.merchantInfo)),
               NumOrNull(ValueOf(w.price)),
               OrElse(CurrencyOf(w.price), DefaultCurrency),
               w.delivery.Some? && w.delivery.value.isPrimeEligible == Some(true),
               None)
  }

  /** fetchBuyBoxInfo: one product request, unless no API key is configured. */
  function FetchBuyBoxInfo(asin: string, apiKey: Option<string>, reply: Reply): (f: Fetched<BuyBoxInfo>)
    ensures f.result.asin == asin
    ensures f.requests == (if Truthy(apiKey) then 1 else 0)
    ensures f.waitedMs == (if Truthy(apiKey) && reply.Failure? && reply.status == Some(TooManyRequests)
                           then RateLimitWaitMs else 0)
    // an error is always reported with a non-empty message
    ensures Truthy(f.result.error) <==> f.result.error.Some?
    ensures f.result.error.None? <==> Truthy(apiKey) && WinnerOf(reply).Some?
    ensures f.result.error.Some? ==>
              f.result.currentSeller.None? && f.result.sellerId.None? && f.result.price.None? &&
              f.result.currency == DefaultCurrency && !f.result.isPrime
    ensures !Truthy(apiKey) ==> f.result.error == Some(NoKeyMessage)
    ensures Truthy(apiKey) && ProductOf(reply).Some? && WinnerOf(reply).None? ==>
              f.result.error == Some(NoWinnerMessage)
    ensures Truthy(apiKey) && ProductOf(reply).None? ==>
              f.result.error == Some(FailureMessage(reply))
    ensures f.result.error.None? ==>
              var w := WinnerOf(reply).value;
              Truthy(f.result.currentSeller) &&
              f.result.currentSeller == Some(OrElse(NameOf(w.merchantInfo), UnknownSeller)) &&
              (Truthy(NameOf(w.merchantInfo)) ==> f.result.currentSeller == NameOf(w.merchantInfo)) &&
              f.result.sellerId == (if Truthy(IdOf(w.merchantInfo)) then IdOf(w.merchantInfo) else None) &&
              f.result.price == (if NumTruthy(ValueOf(w.price)) then ValueOf(w.price) else None) &&
              f.result.currency == OrElse(CurrencyOf(w.price), DefaultCurrency)
    // a zero price is reported as no price
    ensures f.result.price != Some(0.0)
  {
    if !Truthy(apiKey) then
      Fetched(BuyBoxError(asin, NoKeyMessage), 0, 0)
    else if ProductOf(reply).Some? then
      match ProductOf(reply).value.buyboxWinner
      case Some(w) => Fetched(WinnerInfo(asin, w), 1, 0)
      case None => Fetched(BuyBoxError(asin, NoWinnerMessage), 1, 0)
    else
      Fetched(BuyBoxError(asin, FailureMessage(reply)), 1, FailureWait(reply))
  }

  /** The seller matched by `offers.find`: by merchant id or by merchant name. */
  predicate OfferMatches(o: Offer, sellerId: string)
  {
    IdOf(o.merchantInfo) == Some(sellerId) || NameOf(o.merchantInfo) == Some(sellerId)
  }

  /** `offers.find(...)`, as the index of the first matching offer. */
  function FirstMatch(offers: seq<Offer>, sellerId: string): (r: Option<nat>)
    ensures r.Some? ==> r.value < |offers| && OfferMatches(offers[r.value], sellerId)
    ensures r.Some? ==> forall j :: 0 <= j < r.value ==> !OfferMatches(offers[j], sellerId)
    ensures r.None? ==> forall j :: 0 <= j < |offers| ==> !OfferMatches(offers[j], sellerId)
  {
    if offers == [] then None
    else if OfferMatches(offers[0], sellerId) then Some(0)
    else
      match FirstMatch(offers[1..], sellerId)
      case Some(i) => Some(i + 1)
      case None => None
  }

  /** fetchStockLevel: one product request for the given seller's offer. */
  function FetchStockLevel(asin: string, sellerId: string, apiKey: Option<string>, reply: Reply): (f: Fetched<StockInfo>)
    ensures f.result.asin == asin && f.result.sellerId == sellerId
    ensures f.requests == (if Truthy(apiKey) then 1 else 0)
    ensures f.waitedMs == (if Truthy(apiKey) && reply.Failure? && reply.status == Some(TooManyRequests)
                           then RateLimitWaitMs else 0)
    ensures Truthy(apiKey) && OffersOf(reply).Some? ==>
              var offers := OffersOf(reply).value;
              match FirstMatch(offers, sellerId)
              case Some(i) =>
                f.result.error.None? &&
                f.result.stockLevel == NumOrNull(StockLevelOf(offers[i].availability)) &&
                f.result.availability == OrElse(KindOf(offers[i].availability), UnknownAvailability)
              case None =>
                f.result.stockLevel.None? && f.result.availability == NotFoundAvailability &&
                f.result.error == Some(OfferNotFoundMessage)
    ensures !(Truthy(apiKey) && OffersOf(reply).Some?) ==>
              f.result.stockLevel.None? && f.result.availability == ErrorAvailability &&
              f.result.error == Some(if Truthy(apiKey) then FailureMessage(reply) else NoKeyMessage)
    // a stock level of zero is reported as unknown
    ensures f.result.stockLevel != Some(0.0)
  {
    if !Truthy(apiKey) then
      Fetched(StockInfo(asin, sellerId, None, ErrorAvailability, Some(NoKeyMessage)), 0, 0)
    else if OffersOf(reply).Some? then
      var offers := OffersOf(reply).value;
      match FirstMatch(offers, sellerId)
      case Some(i) =>
        var a := offers[i].availability;
        Fetched(StockInfo(asin, sellerId, NumOrNull(StockLevelOf(a)), OrElse(KindOf(a), UnknownAvailability), None), 1, 0)
      case None =>
        Fetched(StockInfo(asin, sellerId, None, NotFoundAvailability, Some(OfferNotFoundMessage)), 1, 0)
    else
      Fetched(StockInfo(asin, sellerId, None, ErrorAvailability, Some(FailureMessage(reply))), 1, FailureWait(reply))
  }

  /** One search result, tagged with the seller it was fetched for. */
  function Listing(r: SearchResult, sellerId: string): SellerAsin
  {
    SellerAsin(r.asin, r.title, ValueOf(r.price), OrElse(CurrencyOf(r.price), DefaultCurrency),
               r.rating, r.ratingsTotal, r.image, sellerId)
  }

  /** fetchSellerAsins: one search request; any failure yields no listings. */
  function FetchSellerAsins(sellerId: string, apiKey: Option<string>, reply: Reply): (f: Fetched<seq<SellerAsin>>)
    ensures f.requests == (if Truthy(apiKey) then 1 else 0)
    ensures f.waitedMs == (if Truthy(apiKey) && reply.Failure? && reply.status == Some(TooManyRequests)
                           then RateLimitWaitMs else 0)
    ensures Truthy(apiKey) && SearchResultsOf(reply).Some? ==>
              var results := SearchResultsOf(reply).value;
              |f.result| == |results| &&
              forall i :: 0 <= i < |results| ==>
                f.result[i].asin == results[i].asin && f.result[i].title == results[i].title &&
                f.result[i].price == ValueOf(results[i].price) &&
                f.result[i].currency == OrElse(CurrencyOf(results[i].price), DefaultCurrency) &&
                f.result[i].sellerId == sellerId
    ensures !(Truthy(apiKey) && SearchResultsOf(reply).Some?) ==> f.result == []
  {
    if !Truthy(apiKey) then
      Fetched([], 0, 0)
    else if SearchResultsOf(reply).Some? then
      var results := SearchResultsOf(reply).value;
      Fetched(seq(|results|, i requires 0 <= i < |results| => Listing(results[i], sellerId)), 1, 0)
    else
      Fetched([], 1, FailureWait(reply))
  }
}
