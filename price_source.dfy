/**
 * The price source of script.js (`fetchCurrentPrice`): one quote lookup whose
 * failures are absorbed by a fixed fallback price. The HTTP request and the JSON
 * decoding are not modelled; `Response` says only how far they got.
 */
module PriceSource {
  import opened Wrappers

  /** The price returned when the quote lookup fails. */
  const FallbackPrice: real := 27000.0

  /**
   * What reading `usd` from the decoded `bitcoin` value gives: `Missing` when it
   * is `undefined` (no `usd` member, or a `bitcoin` value such as a number that
   * has no properties of that name), `Usd(v)` for a numeric member.
   */
  datatype UsdField = Missing | Usd(value: real)

  /** What the lookup produced. */
  datatype Response =
    | NetworkError                       // `fetch` rejected
    | NotJson                            // `response.json()` rejected
    | Json(bitcoin: Option<UsdField>)    // decoded; `None` when reading `data.bitcoin.usd` throws:
                                         // the body is `null`, or `bitcoin` is absent, `null` or `undefined`

  /** A JavaScript value as the caller of `fetchCurrentPrice` receives it. */
  datatype JsValue = Undefined | Number(value: real)

  /** The response carries a numeric quote at `bitcoin.usd`. */
  predicate HasQuote(response: Response) {
    response.Json? && response.bitcoin.Some? && response.bitcoin.value.Usd?
  }

  function QuoteOf(response: Response): (quote: real)
    requires HasQuote(response)
  {
    response.bitcoin.value.value
  }

  /**
   * `fetchCurrentPrice` as written. Reading `data.bitcoin.usd` throws, and so
   * falls back, when the body is `null` or `bitcoin` is absent, `null` or
   * `undefined`. When `bitcoin` is some other value without `usd`, such as `{}`,
   * the expression is `undefined`, which is returned without reaching the fallback.
   */
  function FetchCurrentPriceAsWritten(response: Response): (v: JsValue)
    ensures v.Undefined? <==> response == Json(Some(Missing))
    ensures HasQuote(response) ==> v == Number(QuoteOf(response))
    ensures !response.Json? || response.bitcoin.None? ==> v == Number(FallbackPrice)
  {
    match response
    case NetworkError => Number(FallbackPrice)
    case NotJson => Number(FallbackPrice)
    case Json(None) => Number(FallbackPrice)
    case Json(Some(Missing)) => Undefined
    case Json(Some(Usd(p))) => Number(p)
  }

  /**
   * The price source with the fallback applied to every response without a
   * quote: the fetched value on success, the fallback constant otherwise, and
   * never a failure visible to the caller.
   */
  function FetchCurrentPrice(response: Response): (p: real)
    ensures HasQuote(response) ==> p == QuoteOf(response)
    ensures !HasQuote(response) ==> p == FallbackPrice
  {
    match response
    case Json(Some(Usd(p))) => p
    case _ => FallbackPrice
  }

  /** The corrected price source agrees with the written one wherever the latter yields a number. */
  lemma CorrectedAgreesWithWritten(response: Response)
    ensures FetchCurrentPriceAsWritten(response).Number? ==>
              FetchCurrentPrice(response) == FetchCurrentPriceAsWritten(response).value
    ensures FetchCurrentPriceAsWritten(response).Undefined? ==>
              FetchCurrentPrice(response) == FallbackPrice
  {
  }

  /** The written price source hands `undefined` to its caller for a decoded `{"bitcoin": {}}`. */
  lemma MissingUsdEscapesFallback()
    ensures FetchCurrentPriceAsWritten(Json(Some(Missing))) == Undefined
    ensures FetchCurrentPrice(Json(Some(Missing))) == FallbackPrice
  {
  }

  /** A positive quote, or any failure, yields a positive current price. */
  lemma CurrentPricePositive(response: Response)
    requires HasQuote(response) ==> QuoteOf(response) > 0.0
    ensures FetchCurrentPrice(response) > 0.0
  {
  }
}
