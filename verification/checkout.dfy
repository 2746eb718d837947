/**
 * The checkout handler: it turns a price id into the parameters of a hosted
 * payment-provider checkout session and answers with the session's URL.
 */
module Checkout {
  import opened Results
  import opened Js

  const DefaultBaseUrl := "http://localhost:3000"
  const MissingPriceId := "Price ID is required"

  /** One purchased item. */
  datatype LineItem = LineItem(price: Value, quantity: nat)

  /** The parameters of the checkout session the handler creates. */
  datatype SessionParams = SessionParams(
    mode: Value, paymentMethodTypes: seq<string>, lineItems: seq<LineItem>,
    successUrl: Value, cancelUrl: Value, allowPromotionCodes: bool)

  /** What the payment provider did: created a session, or threw an error. */
  datatype StripeResult = Created(url: Value) | StripeError(message: string)

  /** The handler's reply: `{url}`, or a status with `{error}`. */
  datatype Reply = SessionUrl(url: Value) | Refused(status: nat, error: string)

  /** `process.env.NEXT_PUBLIC_BASE_URL ?? DefaultBaseUrl`. */
  function BaseUrl(env: Option<string>): string {
    match env
    case Some(url) => url
    case None => DefaultBaseUrl
  }

  /** The session for a request body: its price once, card payment, promotion codes
      allowed, the mode defaulted only when absent, and the redirect URLs defaulted
      only when null or absent. */
  function SessionFor(body: Value, env: Option<string>): (s: SessionParams)
    ensures s.lineItems == [LineItem(Field(body, "priceId"), 1)]
    ensures s.paymentMethodTypes == ["card"] && s.allowPromotionCodes
    ensures Field(body, "mode").Undefined? ==> s.mode == Str("subscription")
    ensures !Field(body, "mode").Undefined? ==> s.mode == Field(body, "mode")
    ensures !IsNullish(Field(body, "successUrl")) ==> s.successUrl == Field(body, "successUrl")
    ensures IsNullish(Field(body, "successUrl"))
            ==> s.successUrl == Str(BaseUrl(env) + "/checkout/success?session_id={CHECKOUT_SESSION_ID}")
    ensures !IsNullish(Field(body, "cancelUrl")) ==> s.cancelUrl == Field(body, "cancelUrl")
    ensures IsNullish(Field(body, "cancelUrl")) ==> s.cancelUrl == Str(BaseUrl(env) + "/checkout/cancel")
  {
    var base := BaseUrl(env);
    var mode := Field(body, "mode");
    SessionParams(
      mode := if mode.Undefined? then Str("subscription") else mode,
      paymentMethodTypes := ["card"],
      lineItems := [LineItem(Field(body, "priceId"), 1)],
      successUrl := Coalesce(Field(body, "successUrl"), Str(base + "/checkout/success?session_id={CHECKOUT_SESSION_ID}")),
      cancelUrl := Coalesce(Field(body, "cancelUrl"), Str(base + "/checkout/cancel")),
      allowPromotionCodes := true)
  }

  /** `POST /api/checkout`. `request` is the outcome of `request.json()`, `env` the
      configured base URL, and `create` the payment provider. */
  function Post(h: Host, request: Result<Value>, env: Option<string>, create: SessionParams -> StripeResult): (r: Reply)
    ensures r.Refused? ==> r.status == 400 || r.status == 500
    ensures r.Refused? && r.status == 400 <==> request.Ok? && !IsNullish(request.value) && !Truthy(Field(request.value, "priceId"))
    ensures request.Fail? ==> r == Refused(500, request.message)
    ensures request.Ok? && IsNullish(request.value) ==> r == Refused(500, h.typeError("priceId"))
    ensures request.Ok? && !IsNullish(request.value) && Truthy(Field(request.value, "priceId")) ==>
              match create(SessionFor(request.value, env))
              case Created(url) => r == SessionUrl(url)
              case StripeError(message) => r == Refused(500, message)
  {
    match request
    case Fail(message) => Refused(500, message)
    case Ok(body) =>
      if IsNullish(body) then Refused(500, h.typeError("priceId"))
      else if !Truthy(Field(body, "priceId")) then Refused(400, MissingPriceId)
      else
        match create(SessionFor(body, env))
        case Created(url) => SessionUrl(url)
        case StripeError(message) => Refused(500, message)
  }

  /** Without a price id the payment provider is never asked: the reply does not depend on it. */
  lemma NoSessionWithoutPrice(h: Host, body: Value, env: Option<string>,
                              create1: SessionParams -> StripeResult, create2: SessionParams -> StripeResult)
    requires !IsNullish(body) && !Truthy(Field(body, "priceId"))
    ensures Post(h, Ok(body), env, create1) == Post(h, Ok(body), env, create2) == Refused(400, MissingPriceId)
  {
  }

  /** With nothing configured, the redirect URLs point back at the local development server. */
  lemma DefaultRedirects(body: Value)
    requires IsNullish(Field(body, "successUrl")) && IsNullish(Field(body, "cancelUrl"))
    ensures SessionFor(body, None).successUrl
            == Str("http://localhost:3000" + "/checkout/success?session_id={CHECKOUT_SESSION_ID}")
    ensures SessionFor(body, None).cancelUrl == Str("http://localhost:3000/checkout/cancel")
  {
  }

  /** The JSON body of a reply, as the page parses it: the session URL alone, or the
      error message alone. */
  function ReplyBody(r: Reply): (b: Value)
    ensures b.Object?
    ensures r.SessionUrl? ==> b.fields.Keys == {"url"} && Field(b, "url") == r.url
    ensures r.Refused? ==> b.fields.Keys == {"error"} && Field(b, "error") == Str(r.error)
  {
    match r
    case SessionUrl(url) => Record(map["url" := url])
    case Refused(_, error) => Record(map["error" := Str(error)])
  }
}
