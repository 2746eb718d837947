/**
 * The products page: how a price is displayed, what the buy button does
 * for a product, and how the button looks while a checkout is pending.
 */
module ProductsPage {
  import opened Results
  import opened Text
  import opened Js
  import opened Catalog
  import Checkout

  /** A displayed price: fixed text, or an amount of dollars for the currency formatter. */
  datatype PriceDisplay = Label(text: string) | Usd(dollars: real)

  /** A custom price text that is present and not empty. */
  predicate HasLabel(p: Product) {
    p.priceLabel.Some? && p.priceLabel.value != ""
  }

  /** `formatPrice`: contact pricing beats a label, a label beats the price, 0 is "Free",
      anything else is the price in dollars. */
  function FormatPrice(p: Product): (d: PriceDisplay)
    ensures p.contactForPricing ==> d == Label("Contact for pricing")
    ensures !p.contactForPricing && HasLabel(p) ==> d == Label(p.priceLabel.value)
    ensures !p.contactForPricing && !HasLabel(p) ==> (d == Label("Free") <==> p.price == 0)
    ensures d.Usd? <==> !p.contactForPricing && !HasLabel(p) && p.price != 0
    ensures d.Usd? ==> d.dollars * 100.0 == p.price as real
  {
    if p.contactForPricing then Label("Contact for pricing")
    else if HasLabel(p) then Label(p.priceLabel.value)
    else if p.price == 0 then Label("Free")
    else Usd(p.price as real / 100.0)
  }

  /** Contact pricing hides the price and the label entirely. */
  lemma ContactPricingHidesPrice(p: Product, price: int, tag: Option<string>)
    requires p.contactForPricing
    ensures FormatPrice(p.(price := price, priceLabel := tag)) == FormatPrice(p)
  {
  }

  /** What the shipped catalog displays: $5.00, $25.00, and "Contact for pricing". */
  lemma CatalogPrices(appVideo: Option<string>, portalVideo: Option<string>)
    ensures var ps := Products(appVideo, portalVideo);
            FormatPrice(ps[0]) == Usd(5.0) && FormatPrice(ps[1]) == Usd(25.0)
            && FormatPrice(ps[2]) == Label("Contact for pricing")
  {
  }

  /** The alert shown for a product whose price id is missing or still the placeholder. */
  const MissingPriceAlert := "Please add your Stripe Price IDs in the Stripe Dashboard and update src/lib/products.ts"

  /** The first thing the buy button does. */
  datatype Action =
    | GoToContact                               // navigate to /contact
    | AlertMissingPrice(message: string)        // alert(message)
    | PostCheckout(priceId: string, mode: string) // POST /api/checkout with this body

  /** Whether a price id is a real one rather than empty or the placeholder. */
  predicate HasPrice(priceId: string) {
    priceId != "" && !StartsWith(priceId, "price_YOUR_ID")
  }

  /** The guard of `handleCheckout`. */
  function Decide(p: Product): (a: Action)
    ensures p.contactForPricing <==> a == GoToContact
    ensures a.PostCheckout? <==> !p.contactForPricing && HasPrice(p.priceId)
    ensures a.PostCheckout? ==> a.priceId == p.priceId && a.mode == p.mode
    ensures a.AlertMissingPrice? ==> a.message == MissingPriceAlert
  {
    if p.contactForPricing then GoToContact
    else if StartsWith(p.priceId, "price_YOUR_ID") || p.priceId == "" then AlertMissingPrice(MissingPriceAlert)
    else PostCheckout(p.priceId, p.mode)
  }

  /** No product of the shipped catalog ever reaches the checkout endpoint. */
  lemma CatalogNeverPosts(appVideo: Option<string>, portalVideo: Option<string>, i: nat)
    requires i < |Products(appVideo, portalVideo)|
    ensures !Decide(Products(appVideo, portalVideo)[i]).PostCheckout?
  {
    CatalogHasNoPrices(appVideo, portalVideo);
  }

  /** The JSON body of the checkout request: the price id and the mode, and nothing else. */
  function CheckoutBody(a: Action): (b: Value)
    requires a.PostCheckout?
    ensures b.Object? && b.fields.Keys == {"priceId", "mode"}
    ensures Field(b, "priceId") == Str(a.priceId) && Field(b, "mode") == Str(a.mode)
  {
    Record(map["priceId" := Str(a.priceId), "mode" := Str(a.mode)])
  }

  /** `loadingId` right after the click: set only when a request is sent. */
  function LoadingAfterClick(loadingId: Option<string>, p: Product): (l: Option<string>)
    ensures Decide(p).PostCheckout? ==> l == Some(p.id)
    ensures !Decide(p).PostCheckout? ==> l == loadingId
  {
    if Decide(p).PostCheckout? then Some(p.id) else loadingId
  }

  /** How the checkout request ended: unsent, or answered with the outcome of `res.json()`. */
  datatype CheckoutAnswer = Unreachable(message: string) | Replied(data: Result<Value>)

  /** What the page does at the end: go to the payment page, or alert a message. */
  datatype Effect = Navigate(url: Value) | Alert(message: string)

  /** The end of `handleCheckout` after a request: a truthy `url` is followed, anything
      else raises an alert; `loadingId` is cleared whatever happened. */
  function Complete(h: Host, a: CheckoutAnswer): (r: (Option<string>, Effect))
    ensures r.0.None?
    ensures r.1.Navigate? <==> a.Replied? && a.data.Ok? && !IsNullish(a.data.value)
                                && Truthy(Field(a.data.value, "url")) && Converts(Field(a.data.value, "url"))
    ensures r.1.Navigate? ==> r.1.url == Field(a.data.value, "url")
    ensures (a.Replied? && a.data.Ok? && !IsNullish(a.data.value) && Truthy(Field(a.data.value, "url"))
             && !Converts(Field(a.data.value, "url"))) ==> r.1 == Alert(h.conversionError)
    ensures (a.Replied? && a.data.Ok? && !IsNullish(a.data.value) && !Truthy(Field(a.data.value, "url"))
             && IsNullish(Field(a.data.value, "error"))) ==> r.1 == Alert("Checkout failed")
    ensures (a.Replied? && a.data.Ok? && !IsNullish(a.data.value) && !Truthy(Field(a.data.value, "url"))
             && !IsNullish(Field(a.data.value, "error")))
            ==> r.1 == Alert(ErrorMessage(h, Field(a.data.value, "error")))
    ensures a.Unreachable? ==> r.1 == Alert(a.message)
    ensures a.Replied? && a.data.Fail? ==> r.1 == Alert(a.data.message)
    ensures a.Replied? && a.data.Ok? && IsNullish(a.data.value) ==> r.1 == Alert(h.typeError("url"))
  {
    var effect :=
      match a
      case Unreachable(message) => Alert(message)
      case Replied(Fail(message)) => Alert(message)
      case Replied(Ok(data)) =>
        if IsNullish(data) then Alert(h.typeError("url"))
        else if Truthy(Field(data, "url")) then
          if Converts(Field(data, "url")) then Navigate(Field(data, "url")) else Alert(h.conversionError)
        else Alert(ErrorMessage(h, Coalesce(Field(data, "error"), Str("Checkout failed"))));
    (None, effect)
  }

  /** The buy button is disabled only while its own (non-contact) checkout is pending. */
  function Disabled(loadingId: Option<string>, p: Product): (b: bool)
    ensures b ==> !p.contactForPricing && loadingId == Some(p.id)
    ensures !p.contactForPricing && loadingId == Some(p.id) ==> b
  {
    loadingId == Some(p.id) && !p.contactForPricing
  }

  /** The button text: "Contact" beats "Loading..." beats "Subscribe". */
  function ButtonLabel(loadingId: Option<string>, p: Product): (s: string)
    ensures p.contactForPricing ==> s == "Contact"
    ensures !p.contactForPricing ==> (s == "Loading..." <==> Disabled(loadingId, p))
    ensures !p.contactForPricing && !Disabled(loadingId, p) ==> s == "Subscribe"
  {
    if p.contactForPricing then "Contact"
    else if loadingId == Some(p.id) then "Loading..."
    else "Subscribe"
  }

  /** A request the page sends becomes a session for that one price, in that mode,
      with the default redirect URLs. */
  lemma PageRequestBecomesSession(p: Product, env: Option<string>)
    requires Decide(p).PostCheckout?
    ensures var s := Checkout.SessionFor(CheckoutBody(Decide(p)), env);
            && s.lineItems == [Checkout.LineItem(Str(p.priceId), 1)]
            && s.mode == Str(p.mode)
            && s.successUrl == Str(Checkout.BaseUrl(env) + "/checkout/success?session_id={CHECKOUT_SESSION_ID}")
            && s.cancelUrl == Str(Checkout.BaseUrl(env) + "/checkout/cancel")
  {
    var body := CheckoutBody(Decide(p));
    assert Field(body, "priceId") == Str(p.priceId);
    assert Field(body, "mode") == Str(p.mode);
    assert Field(body, "successUrl") == Undefined && Field(body, "cancelUrl") == Undefined;
  }

  /** The page follows the URL of a created session and alerts the handler's error otherwise. */
  lemma PageFollowsHandlerReply(h: Host, r: Checkout.Reply)
    ensures var e := Complete(h, Replied(Ok(Checkout.ReplyBody(r)))).1;
            && (r.SessionUrl? && Truthy(r.url) ==>
                  e == if Converts(r.url) then Navigate(r.url) else Alert(h.conversionError))
            && (r.Refused? ==> e == Alert(r.error))
  {
    var body := Checkout.ReplyBody(r);
    if r.Refused? {
      assert Field(body, "url") == Undefined;
      assert Field(body, "error") == Str(r.error);
    }
  }
}
