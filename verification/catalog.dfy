/**
 * The product catalog: three fixed entries, two subscriptions and one
 * product sold on request, none of them yet linked to a payment price.
 */
module Catalog {
  import opened Results

  /** A catalog entry. `price` is in cents, with -1 meaning "ask us"; the optional
      boolean flags of the record read as false when absent. The marketing
      description of each entry is display text and is not part of the model. */
  datatype Product = Product(
    id: string, name: string,
    price: int, priceId: string, mode: string,
    image: Option<string>, video: Option<string>,
    contactForPricing: bool, comingSoon: bool, priceLabel: Option<string>)

  /** The two checkout modes the payment provider offers. */
  predicate IsMode(mode: string) {
    mode == "payment" || mode == "subscription"
  }

  /** `process.env.NAME ?? fallback` for the video links. */
  function EnvOr(env: Option<string>, fallback: string): string {
    match env
    case Some(url) => url
    case None => fallback
  }

  /** The shape every catalog must have: distinct ids, known modes, and the price
      convention (-1 exactly for the contact-priced entries, positive cents otherwise). */
  ghost predicate WellFormed(ps: seq<Product>) {
    && (forall i, j :: 0 <= i < j < |ps| ==> ps[i].id != ps[j].id)
    && (forall i :: 0 <= i < |ps| ==> IsMode(ps[i].mode))
    && (forall i :: 0 <= i < |ps| ==> (ps[i].price == -1 <==> ps[i].contactForPricing))
    && (forall i :: 0 <= i < |ps| ==> !ps[i].contactForPricing ==> ps[i].price > 0)
  }

  /** The shipped catalog: the two analyzer subscriptions at $5 and $25 a month, marked
      as coming soon, and the portal, priced on request; a video link set in the
      environment replaces the built-in one. */
  function Products(appVideo: Option<string>, portalVideo: Option<string>): (ps: seq<Product>)
    ensures |ps| == 3
    ensures ps[0].price == 500 && ps[1].price == 2500 && ps[2].price == -1
    ensures ps[0].mode == "subscription" && ps[1].mode == "subscription" && ps[2].mode == "payment"
    ensures forall i :: 0 <= i < |ps| ==> (ps[i].comingSoon <==> !ps[i].contactForPricing)
    ensures ps[0].video.Some? && ps[1].video.None? && ps[2].video.Some?
    ensures appVideo.Some? ==> ps[0].video == appVideo
    ensures portalVideo.Some? ==> ps[2].video == portalVideo
    ensures appVideo.None? ==> ps[0].video == Some("https://youtube.com/shorts/L9j1vhOAmvo")
    ensures portalVideo.None? ==> ps[2].video == Some("https://youtu.be/T9WXP1o5bUM")
    ensures ps[0].image.None? && ps[1].image == Some("/appReport.jpeg") && ps[2].image.None?
  {
    [
      Product(
        id := "stuff-plus-analyzer-personal",
        name := "Stuff+ Analyzer App (Personal)",
        price := 500, priceId := "", mode := "subscription",
        image := None, video := Some(EnvOr(appVideo, "https://youtube.com/shorts/L9j1vhOAmvo")),
        contactForPricing := false, comingSoon := true, priceLabel := None),
      Product(
        id := "stuff-plus-analyzer-team",
        name := "Stuff+ Analyzer App (Team)",
        price := 2500, priceId := "", mode := "subscription",
        image := Some("/appReport.jpeg"), video := None,
        contactForPricing := false, comingSoon := true, priceLabel := None),
      Product(
        id := "stuff-plus-portal",
        name := "Stuff+ Pitching Portal",
        price := -1, priceId := "", mode := "payment",
        image := None, video := Some(EnvOr(portalVideo, "https://youtu.be/T9WXP1o5bUM")),
        contactForPricing := true, comingSoon := false, priceLabel := None)
    ]
  }

  /** The shipped catalog is well formed, whatever the environment says. */
  lemma CatalogWellFormed(appVideo: Option<string>, portalVideo: Option<string>)
    ensures |Products(appVideo, portalVideo)| == 3
    ensures WellFormed(Products(appVideo, portalVideo))
  {
    var ps := Products(appVideo, portalVideo);
    assert ps[0].id[20] == 'p' && ps[1].id[20] == 't';
    assert ps[2].id[11] == 'p' && ps[0].id[11] == 'a' && ps[1].id[11] == 'a';
  }

  /** No shipped product carries a payment price id or a custom price label yet. */
  lemma CatalogHasNoPrices(appVideo: Option<string>, portalVideo: Option<string>)
    ensures forall i :: 0 <= i < |Products(appVideo, portalVideo)| ==>
              Products(appVideo, portalVideo)[i].priceId == "" && Products(appVideo, portalVideo)[i].priceLabel.None?
  {
  }
}
