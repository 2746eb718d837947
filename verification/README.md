# Developing Baseball site: a Dafny model of its request handling

This project models the part of the Developing Baseball marketing site that
does something beyond rendering. It covers:

- the **Stuff+ proxy** (`POST /api/stuff-plus`). It reads a pitch's tracking
  measurements from a JSON body under snake_case or camelCase keys and coerces
  every measurement to a number that is never NaN. It converts horizontal and
  vertical break from inches to feet, flipping the sign of the horizontal
  quantities and of the release side. It posts the feature vector to the
  prediction service, surfaces the service's error message on failure, and
  turns the returned score into a percentile,
  `round1(50 * (1 + tanh((s - 100) / 14)))`;
- the **Try the model page**, which builds that request from a form of eleven
  text fields plus a pitch type and a handedness, and the page state that
  follows the reply;
- the **product catalog**: three fixed entries;
- the **products page**: price display, what the buy button does, and the
  button's label and disabled state while a checkout is pending;
- the **contact handler** (`POST /api/contact`): it validates the input, needs
  a configured mail key, composes the mail, and maps the mail provider's
  outcome to a reply;
- the **checkout handler** (`POST /api/checkout`): the price check, the
  session parameters with their defaults, and the mapping of the payment
  provider's outcome.

JavaScript's value model is written out in module `Js`:

- numbers as exact reals plus `Infinity`, `-Infinity` and `NaN`;
- JSON values and objects;
- `??`, truthiness, `Number(..)` and `String(..)`.

Some engine routines have no source to model: `Math.tanh`, the number
grammars of `Number(..)` and `parseFloat`, number printing, `JSON.stringify`,
and the wording of a `TypeError`. These are the fields of a `Host` value.
The predicate `Lawful` states the laws the proofs assume of them. These
laws idealise ECMAScript over exact reals: the number grammars on plain
decimals, and the mathematical hyperbolic tangent. `Js.LawfulHostExists`
shows that the laws can be met.

The following are parameters of the handler functions:

- the parsed request body, as the outcome of `request.json()`;
- the environment variables;
- the prediction service, the mail provider and the payment provider.

Each handler is a total function from these to its reply, and every thrown
error becomes a value. That includes the TypeError a conversion throws:
`String(..)`, `Number(..)`, a template literal and `new Error(..)` all
throw for a parsed object with its own `toString` property, which is not a
function. `Js.Value` marks such an object with no text (`Js.Converts` is
false), and every handler routes the throw to its catch.

Files: `results.dfy` (Option and Result), `numerals.dfy` (decimal digits),
`text.dfy` (upper-casing, trimming, line breaks), `js.dfy`,
`percentile.dfy`, `stuff_plus.dfy`, `try_model.dfy`, `catalog.dfy`,
`products_page.dfy`, `contact.dfy`, `checkout.dfy`.

Some facts about the code are easy to misread:

- `toNum` replaces only `NaN` by 0. `Infinity` and `"Infinity"` therefore
  pass through unchanged, and `StuffPlus.ToNum` states exactly that.
- A score of 114 is reported as the 88.1st percentile: the formula gives
  `50 * (1 + tanh(1))`, which is 88.079... `Percentiles.PercentileAt114`
  proves 88.1 from the bracket 0.7615 < tanh(1) < 0.7616.
- The reported percentile lies in the closed interval [0, 100] and can be
  exactly 0 or 100. Rounding to a tenth reaches the ends for scores far from
  100, and the infinite scores that `toNum` lets through land on them.
  With the exact hyperbolic tangent of this model, the unrounded percentile
  of a finite score is strictly inside (0, 100). A binary `Math.tanh` gives
  exactly 1 from about 20 on, so scores from about 380 up already reach
  exactly 100, and scores from about -180 down reach exactly 0, before any
  rounding.
- The catalog record declares a `comingSoon` flag; its comment in
  `src/lib/products.ts:16` says it shows "Coming Soon" and links the button
  to contact. The products page never reads it, so a coming-soon product
  shows "Subscribe" and its button raises the missing-price alert. The model
  follows the page (`ProductsPage.Decide`, `ProductsPage.ButtonLabel`).

## Model

| member | source | states |
|---|---|---|
| StuffPlus.PredictUrl | src/app/api/stuff-plus/route.ts:3-48 | the service URL is the configured base plus "/predict", and the Railway default base when the variable is unset |
| StuffPlus.ToNum | src/app/api/stuff-plus/route.ts:14-18 | for a value that converts, coercion never yields NaN; it is 0 when `Number(v)` is NaN, and `Number(v)` otherwise |
| StuffPlus.ToNumIdempotent | src/app/api/stuff-plus/route.ts:14-18 | coercing an already coerced number changes nothing |
| StuffPlus.ToNumCases | src/app/api/stuff-plus/route.ts:14-18 | decimal text becomes its value; words, "", undefined, null and NaN become 0; true becomes 1; numbers, infinities included, pass through |
| StuffPlus.ReadMeasurement | src/app/api/stuff-plus/route.ts:26-43 | once the chosen value converts, the snake_case key wins whenever it is not null or undefined, otherwise the camelCase key is read; the result is never NaN |
| StuffPlus.ReadPitchType | src/app/api/stuff-plus/route.ts:33 | once the chosen value converts, `pitchType` beats `pitch_type`, which beats "FF"; the text is upper-cased, so it has no lower-case letter |
| StuffPlus.Throws | src/app/api/stuff-plus/route.ts:42 | the result is "L" or "R", and it is "L" exactly when the text starts with 'L' or 'l' |
| StuffPlus.ReadThrows | src/app/api/stuff-plus/route.ts:42 | once the chosen value converts, `handedness` beats `p_throws`, which beats "R"; the result is always "L" or "R" |
| StuffPlus.NumericHandednessIsRight | src/app/api/stuff-plus/route.ts:42 | a numeric handedness is always read as right-handed |
| StuffPlus.Read | src/app/api/stuff-plus/route.ts:26-45 | for a readable body, each of the eleven readings is the coerced value of its own snake_case/camelCase key pair, the pitch type and handedness follow their own key rules, and the handedness is "L" or "R" |
| StuffPlus.Convert | src/app/api/stuff-plus/route.ts:35-45 | pfx_x and fb_hmov are minus the break over 12; pfx_z and fb_ivb are the break over 12; release_pos_x is minus the side; every other feature passes through; infinities flip sign where the value does |
| StuffPlus.Normalise | src/app/api/stuff-plus/route.ts:26-46 | for a readable body, each feature sent is the reading of its key pair, with horizontal break negated and over 12, vertical breaks over 12, the release side negated, and the rest unchanged |
| StuffPlus.NormaliseKeepsReadings | src/app/api/stuff-plus/route.ts:26-46 | the readings of the body are recovered exactly from the payload sent |
| StuffPlus.NormaliseReadsOnlyKnownKeys | src/app/api/stuff-plus/route.ts:26-46 | two bodies that agree on both keys of every measurement and on the four code keys are readable alike, and when readable produce the same payload |
| StuffPlus.ReadableMeans | src/app/api/stuff-plus/route.ts:26-42 | a body can be read exactly when both chosen code values and the chosen value of every one of the eleven measurements convert |
| StuffPlus.ReadSeesOnlyValues | src/app/api/stuff-plus/route.ts:26-45 | two readable bodies whose chosen values agree for every measurement and both codes give the same readings |
| StuffPlus.ConvertRoundTrip | src/app/api/stuff-plus/route.ts:5-13 | the device readings are recovered exactly from the converted feature vector |
| StuffPlus.UnconvertRoundTrip | src/app/api/stuff-plus/route.ts:5-13 | every feature vector is the conversion of exactly one set of readings |
| StuffPlus.ConversionExamples | src/app/api/stuff-plus/route.ts:35-40 | 12 in of horizontal break is -1 ft, 24 in of vertical break is 2 ft, and a 1.5 ft release side becomes -1.5 ft |
| StuffPlus.ExampleReading | src/app/api/stuff-plus/route.ts:26-45 | a form-style body reads as the expected readings; absent fields read as 0 and the codes are upper-cased |
| StuffPlus.ExampleNormalisation | src/app/api/stuff-plus/route.ts:32-46 | the same body becomes the expected feature vector: 8 in is -2/3 ft, 18 in is 1.5 ft, and -7 in of fastball break is 7/12 ft |
| StuffPlus.SnakeCaseWinsEvenWhenNotNumeric | src/app/api/stuff-plus/route.ts:26 | a non-numeric snake_case value beats a numeric camelCase value and reads as 0 |
| StuffPlus.UpstreamMessage | src/app/api/stuff-plus/route.ts:54-62 | the message of a non-ok answer: the JSON `detail`, else `error`, else "Stuff+ API error: <status>", and a chosen value that is not a string goes through `JSON.stringify`; a body that is not JSON gives its text, or the generic message when the text is empty |
| StuffPlus.FallbackNamesStatus | src/app/api/stuff-plus/route.ts:55-60 | whenever the answer gives no usable message, the reported message is the prefix followed by digits that read back as exactly the status |
| StuffPlus.JsonRefusalDecides | src/app/api/stuff-plus/route.ts:56-58 | for a JSON refusal the raw text does not matter, and a present `detail` makes the `error` property irrelevant |
| StuffPlus.DetailIsSurfaced | src/app/api/stuff-plus/route.ts:58 | a refusal with a `detail` surfaces exactly that detail |
| StuffPlus.EmptyRefusalReportsStatus | src/app/api/stuff-plus/route.ts:55-60 | an empty non-JSON refusal with status 502 reports "Stuff+ API error: 502" |
| StuffPlus.Score | src/app/api/stuff-plus/route.ts:65-74 | for values that convert, a success carries stuff_plus (else stuffPlus) and stuff_plus_raw (else stuffPlusRaw), neither NaN, with the percentile of the score |
| StuffPlus.ReplyBody | src/app/api/stuff-plus/route.ts:70-80 | a scored reply is exactly the three properties stuffPlus, percentile and stuff_plus_raw, the numbers in their JSON form; a failure is exactly its `error` message |
| StuffPlus.Post | src/app/api/stuff-plus/route.ts:20-82 | every failure is a 500: an unparsable body gives its parse message, a null body the TypeError, a body with a value that does not convert the conversion TypeError before the service is called, a network error its message, a non-ok answer the upstream message, an unconvertible score the conversion TypeError; otherwise an ok answer is scored |
| StuffPlus.PostOutcomes | src/app/api/stuff-plus/route.ts:54-74 | a scored reply has a percentile in [0, 100] and comes only from a readable body and an ok answer to its normalised form |
| StuffPlus.UnconvertibleMeasurementFails | src/app/api/stuff-plus/route.ts:20-82 | a body whose `pfx_x` is an object with its own `toString` property is answered with the conversion TypeError's 500, whatever the service would do |
| StuffPlus.ScoreOf114 | src/app/api/stuff-plus/route.ts:65-74 | service output {stuff_plus: 114, stuff_plus_raw: 1.02} is reported as 114, percentile 88.1, raw 1.02 |
| Percentiles.RoundToTenth | src/app/api/stuff-plus/route.ts:72 | the result is a whole number of tenths, more than 0.05 below and at most 0.05 above the value |
| Percentiles.RoundToTenthMonotone | src/app/api/stuff-plus/route.ts:72 | rounding to a tenth preserves order |
| Percentiles.SpreadIsTanhOfShiftedScore | src/app/api/stuff-plus/route.ts:68 | the spread is tanh of (score - 100) / 14 under the number arithmetic |
| Percentiles.UnroundedBounds | src/app/api/stuff-plus/route.ts:68 | the unrounded percentile of a finite score is strictly inside (0, 100), and the infinities give exactly 100 and 0 |
| Percentiles.UnroundedIncreasing | src/app/api/stuff-plus/route.ts:68 | the unrounded percentile strictly increases with the score |
| Percentiles.UnroundedSymmetric | src/app/api/stuff-plus/route.ts:68 | scores 100 + d and 100 - d have unrounded percentiles summing to 100 |
| Percentiles.Percentile | src/app/api/stuff-plus/route.ts:68-72 | the reported percentile is a whole number of tenths within half a tenth of 50 * (1 + tanh((s - 100) / 14)), a halfway value going up |
| Percentiles.PercentileAtAverage | src/app/api/stuff-plus/route.ts:68-72 | a score of 100 is reported as exactly the 50th percentile |
| Percentiles.PercentileBounds | src/app/api/stuff-plus/route.ts:68-72 | the reported percentile lies in [0, 100] |
| Percentiles.PercentileMonotone | src/app/api/stuff-plus/route.ts:68-72 | the reported percentile never decreases as the score grows |
| Percentiles.PercentileAt114 | src/app/api/stuff-plus/route.ts:68-72 | a score of 114 is reported as the 88.1st percentile |
| Text.UpperStartsWithL | src/app/api/stuff-plus/route.ts:42 | the upper-cased text starts with "L" exactly when the text starts with 'L' or 'l' |
| Text.Upper | src/app/api/stuff-plus/route.ts:33 | upper-casing keeps the length, maps each character by itself, turns each lower-case ASCII letter into its own capital, and leaves every other character unchanged |
| Text.Trim | src/app/try-model/page.tsx:58-59 | the trimmed text is the slice of the input left after removing only whitespace from both ends, and it neither starts nor ends with whitespace |
| Text.TrimIgnoresPadding | src/app/try-model/page.tsx:58-59 | one more whitespace character at either end does not change the trimmed text |
| Text.BreakLines | src/app/api/contact/route.ts:38 | the result has no line feed, and a text without one is unchanged |
| Text.BreakLinesAppend | src/app/api/contact/route.ts:38 | the rewrite of a concatenation is the concatenation of the rewrites |
| Text.BreakLinesUnits | src/app/api/contact/route.ts:38 | a line feed becomes `<br>` and any other single character stays itself |
| Text.BreakLinesRoundTrip | src/app/api/contact/route.ts:38 | for a message without '<', turning every `<br>` back into a line feed restores it exactly |
| Numerals.NatToString | src/app/api/stuff-plus/route.ts:55 | a status prints as a non-empty run of digits, one digit exactly below 10, with no leading zero |
| Numerals.NatToStringRoundTrip | src/app/api/stuff-plus/route.ts:55 | reading the printed status back gives the status |
| TryModel.Initial | src/app/try-model/page.tsx:21-43 | the form starts at fastball and right-handed, with exactly the eleven field keys, every field empty, no result, no error, not loading |
| TryModel.HandleChange | src/app/try-model/page.tsx:45-49 | typing sets that field alone, keeps the other fields, selections and loading flag, and clears result and error |
| TryModel.FieldNumber | src/app/try-model/page.tsx:60-70 | a field is sent as its parseFloat value, or 0 when that is NaN; never NaN |
| TryModel.FieldNumberCases | src/app/try-model/page.tsx:60-70 | decimal text is sent as its value and an empty field as 0 |
| TryModel.PitchCode | src/app/try-model/page.tsx:58 | the pitch type sent is the trimmed selection upper-cased, so it has no whitespace at either end and no lower-case letter |
| TryModel.BuildPayload | src/app/try-model/page.tsx:57-71 | the payload has exactly the eleven keys, each the parsed number of its own field and never NaN; the pitch type is the trimmed, upper-cased selection; handedness is "L" exactly when the trimmed, upper-cased text is "L", else "R" |
| TryModel.FieldNumbers | src/app/try-model/page.tsx:60-70 | there is a number for exactly the eleven field keys, each the parsed number of its own field, none NaN |
| TryModel.PayloadIgnoresPadding | src/app/try-model/page.tsx:58-59 | whitespace typed around the pitch type or handedness leaves the payload unchanged |
| TryModel.PayloadTracksTyping | src/app/try-model/page.tsx:45-49 | typing into one field changes the number of that field in the next payload, to the parsed value or 0, and nothing else |
| TryModel.Encode | src/app/try-model/page.tsx:74-78 | the JSON body carries both selections and every number, with a non-finite number written as null; nothing in it fails to convert |
| TryModel.HandlerReadsPagePayload | src/app/try-model/page.tsx:57-78 | the handler reads back every finite number the page sent, and an infinite one as 0 |
| TryModel.HandlerKeepsPagePitchType | src/app/try-model/page.tsx:58 | the handler keeps the page's pitch type unchanged |
| TryModel.HandlerKeepsPageHandedness | src/app/try-model/page.tsx:59 | the handler keeps the page's handedness unchanged |
| TryModel.BeginSubmit | src/app/try-model/page.tsx:51-55 | submitting turns loading on and clears result and error, keeping the form's inputs |
| TryModel.Submit | src/app/try-model/page.tsx:51-92 | afterwards loading is off and exactly one of result and error is set; a refusal shows the text of the reply's `error` (the conversion TypeError when it has none) or "Prediction failed"; an unreadable or null reply and an unreachable service show their error; an accepted reply shows its `stuffPlus` and `percentile` |
| Js.ErrorMessage | src/app/try-model/page.tsx:83-88 | the message of `new Error(v)` is the text of `v`, or the conversion TypeError's message when `v` does not convert |
| Js.Parsed | src/app/api/stuff-plus/route.ts:22 | a parsed object keeps its properties and converts to text exactly when it has no own `toString` property |
| TryModel.PageShowsHandlerReply | src/app/try-model/page.tsx:80-88 | a scored reply is shown as its score and percentile, and a failure as its message |
| Catalog.CatalogWellFormed | src/lib/products.ts:20-51 | the catalog has three entries with distinct ids and known modes; price -1 exactly for contact pricing, positive cents otherwise |
| Catalog.CatalogHasNoPrices | src/lib/products.ts:20-51 | no entry has a payment price id or a custom price label |
| Catalog.Products | src/lib/products.ts:20-51 | three entries: two subscriptions at 500 and 2500 cents, coming soon, and the contact-priced portal sold by payment; only the team entry has an image, /appReport.jpeg; a video link set in the environment replaces the built-in one, which is the Shorts link for the personal app and the youtu.be link for the portal |
| ProductsPage.FormatPrice | src/app/products/page.tsx:48-56 | contact pricing beats a non-empty label, which beats "Free" for price 0; any other price is shown in dollars, i.e. cents over 100 |
| ProductsPage.ContactPricingHidesPrice | src/app/products/page.tsx:49 | a contact-priced product displays the same whatever its price and label |
| ProductsPage.CatalogPrices | src/app/products/page.tsx:48-56 | the catalog displays $5.00, $25.00 and "Contact for pricing" |
| ProductsPage.Decide | src/app/products/page.tsx:61-69 | contact pricing navigates to /contact; a request is posted exactly for a real price id, carrying that id and mode; otherwise the missing-price alert is shown |
| ProductsPage.CatalogNeverPosts | src/app/products/page.tsx:61-69 | no product of the catalog ever reaches the checkout endpoint |
| ProductsPage.LoadingAfterClick | src/app/products/page.tsx:71 | the pending id becomes the product's id only when a request is sent |
| ProductsPage.CheckoutBody | src/app/products/page.tsx:76-79 | the checkout request body holds exactly the price id and the mode of the product |
| ProductsPage.Complete | src/app/products/page.tsx:82-93 | the pending id is cleared; the page navigates to the reply's `url` exactly when it is truthy and converts; otherwise it alerts the conversion TypeError, the text of `error`, "Checkout failed" when there is no `error`, or the error of a null, unreadable or unreachable reply |
| ProductsPage.Disabled | src/app/products/page.tsx:152 | a button is disabled exactly while its own non-contact checkout is pending |
| ProductsPage.ButtonLabel | src/app/products/page.tsx:155 | "Contact" beats "Loading...", shown exactly while disabled, which beats "Subscribe" |
| ProductsPage.PageRequestBecomesSession | src/app/products/page.tsx:73-80 | a request the page sends becomes a session for that one price and mode with the default redirects |
| ProductsPage.PageFollowsHandlerReply | src/app/products/page.tsx:82-87 | the page follows a session URL (the conversion TypeError is alerted for one that does not convert) and alerts a refusal's message |
| Contact.Compose | src/app/api/contact/route.ts:28-39 | for a name and email that convert, the mail goes from the fixed sender to the fixed owner address, with the submitter as reply-to and the name after the subject prefix |
| Contact.MessageSegmentFaithful | src/app/api/contact/route.ts:33-38 | the message segment of the mail has no line feed and, for a message without '<', gives back the message |
| Contact.Post | src/app/api/contact/route.ts:6-57 | a 400 comes exactly from a missing field; a missing key gives the configuration 500; an unreadable body, a non-string message or a name or email that does not convert gives "Failed to send message"; otherwise a delivery is a success with its id, a rejection a 500 with the message of the provider, and a throw the generic 500 |
| Contact.NothingSentWhenRefusedEarly | src/app/api/contact/route.ts:10-39 | without all three fields, without a key, or with a mail that cannot be composed, the reply does not depend on the provider |
| Contact.ProviderErrorIsReported | src/app/api/contact/route.ts:42-48 | a provider rejection is a 500 with the provider's own message |
| Contact.UnconvertibleNameFails | src/app/api/contact/route.ts:28-56 | a complete submission whose name is an object with its own `toString` property gets the generic 500, whatever the provider would do |
| Checkout.SessionFor | src/app/api/checkout/route.ts:6-27 | the session has one unit of the price and card payment with promotion codes; the mode defaults only when absent, the URLs when null or absent |
| Checkout.Post | src/app/api/checkout/route.ts:4-38 | a 400 comes exactly from a falsy price id; a created session answers with its URL and a provider error with its message as a 500 |
| Checkout.ReplyBody | src/app/api/checkout/route.ts:31-37 | a session reply is exactly its `url`, a refusal exactly its `error` message |
| Checkout.NoSessionWithoutPrice | src/app/api/checkout/route.ts:8-13 | without a price id, the reply is the 400 and does not depend on the provider |
| Checkout.DefaultRedirects | src/app/api/checkout/route.ts:15-27 | with nothing configured, the redirects point at http://localhost:3000 |

## Left out

- Page rendering is not modelled: animation, layout, images, video embeds
  and the full-screen video button. Only the state the handlers and buttons
  compute is modelled.
- The catalog's marketing descriptions are not modelled. They are display
  text that no operation reads.
- The webhook route, the payment client construction in `src/lib/stripe.ts`
  and the mail client constructor are not part of this model. The provider
  is a function parameter of each handler.
- Logging (`console.error`) is not modelled. It has no effect on replies.
- Browser effects are not modelled as effects. `window.location.href` and
  `alert` are the `Navigate` and `Alert` values, and React state updates are
  functions from state to state.
- Text.Upper: `toUpperCase` is modelled on ASCII letters only. Non-ASCII
  case mappings, such as 'ß' to "SS", are engine tables outside this model.
- Js.Lawful: the number grammars of `Number(..)` and `parseFloat` are pinned
  down only for plain decimal literals, for whitespace-only text, for the
  empty text, and for text starting with a letter other than 'I'. Exponents,
  hexadecimal and partial prefixes such as `parseFloat("12abc")` are left to
  the host. The formatting of numbers by `String(x)` is likewise left to the
  host.
- Js.Number: finite numbers are exact reals. Binary rounding of `/ 12` is not
  modelled, and -0 is the same as 0. Overflow is not modelled either: a
  decimal literal of more than about 309 digits is a finite number here,
  while `Number(..)` and `parseFloat` give `Infinity` for it.
- Percentiles.UnroundedBounds: the hyperbolic tangent is the exact one,
  strictly inside (-1, 1). A binary `Math.tanh(20)` is exactly 1, so the
  source's unrounded percentile is exactly 100 for scores from about 380 up
  and exactly 0 for scores from about -180 down. The model promises strictly
  inside (0, 100).
- Percentiles.UnroundedIncreasing: for the same reason, the source's
  unrounded percentile only never decreases: it is constant at 0 and at 100
  far from a score of 100. The model promises that it strictly increases.
- Js.Converts: a value that fails to convert is modelled as an object with
  no text, which covers a parsed object with its own `toString` property and
  an array holding one. Which of several such values throws first does not
  matter, because every conversion TypeError carries the one host message
  `conversionError`.
- StuffPlus.Post: the messages of `TypeError`s (reading a property of null)
  come from one abstract host function keyed by the property name. A reply
  can never be the "Prediction failed" fallback, because every thrown value
  in the handler is an `Error`.
- TryModel.Submit: the "Something went wrong" fallback is left out for the
  same reason: every thrown value is an `Error`.
- ProductsPage.Complete: as for Submit, the "Something went wrong" alert
  cannot occur and is left out.
- Contact.Post: a `message` that is not a string is treated as a
  `TypeError` from `.replace`, hence a 500 "Failed to send message". An
  object carrying its own `replace` method is not modelled.
- Products' `image` and `video` links are carried in the catalog but are
  used only for rendering.
- Percentiles.RoundToTenth: the floating-point error of `percentile * 10`
  before `Math.round` is not modelled. Halves round up, as `Math.round`
  does.
- Checkout.Post: the "Checkout failed" message for a thrown value that is
  not an `Error` (src/app/api/checkout/route.ts:35) is left out. The
  payment provider is modelled as returning a session or an error, so every
  failure carries a message.
- StuffPlus.Post: `predict` receives the feature vector itself, not its
  `JSON.stringify` text. An infinite feature would be sent as null; the
  service's reading of that is outside this model, so the model passes the
  vector unchanged.
