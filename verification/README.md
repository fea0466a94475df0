# Real-estate marketplace: payment intents, browse filters, gallery, search box

A Dafny model of the parts of the real-estate marketplace web application
that make decisions:

- **The payment-intent endpoint** (`PaymentIntentRoute`, `payment_intent.dfy`).
  A `POST` names a payment type (a reservation `deposit` on a property or a
  listing-promotion `subscription`), the paying user, optionally a property
  and, for subscriptions, a price tier. The handler validates the request
  and derives the amount, description and metadata of the charge. It has the
  payment provider create an intent, appends one `pending` row to the
  transactions table and answers with the intent. `Decide` is the pure
  decision. `Post` is the handler, with its per-branch assignments and the
  in-place metadata updates, proved to agree with `Decide`. `Ledger` is the
  transactions table.
- **The browse filter panel** (`PropertyFilters`, `property_filters.dfy`).
  Five pieces of state are read from the page's query string, each falling
  back to its default. `applyFilters` writes back only the values that
  differ from their defaults, in a fixed order. `resetFilters` restores the
  defaults. Query strings are sequences of name-value pairs with the `get`
  and `set` rules of the URL standard's `URLSearchParams`. The query string
  `applyFilters` builds is specified by `Query`. Its properties are lemmas:
  - only non-defaults are written;
  - each name appears at most once, in order;
  - the defaults write nothing;
  - reading the written query string back gives the same filters.
- **The property gallery** (`PropertyGallery`, `property_gallery.dfy`). A
  display list that is never empty, and a cursor moved by the arrows (with
  JavaScript's truncating `%`) and by thumbnail clicks.
- **The landing-page search box** (`Hero`, `hero.tsx`'s `handleSearch`,
  `hero.dfy`). On text made of Unicode scalar values it navigates once: to
  `/browse` when the text is blank after JavaScript's `trim`, otherwise to
  `/browse?q=` followed by the encoded, untrimmed text.

`Wrappers` (`wrappers.dfy`) holds the `Option` type.

External services are parameters:

- the properties table is a map from id to row;
- the intent the payment provider creates is a parameter;
- so is whether the transactions insert succeeds;
- `encodeURIComponent` and the form encoding of `URLSearchParams.toString`
  are a function-typed parameter `encode`.

A navigation is modelled as the target string the handler pushes.

Applying the filters in the default state navigates to `/browse?`, with an
empty query string after the `?`. Resetting navigates to `/browse`. The
model keeps that difference (`ApplyAfterReset`).

## Model

| member | source | states |
|---|---|---|
| PaymentIntentRoute.Decide | REAL_ESTATE_APP/src/app/api/payment-intent/route.ts:15-58 | Missing or empty `type` or `userId` gives 400 "Missing required fields". A deposit without a property id gives 400, and with an unknown property 404. Otherwise a deposit charges the deposit amount, described with the property's title, with metadata keys exactly user_id, type and property_id. A subscription with an unknown tier gives 400; otherwise it charges that tier's amount and name with `tier` in the metadata, and `property_id` is present iff a property id was given. Any other type gives 400 "Invalid payment type". Every accepted charge has `user_id` and `type` metadata. |
| PaymentIntentRoute.PriceOf | REAL_ESTATE_APP/src/app/api/payment-intent/route.ts:48-49 | The tier's price is found exactly when a tier is given and is a key of the price table, and then it is that entry. |
| PaymentIntentRoute.PendingRecord | REAL_ESTATE_APP/src/app/api/payment-intent/route.ts:68-77 | The ledger row for a charge is `pending` and carries the user, the type, the intent id and the charge's amount, description and metadata. Its property is null exactly when no property id was given. |
| PaymentIntentRoute.Ledger.Insert | REAL_ESTATE_APP/src/app/api/payment-intent/route.ts:68-81 | A successful insert appends exactly the row. A failed one leaves the table as it was and reports the error. |
| PaymentIntentRoute.Post | REAL_ESTATE_APP/src/app/api/payment-intent/route.ts:10-87 | A rejected request answers with the decision's status and message and writes nothing. An accepted one answers with the intent's client secret, the intent id and the charged amount, whether or not the insert succeeds. It appends exactly one pending record when the insert succeeds. |
| PaymentIntentRoute.NoLookupUnlessDeposit | REAL_ESTATE_APP/src/app/api/payment-intent/route.ts:26-42 | Unless the request is a deposit with a property id, the answer is the same whatever the properties table holds: a deposit without a property id is rejected before any lookup. |
| PaymentIntentRoute.AcceptedChargesArePositive | REAL_ESTATE_APP/src/app/api/payment-intent/route.ts:44-54 | With a positive deposit and positive prices for exactly basic, pro and premium, every accepted charge is positive. A subscription is accepted exactly for those three tiers. |
| PaymentIntentRoute.StatusesAreKnown | REAL_ESTATE_APP/src/app/api/payment-intent/route.ts:15-58 | Every rejection is one of the handler's five error answers (four 400s, one 404). |
| PropertyFilters.Get | REAL_ESTATE_APP/src/components/property/property-filters.tsx:24-31 | `searchParams.get` finds a value only from a pair with that name and value. It finds nothing exactly when no pair has that name. |
| PropertyFilters.GetReturnsFirst | REAL_ESTATE_APP/src/components/property/property-filters.tsx:24-31 | `searchParams.get` returns the value of the first pair with that name: when pair `i` has the name and no earlier pair does, the answer is pair `i`'s value (so `?type=sale&type=rent` reads `sale`). |
| PropertyFilters.SetParamSpec | REAL_ESTATE_APP/src/components/property/property-filters.tsx:35-40 | After `params.set(key, value)`, `key` reads `value` and every other name reads as before. A name not yet present is appended at the end. |
| PropertyFilters.Serialize | REAL_ESTATE_APP/src/components/property/property-filters.tsx:42 | `params.toString()` is empty exactly when there are no parameters. |
| PropertyFilters.NatToString | REAL_ESTATE_APP/src/components/property/property-filters.tsx:38-39 | `toString` of a price is a non-empty string of decimal digits without a leading zero (except for 0 itself). |
| PropertyFilters.ParseNatToString | REAL_ESTATE_APP/src/components/property/property-filters.tsx:28-29 | `parseInt` of a written price gives the price back. |
| PropertyFilters.DefaultPriceStrings | REAL_ESTATE_APP/src/components/property/property-filters.tsx:28-29 | The default strings "0" and "10000000" are the written forms of the default price bounds, and parse to them. |
| PropertyFilters.Initial | REAL_ESTATE_APP/src/components/property/property-filters.tsx:24-31 | A missing or empty parameter initialises its filter to the default: q "", type "all", category "all", price range 0 to 10000000, beds "any". |
| PropertyFilters.InitialReadsParams | REAL_ESTATE_APP/src/components/property/property-filters.tsx:24-31 | A present, non-empty parameter gives its filter its value: q, type, category and beds take the string that `get` returns. minPrice and maxPrice take the `parseInt` of that string. |
| PropertyFilters.FilterPanel.constructor | REAL_ESTATE_APP/src/components/property/property-filters.tsx:24-31 | The panel's first state is the one read from the page's query string. |
| PropertyFilters.EmitSubsequence | REAL_ESTATE_APP/src/components/property/property-filters.tsx:34-40 | The written names are some of the candidates' names, in the candidates' order. |
| PropertyFilters.SetNextCandidate | REAL_ESTATE_APP/src/components/property/property-filters.tsx:35-40 | Each guarded `params.set` appends its pair, or nothing when the filter holds its default, because its name is not yet present. |
| PropertyFilters.FilterPanel.ApplyFilters | REAL_ESTATE_APP/src/components/property/property-filters.tsx:33-43 | The six guarded `set` calls build exactly `Query` of the state. The target is `/browse?` followed by the serialised parameters. |
| PropertyFilters.QueryWritesNonDefaults | REAL_ESTATE_APP/src/components/property/property-filters.tsx:35-40 | Each parameter is written exactly when its filter differs from its default (q non-empty, type and category not "all", minPrice > 0, maxPrice < 10000000, beds not "any"), and then with the filter's value. |
| PropertyFilters.QueryKeysInOrder | REAL_ESTATE_APP/src/components/property/property-filters.tsx:34-40 | The written names are among q, type, category, minPrice, maxPrice, beds, each at most once, in that order. |
| PropertyFilters.DefaultsWriteNothing | REAL_ESTATE_APP/src/components/property/property-filters.tsx:24-43 | The default state writes no parameter. An empty query string is well formed and initialises to the default state. |
| PropertyFilters.QueryRoundTrip | REAL_ESTATE_APP/src/components/property/property-filters.tsx:24-43 | For every `WellFormed` state (non-empty selects, both prices at most 10000000), reading back the query string that `applyFilters` writes gives the same state. |
| PropertyFilters.FilterPanel.ResetFilters | REAL_ESTATE_APP/src/components/property/property-filters.tsx:45-52 | All five filters return to their defaults, and the target is exactly `/browse`. |
| PropertyFilters.ApplyAfterReset | REAL_ESTATE_APP/src/components/property/property-filters.tsx:33-52 | On a panel in any state, `resetFilters` followed by `applyFilters` leaves the panel in the default state, writes no parameter and navigates to `/browse?`. |
| PropertyGallery.DisplayImages | REAL_ESTATE_APP/src/components/property/property-gallery.tsx:16-18 | The display list is never empty. It is the listing's images when there are any, and otherwise the single fallback photo. |
| PropertyGallery.Rem | REAL_ESTATE_APP/src/components/property/property-gallery.tsx:20-21 | JavaScript's `%`: a non-negative dividend gives the remainder in [0, n). A negative one gives the remainder in (-n, 0] of division truncated toward zero: `a == n * q + r` with `q == -((-a) / n)`. |
| PropertyGallery.NextIndex | REAL_ESTATE_APP/src/components/property/property-gallery.tsx:20 | `(i + 1) % n` stays in [0, n). From a valid index it steps forward and wraps from the last image to the first. |
| PropertyGallery.PrevIndex | REAL_ESTATE_APP/src/components/property/property-gallery.tsx:21 | `(i - 1 + n) % n` stays in [0, n). From a valid index it steps back and wraps from the first image to the last. |
| PropertyGallery.NextPrevInverse | REAL_ESTATE_APP/src/components/property/property-gallery.tsx:20-21 | `prev` after `next`, and `next` after `prev`, return to the starting index. |
| PropertyGallery.SingleImageFixed | REAL_ESTATE_APP/src/components/property/property-gallery.tsx:20-21 | With one image, both arrows leave the cursor unchanged. |
| PropertyGallery.Gallery.constructor | REAL_ESTATE_APP/src/components/property/property-gallery.tsx:14-18 | The gallery starts on the first image of the display list. |
| PropertyGallery.Gallery.Next | REAL_ESTATE_APP/src/components/property/property-gallery.tsx:20 | The right arrow sets the cursor to `NextIndex` of the old cursor and keeps it in range. |
| PropertyGallery.Gallery.Prev | REAL_ESTATE_APP/src/components/property/property-gallery.tsx:21 | The left arrow sets the cursor to `PrevIndex` of the old cursor and keeps it in range. |
| PropertyGallery.Gallery.SelectThumbnail | REAL_ESTATE_APP/src/components/property/property-gallery.tsx:65 | A thumbnail click moves the cursor to that thumbnail. |
| PropertyGallery.Gallery.Shown | REAL_ESTATE_APP/src/components/property/property-gallery.tsx:27 | The large image is one of the display list's images. |
| PropertyGallery.Gallery.ShowArrows | REAL_ESTATE_APP/src/components/property/property-gallery.tsx:34 | The arrows are shown exactly when pressing them would move the cursor, that is when there is more than one image. |
| PropertyGallery.Gallery.Counter | REAL_ESTATE_APP/src/components/property/property-gallery.tsx:57 | The counter reads the one-based position `current + 1`, between 1 and n, out of n. |
| PropertyGallery.OneThumbnailHighlighted | REAL_ESTATE_APP/src/components/property/property-gallery.tsx:62-68 | Exactly one thumbnail carries the highlight: the one at `current`. |
| Hero.TrimStart | REAL_ESTATE_APP/src/components/layout/hero.tsx:16 | Removes a blank prefix and leaves a string that does not start with whitespace. |
| Hero.TrimEnd | REAL_ESTATE_APP/src/components/layout/hero.tsx:16 | Removes a blank suffix and leaves a string that does not end with whitespace. |
| Hero.Trim | REAL_ESTATE_APP/src/components/layout/hero.tsx:16 | `search.trim()` is an infix of the text with only whitespace around it, and neither starts nor ends with whitespace. |
| Hero.TrimEmptyIffBlank | REAL_ESTATE_APP/src/components/layout/hero.tsx:16 | The trimmed text is empty exactly when the text is blank (empty or whitespace only). |
| Hero.HandleSearch | REAL_ESTATE_APP/src/components/layout/hero.tsx:14-21 | A submission navigates to `/browse` exactly when the text is blank. Otherwise it navigates to `/browse?q=` followed by the encoding of the original, untrimmed text. The target depends on nothing but the text (for text without lone surrogates). |

## Left out

- Reading the JSON body, the `try`/`catch` that answers 500, and the error log lines (`route.ts:12`, `79-81`, `88-94`): runtime exceptions and logging in foreign code. Request fields that are not strings (numbers, objects) are not modelled. A field is either absent or a string.
- The payment provider's `paymentIntents.create` (`route.ts:60-66`): the created intent is a parameter. Its currency (`ngn`) and payment-method options are not modelled. Nothing in the model creates an intent, so "no intent for a rejected request" shows only as `Post` answering with an error and writing nothing.
- The properties table query (`route.ts:34-38`) is a map from id to row. A query error and a missing row are both "no row". The selected `price` column is carried but unused, as in the source.
- PaymentIntentRoute.PriceOf: the tier lookup is a plain map lookup. JavaScript's property lookup on `SUBSCRIPTION_PRICES` is not modelled: inherited keys such as `toString`, and an absent tier read as the key `undefined`. The price constants themselves live in a file that is not part of this model. They are the `Pricing` parameter, with the shape stated by `ValidPricing`.
- PropertyFilters.Initial: requires the price parameters, when present and non-empty, to be decimal digit strings. `parseInt` of malformed or negative text (NaN, leading signs, trailing junk) is not modelled. The same holds for `PropertyFilters.FilterPanel.constructor`.
- PropertyFilters.QueryRoundTrip: excludes states the panel can hold but does not write back faithfully: an empty select value reads back as its default, and an upper price above 10000000 taken from the URL is dropped by `applyFilters` (`property-filters.tsx:39`) and reads back as 10000000. The source's own round trip fails on those states too. Prices above the slider's scale are also excluded because of the rounding described under `PropertyFilters.NatToString`.
- PropertyFilters.NatToString: prices are exact natural numbers, while the source's prices are JavaScript numbers (doubles). `Number.prototype.toString` writes exponent form from 1e21 up (`"1e+21"`), and values above 2^53 are rounded. Neither is modelled, nor are negative or fractional numbers.
- PropertyFilters.ParseNatToString: holds for every natural in the model. In the source, `parseInt` of the written price gives it back only below 1e21 (`parseInt("1e+21")` is 1) and only for values a double holds exactly (up to 2^53).
- PropertyFilters.Initial: `parseInt` of a digit string longer than a double holds exactly is rounded in the source (`parseInt("9007199254740993")` is 9007199254740992). The model reads the exact value.
- Hero.HandleSearch: strings are sequences of Unicode scalar values, so a lone UTF-16 surrogate (possible in an input's value, such as `"a\uD800"`) is not representable. On such text `encodeURIComponent` (`hero.tsx:17`) throws a `URIError` and `handleSearch` navigates nowhere, and `URLSearchParams.toString` (`property-filters.tsx:42`) writes the surrogate as U+FFFD, so a `q` holding one does not read back. Neither is modelled.
- Percent-encoding, and the form encoding of `URLSearchParams.toString`, are the parameter `encode`. The parsing of the page's URL into `searchParams` is not modelled: the panel starts from a sequence of pairs.
- The panel's input handlers (`setQ`, `setType`, the slider and the selects, `property-filters.tsx:55-182`) and its layout are not modelled. The state fields are assigned directly.
- The gallery's `images` prop changing while `current` keeps its value is not modelled: `displayImages` is fixed at construction. Image loading, alt texts and styling are left out.
- `e.preventDefault()` and the animations of the landing page are not modelled. `router.push` is the returned target string.
- `app/api/transactions/route.ts`, the mortgage calculator (floating point), the map (floating-point coordinates), the checkout and promote pages (client-side payment confirmation), the presentational pages, and `toLocaleString` and `amount / 100` display formatting are not part of this model.
