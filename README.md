# Tiling calculator: pricing, price table and price API

This project models the core of a tiling contractor's website, in Dafny.
The page lets a visitor price a tiling job. Behind it sits a small price API
through which an administrator publishes the price table.

The model covers five parts.

- **The price table** (`lib/initialPrices.ts`): the enumerations a job is
  chosen from, the `Prices` record (base rates per area type and material,
  layout coefficients, tile-size multipliers, eleven extras) and the
  built-in table `initialPrices`. The module is `PriceTable`.
- **The migration** of a fetched price document (`app/page.tsx`). The page
  spreads whatever JSON the API returns over `initialPrices`, section by
  section. A missing section or key falls back to its default. This is the
  `Migration` module, which also holds the raw `?? 1` lookup of the size
  multiplier.
- **The pricing engine**, which turns a table and a selection into an
  itemised quote (`Pricing`), with its rounding (`Rounding`). Negative or
  empty quantities count as zero. The turnkey discount is a percentage
  rounded with `Math.round`. The total never goes below zero, and the final
  price is raised to the minimum job. A per-square-metre rate is shown for
  information. The line-metre helper estimates silicone and miter lengths
  from the room's dimensions (`LineHelper`).
- **The price API** (`app/api/prices/route.ts`), in `BasicAuth` and
  `PriceStore`. `isAuthed` checks a Basic `Authorization` header against
  `ADMIN_LOGIN` / `ADMIN_PASSWORD`, defaulting to `admin` / `admin123`.
  `readPrices` falls back to the defaults. `GET` answers publicly, or
  behind authentication with `?mode=auth`, and refuses everything when
  `VERCEL=1`. An authorised `POST` replaces the stored document as it is.
  The store is a class whose `file` field the `Post` method overwrites.
- **The page's state** (`Calculator.Calculator`): the published table and
  the admin draft, the panel and login flags, the token kept in
  `localStorage`, the selection and the helper inputs. The transitions are
  loading, opening, closing and editing the panel, logging in, saving,
  logging out, applying the helper and keeping the waterproofing area in
  step with the main area.

JavaScript numbers are modelled as `real`. Strings are `seq<char>`. The
base64 encoder and decoder are function parameters. Writing the data file
is modelled as a success flag, and the replies the page receives from the
API are method parameters. Lemmas in `Calculator` connect those replies to
what the route answers.

Behaviours of the code that are easy to miss:

- The minimum-job flag is `finalTotal > total`, so it is false when the
  total equals the minimum exactly (`Pricing.Settle`).
- The total is not monotone in the area. The rounded discount can jump by
  one unit, so a larger area can cost less. It never costs one unit less or
  more (`Pricing.TotalNearlyMonotoneInArea`); a concrete case is in
  `Pricing.FinalTotalNotMonotoneInArea`.
- The `VERCEL` guard, commented as belonging to POST, sits in GET. POST
  is not refused on Vercel: an authorised POST still attempts the write,
  while every GET there answers 501
  (`PriceStore.VercelStillWrites`).
- A configured password, or login, that still contains `:` after trimming
  can never be matched, because the header is split on `:`
  (`BasicAuth.ColonInConfiguredPasswordLocksOut`).

## Model

| member | source | states |
|---|---|---|
| Rounding.RoundHalfUp | app/page.tsx:255 | `Math.round`: the result is the integer n with n - 0.5 <= x < n + 0.5, so halves go up |
| Rounding.RoundHalfUpUnique | app/page.tsx:255 | any integer in that half-open window is the rounded value, so the window determines the discount |
| Rounding.RoundHalfUpGap | app/page.tsx:255 | for x <= y, rounding widens the gap by less than one unit |
| Rounding.RoundHalfUpMonotone | app/page.tsx:255 | rounding is monotone |
| Rounding.RoundToCents | app/page.tsx:229-230 | `Math.round(x*100)/100` is on the hundredths grid and lies within half a hundredth of x (x - 0.005 < r <= x + 0.005) |
| Rounding.RoundToCentsOfCents | app/page.tsx:229-230 | a value already on the hundredths grid is unchanged |
| Rounding.RoundToCentsNonNegative | app/page.tsx:229-230 | a non-negative length stays non-negative |
| PriceTable.GetSet | lib/initialPrices.ts:7-40 | replacing one entry of the table changes that entry and no other |
| PriceTable.Extensionality | lib/initialPrices.ts:7-40 | two tables that agree at every key are equal: the keys cover the whole record |
| PriceTable.KeyIndex | lib/initialPrices.ts:7-40 | every key has a position in the list of all keys |
| PriceTable.AllKeysExact | lib/initialPrices.ts:7-40 | the table has exactly 25 numeric entries, listed once each |
| PriceTable.InitialPricesValid | lib/initialPrices.ts:42-75 | `initialPrices` has no negative entry and a discount of at most 100% |
| PriceTable.InitialPricesConstants | lib/initialPrices.ts:48-73 | the default standard coefficient and medium multiplier are 1, the discount is 5%, the minimum job is 12000 |
| Migration.MigrateKeyByKey | app/page.tsx:194-203 | each entry of the migrated table is the document's value where present, the default otherwise |
| Migration.DocGetToDocument | app/page.tsx:194-203 | a complete table written as a document holds every entry of the table |
| Migration.MigrateComplete | app/page.tsx:194-203 | a complete document is taken over unchanged |
| Migration.MigrateIdempotent | app/page.tsx:194-203 | migrating an already migrated table changes nothing |
| Migration.MigrateEmpty | app/page.tsx:194-203 | a document without price sections migrates to `initialPrices` |
| Migration.MigrateMissingMinJob | app/page.tsx:194-203 | a document lacking only `extras.minJob` gets the default 12000 and keeps every other value |
| Migration.MigrateValid | app/page.tsx:194-203 | a document of admissible values migrates to a valid table |
| Migration.RawSizeMultiplierComplete | app/page.tsx:235 | on a complete table the `?? 1` fallback never applies |
| Migration.RawSizeMultiplierVsMigrate | app/page.tsx:235 | `?? 1` on a raw document and the migrated table agree exactly when the key is present or the size is medium |
| Pricing.Clamp | app/page.tsx:238 | `Math.max(0, x)`: non-negative, x itself when x >= 0, 0 when x <= 0 |
| Pricing.WaterproofingArea | app/page.tsx:246 | no waterproofing when it is off, the clamped main area when linked, its own clamped area otherwise |
| Pricing.LineItems | app/page.tsx:234-252 | the quote's area is the clamped area and its waterproofing area is `WaterproofingArea` |
| Pricing.Settle | app/page.tsx:255-258 | the discount is the rounded percentage for a turnkey job and 0 otherwise; the total is max(0, subtotal - discount); the final total is max(total, minJob); the floor is reported exactly when total < minJob |
| Pricing.ClampingIsTransparent | app/page.tsx:238-252 | clamping every quantity at zero first leaves the whole quote unchanged |
| Pricing.SameLinesSameQuote | app/page.tsx:254-268 | a quote is determined by its cost lines, its per-square-metre rate and the turnkey flag |
| Pricing.NegativeAreaIsZero | app/page.tsx:238 | a negative area is priced as area 0 |
| Pricing.ValidRates | app/page.tsx:234-236 | with a valid table every rate, coefficient, multiplier and extra read by the pricing is non-negative |
| Pricing.LinesNonNegative | app/page.tsx:239-252 | with a valid table every cost line is non-negative |
| Pricing.QuoteNonNegative | app/page.tsx:254-268 | with a valid table the subtotal, the discount and the per-square-metre rate are non-negative |
| Pricing.LinkedWaterproofingIgnoresOwnArea | app/page.tsx:246 | while waterproofing is linked, its separately entered area has no effect on the quote |
| Pricing.WaterproofingOffIsFree | app/page.tsx:246-247 | waterproofing switched off costs nothing |
| Pricing.LinkedWaterproofingExample | app/page.tsx:246-247 | linked to a 10 m2 area, 10 m2 of waterproofing is charged even when its own field says 3 |
| Pricing.PerM2WorkIndependent | app/page.tsx:261-268 | the per-square-metre rate ignores area, waterproofing area, linear and count quantities and the package flag |
| Pricing.PerM2WorkMatchesAreaCosts | app/page.tsx:239-247 | when waterproofing follows the area, or is off, area times the per-square-metre rate is exactly the base cost plus the per-area extras |
| Pricing.AreaCostsAtRate | app/page.tsx:241-247 | the per-area extras are the area times their combined rate |
| Pricing.SubtotalMonotoneInArea | app/page.tsx:238-254 | with a valid table, a larger area never lowers the subtotal |
| Pricing.TotalNearlyMonotoneInArea | app/page.tsx:254-257 | a larger area never lowers the total or the final total by one unit or more |
| Pricing.SettleNearlyMonotone | app/page.tsx:255-257 | settling a larger subtotal never gives a total, or final total, lower by one unit or more |
| Pricing.SettleDiscountGap | app/page.tsx:255 | the discounts of two subtotals differ by less than the gap between the subtotals plus one |
| Pricing.FinalTotalNotMonotoneInArea | app/page.tsx:255-257 | with the defaults, 10.5749 m2 of bare bathroom tiling costs 12055.88 and 10.5751 m2 costs 12055.12 |
| Pricing.NeutralBaseCost | app/page.tsx:239 | with a neutral coefficient and multiplier the base cost is area times base rate |
| Pricing.MinimumJobApplies | app/page.tsx:256-258 | with the defaults, an empty job costs the minimum job, 12000, and the floor is reported |
| Pricing.InitialQuote | app/page.tsx:233-258 | the opening quote: 7200 base, 7500 extras, 735 off, 13965 to pay, no floor |
| Pricing.InitialQuoteWithDemolition | app/page.tsx:233-258 | the opening job with demolition: 17700 before a discount of 885, 16815 to pay |
| LineHelper.FloorPerimeter | app/page.tsx:219 | the perimeter is non-negative and at least twice each clamped side |
| LineHelper.SiliconeFromHelper | app/page.tsx:220-223 | silicone is non-negative, at least each clamped addition, and at least the perimeter when it is sealed |
| LineHelper.MiterFromHelper | app/page.tsx:224-226 | miter is non-negative and at least the clamped free addition |
| LineHelper.HelperClampingIsTransparent | app/page.tsx:219-226 | clamping the helper's inputs first changes neither estimate |
| LineHelper.HelperOutputsIndependent | app/page.tsx:219-226 | silicone depends only on the floor, the perimeter switch, the bath edge and its addition; miter only on corners, height and its addition |
| LineHelper.SiliconeMonotoneInFloor | app/page.tsx:219-223 | a larger floor never needs less silicone |
| LineHelper.MiterMonotone | app/page.tsx:224-226 | more corners or a higher wall never need less miter |
| LineHelper.InitialHelperValues | app/page.tsx:167-174 | the opening helper proposes 6.8 m of silicone and no miter |
| LineHelper.TwoCornersExample | app/page.tsx:224-226 | two external corners on a 2.5 m wall give 10 m of miter |
| BasicAuth.TrimStart | app/api/prices/route.ts:19-22 | the result is a suffix, everything cut is white space, and it does not start with white space |
| BasicAuth.TrimEnd | app/api/prices/route.ts:19-22 | the result is a prefix, everything cut is white space, and it does not end with white space |
| BasicAuth.TrimPadding | app/api/prices/route.ts:19-22 | trimming strips exactly the white space padded around a string |
| BasicAuth.TrimIdempotent | app/api/prices/route.ts:19-22 | trimming twice is trimming once |
| BasicAuth.TrimKeepsCharacters | app/api/prices/route.ts:19-22 | trimming adds no character |
| BasicAuth.Split | app/api/prices/route.ts:17 | `split(':')` gives at least one piece, none holding `:`, joining back to the input, and one piece exactly when there is no `:` |
| BasicAuth.SplitJoin | app/api/prices/route.ts:17 | splitting undoes joining separator-free fields |
| BasicAuth.Credentials | app/api/prices/route.ts:17 | neither piece holds `:`; a payload without `:` is the login with an empty password |
| BasicAuth.CredentialsFirstTwoFields | app/api/prices/route.ts:17 | with two or more `:`, the login is the text before the first `:`, the password the text up to the second, and the rest is dropped |
| BasicAuth.CredentialsTwoFields | app/api/prices/route.ts:17 | with one `:`, the login and password are the text on either side |
| BasicAuth.WithoutBasicPrefixRefused | app/api/prices/route.ts:13-14 | a header without the exact `Basic ` prefix is refused |
| BasicAuth.MissingHeaderRefused | app/api/prices/route.ts:13-14 | a missing header, or a lower-case `basic` one, is refused |
| BasicAuth.ClientTokenAuthorised | app/api/prices/route.ts:12-23 | for a login and password without `:`, the login form's token is accepted exactly when the trimmed login and password equal the configured ones |
| BasicAuth.NoColonEmptyPassword | app/api/prices/route.ts:17 | a payload without `:` gives an empty password |
| BasicAuth.TrailingFieldIgnored | app/api/prices/route.ts:17-22 | `admin:admin123:x` passes with the default credentials |
| BasicAuth.ColonInConfiguredPasswordLocksOut | app/api/prices/route.ts:17-22 | a configured login or password holding `:` after trimming can never be matched |
| PriceStore.ReadPrices | app/api/prices/route.ts:29-36 | the stored document when there is one, `initialPrices` otherwise |
| PriceStore.Body | app/page.tsx:292-295 | a 2xx reply's JSON read as a price document: the document, or one with no price sections |
| PriceStore.GetResponse | app/api/prices/route.ts:40-56 | 501 when `VERCEL` is `1`; with `mode=auth`, 401 unless authorised; otherwise the stored prices |
| PriceStore.PostOutcome | app/api/prices/route.ts:59-71 | saved exactly when authorised with a parsed body and a successful write, the file then holding the body; otherwise 401 when not authorised, 400 when authorised, and the file unchanged |
| PriceStore.Store.constructor | app/api/prices/route.ts:9-10 | the store starts with the given file |
| PriceStore.Store.Get | app/api/prices/route.ts:40-56 | answers `GetResponse` and leaves the file alone |
| PriceStore.Store.Post | app/api/prices/route.ts:59-71 | answers and updates the file as `PostOutcome` says |
| PriceStore.VercelRefusesEveryGet | app/api/prices/route.ts:44-46 | on Vercel every GET answers 501 |
| PriceStore.PublicGetIgnoresHeader | app/api/prices/route.ts:54-55 | a public GET does not depend on the credentials |
| PriceStore.AuthModeNeedsCredentials | app/api/prices/route.ts:48-52 | outside Vercel, `mode=auth` returns prices exactly when authorised |
| PriceStore.VercelStillWrites | app/api/prices/route.ts:43-66 | on Vercel an authorised POST is not refused and attempts the write (saving when the write succeeds), while GET answers 501 |
| PriceStore.FailedPostChangesNothing | app/api/prices/route.ts:60-70 | a refused POST, or one whose body does not parse, leaves every later GET as it was; so does a failed write, under the assumption stated under Left out |
| PriceStore.ReadAfterWrite | app/api/prices/route.ts:29-32 | after a successful POST, reading returns exactly the body |
| PriceStore.GetAfterPost | app/api/prices/route.ts:54-66 | after a successful POST, a public GET returns the body whatever was stored before |
| PriceStore.FallbackMigratesToDefaults | app/api/prices/route.ts:33-35 | a missing or unreadable file serves defaults that migrate to exactly `initialPrices` |
| PriceStore.ServedTableKeyByKey | app/api/prices/route.ts:29-36 | the client's table agrees with the stored document where it has a value and with the defaults elsewhere |
| Calculator.Calculator.constructor | app/page.tsx:136-174 | the page opens with default prices in both tables, panel closed, logged out, default selection and helper |
| Calculator.Calculator.LoadPrices | app/page.tsx:190-211 | a document reply is migrated into both tables; any other reply puts the defaults in both |
| Calculator.Calculator.OpenAdmin | app/page.tsx:286 | the draft restarts from the published table and the panel opens |
| Calculator.Calculator.CloseAdmin | app/page.tsx:287 | the draft is reset and the panel closes (the page defines `closeAdmin` but never calls it) |
| Calculator.Calculator.HidePanel | app/page.tsx:803 | the panel's own button only hides it and keeps the draft |
| Calculator.Calculator.EditDraft | app/page.tsx:828-865 | one entry of the draft is replaced and every other entry is kept |
| Calculator.Calculator.AdminLogin | app/page.tsx:289-311 | on a 2xx reply: admin mode, the token remembered, the draft the migrated reply; otherwise nothing changes |
| Calculator.Calculator.SavePrices | app/page.tsx:313-330 | without a token nothing changes; with one, a 2xx reply publishes the draft and closes the panel |
| Calculator.Calculator.Logout | app/page.tsx:332-337 | out of admin mode, token forgotten, draft reset, panel closed, published table kept |
| Calculator.Calculator.ApplyHelper | app/page.tsx:228-231 | silicone and miter take the helper's estimates rounded to hundredths, non-negative, and nothing else changes |
| Calculator.Calculator.SyncWaterproofingArea | app/page.tsx:213-216 | while linked, the waterproofing area copies the area, and the quote does not move |
| Calculator.OkReplies | app/page.tsx:192 | a GET reply is 2xx exactly when it carries a document; a POST reply exactly when the file was saved |
| Calculator.LoginSucceedsIff | app/page.tsx:289-292 | outside Vercel and for a login and password without `:`, the form's login succeeds exactly when the trimmed login and password are the configured ones |
| Calculator.SavedDraftIsPublished | app/page.tsx:313-330 | an authorised save is served to every later visitor and migrates back to exactly the draft |
| Calculator.VercelShowsDefaults | app/page.tsx:190-211 | on Vercel the page never receives a document, so it shows the defaults |

## Left out

- The page's rendering: JSX, gallery, lightbox, help and WhatsApp links, the quote message (`calcMsg`) and currency formatting.
- The keyboard shortcut that toggles the admin panel (app/page.tsx:179) is left out. Unlike `openAdmin`, it does not reset the draft.
- The login form's fields and their defaults (`admin` / `admin123`) are left out: the form's values are parameters of `AdminLogin`.
- The server-side PDF estimate route and its client call are not part of this model. Neither is the debug route.
- `fetch`, `localStorage`, `alert` and `btoa` are left out: the replies, the stored token and the encoder are parameters or fields.
- Network errors, and a reply body that fails to parse after a 2xx login, are left out.
- The filesystem is left out: the data file is a value, and a failed write is a flag. Concurrent requests are not modelled.
- PriceStore.PostOutcome: assumes a failed write leaves the file as it was. In fact `writeFile` empties the file before writing, so a write that fails part-way can leave an empty or partial file, which the next `readPrices` would fail to parse, serving the defaults.
- JSON details are left out: extra keys, non-numeric values and `null` in a stored document are not modelled. A document is a record of optional numbers.
- Floating point is modelled as exact reals. NaN, infinities and rounding error are left out; `x || 0` only matters for NaN and 0.
- base64 decoding and UTF-8 are left out: `decode` and `encode` are parameters. Strings are sequences of characters, not UTF-16 code units.
- BasicAuth.IsAuthed, BasicAuth.Trim, BasicAuth.EnvValue and BasicAuth.HasBasicPrefix (app/api/prices/route.ts:14-22) have no contract of their own. Their behaviour is stated by the lemmas about them: TrimStart, TrimEnd, TrimPadding, TrimIdempotent, WithoutBasicPrefixRefused, ClientTokenAuthorised and ColonInConfiguredPasswordLocksOut.
- Pricing.ComputeQuote, Pricing.Subtotal (app/page.tsx:254), Pricing.PerM2Work and Pricing.AreaRate (app/page.tsx:261-268) have no contract of their own. They are specified by the lemmas listed above: Settle, SubtotalMonotoneInArea, PerM2WorkIndependent, PerM2WorkMatchesAreaCosts and QuoteNonNegative.
- Migration.Migrate and Migration.RawSizeMultiplier (app/page.tsx:235) have no contract of their own. They are specified by MigrateKeyByKey, RawSizeMultiplierComplete and RawSizeMultiplierVsMigrate.
