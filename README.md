# render-server storefront logic in Dafny

This project models the logic of a small LINE (LIFF) ordering app and its relay server.

- The **store page** (`client/src/App.jsx`) fetches a product catalog. The catalog comes either as positional rows `[category, subcategory, name, price, imageUrl]` or as objects with alias keys. The page normalises it into canonical items, makes slug ids with `slugify`, and keeps a cart that it submits as an order.
- The **rescue page** (`client/App.jsx` with `client/api.js`) loads a category list. It also lets a signed-in user who is not yet an administrator register as one. The admin flag is taken only from a fresh `isAdmin` check.
- The **relay server** (`index.js`) signs every call to the Google Apps Script backend. The signature is an HMAC over `action.ts.userId`, sent as query parameters `ts` and `sig`.

## How JavaScript is modelled

- **Values.** Dynamic JavaScript values are `JsRuntime.Value` (undefined, null, booleans, integers, strings, arrays, objects). The coercions are written out explicitly:
  - `String()` and template literals: `ToStr`;
  - `Number()`: `ToNumber`;
  - truthiness: `Truthy`;
  - `||` and `??`: `Or` and `Coalesce`;
  - property reads: `Prop`, and `Get`, which throws on a nullish base.
- **Errors.** A thrown error or a rejected promise is `Err(message)`. A JavaScript `TypeError` carries the fixed message `TypeError`.
- **Oracles.** Anything outside the code is a parameter:
  - what `fetch` produced: `Fetched`, a network error or a reply with its status, text and parsed body;
  - the clock: `now` / `nowMs`;
  - the LIFF profile;
  - the environment: `Relay.Env`;
  - HMAC-SHA256 itself: `Relay.Mac`.
- **Mutable state.** The store page's cart is the class `StoreClient.Cart`. The rescue page's component state is the class `RescueApp.App`. Each `setX` call is a field update.
- **Loops.** The `forEach` that fills the GET query is a loop, `Relay.SetQuery`.

### Where the code and the documentation disagree

The model follows the code:

- An object item that brings its own `id` keeps it even when it is `""`. A price is passed through even when negative. See `Catalog.EmptyObjectIdKept` and `Catalog.NegativePriceKept`.
- `gasGet` and `gasPost` have no request timeout.
- `gasPost` puts only `ts`, `sig` and a truthy `userId` into the query. `action` travels in the JSON body only.
- An ok reply whose body is not JSON rejects with the parse error. The code has no dedicated "upstream format" error.
- In `apiJson` of the store page, the server's `error` text is thrown inside the `try`, and its own `catch` replaces it with `HTTP status: body`. See `StoreClient.ApiJsonIgnoresServerError`.

## Model

| member | source | states |
|---|---|---|
| Slug.Slugify | client/src/App.jsx:73-79 | the slug is non-empty and at most 64 characters from `[a-z0-9\-_.]`; it is the width-folded, lower-cased, dash-joined, stripped and truncated input whenever that is non-empty, and `String(now)` exactly when it is empty |
| Slug.FallbackIsSlug | client/src/App.jsx:78 | `String(Date.now())` is itself a valid slug, at most 16 characters long for any time value ECMAScript allows |
| Slug.FullWidthDigitSlug | client/src/App.jsx:74 | NFKC folds a full-width digit to ASCII, so the slug of `１` is `1`, not the timestamp fallback |
| Slug.SlugifyKeepsSlug | client/src/App.jsx:73-79 | a slug is a fixed point of `slugify` |
| Slug.SlugifyIdempotent | client/src/App.jsx:73-79 | `slugify(slugify(s)) == slugify(s)`, whatever the clock reads at each call |
| Slug.DashSpacesNoSpace | client/src/App.jsx:76 | replacing white-space runs leaves text without white space unchanged |
| Slug.SlugOfDeletedParts | client/src/App.jsx:73-79 | when the three text parts consist only of characters the slug deletes, the id of `a-b-c-idx` is `---idx`, so only the index separates such items |
| Catalog.RowItem | client/src/App.jsx:50-59 | a row's item has a slug id, and it can be named only if the row's third field is truthy |
| Catalog.FirstOf | client/src/App.jsx:67-69 | `a ?? b ?? ''`: the first non-nullish of the key and its alias, stringified, else `""` |
| Catalog.ObjectItem | client/src/App.jsx:63-70 | an existing id is kept as a string, otherwise a slug is built; the name falls back to `title`; the image URL falls back to `image`; a missing price is 0 |
| Catalog.Items | client/src/App.jsx:50-69 | `input.map` yields one item per element; in the row shape each has a slug id and the name is the row's third field stringified, or `''` when that field is falsy, in the object shape the name is `x.name ?? x.title ?? ''` |
| Catalog.NormalizeCategories | client/src/App.jsx:46-71 | a non-array gives `[]`; an array succeeds exactly when every element can be mapped in the shape its first element selects, and otherwise throws a TypeError; the result holds only named items, is no longer than the input, is an order-preserving subsequence of the mapped items, and keeps exactly the named ones |
| Catalog.RowIdsAreSlugs | client/src/App.jsx:49-60 | every item that survives the name filter in the row shape has a slug id |
| Catalog.ObjectAfterRowThrows | client/src/App.jsx:49-51 | the shape is chosen from the first element only: an object after a row cannot be destructured, so the whole call throws |
| Catalog.EmptyObjectIdKept | client/src/App.jsx:64 | an object's `id: ""` is kept as the empty id |
| Catalog.NegativePriceKept | client/src/App.jsx:68 | a negative price passes through unchanged, and `title` stands in for a missing `name` |
| Catalog.RowIdOfDeletedText | client/src/App.jsx:53 | the id of a row whose text fields are all deleted characters is `---idx`, where idx is the position before filtering |
| Catalog.SingleRow | client/src/App.jsx:49-60 | a one-row catalog whose row is named normalises to exactly that row's item |
| Catalog.RowItemOfFive | client/src/App.jsx:50-59 | a row of three strings, a number and a string maps field by field, with the id being the slug of `category-subcategory-name-idx` |
| Catalog.SingleObject | client/src/App.jsx:63-70 | a one-object catalog whose object is named normalises to exactly that object's item |
| Catalog.DeletedRowItem | client/src/App.jsx:50-59 | row 0 with text made only of deleted characters gets the id `---0` and keeps its values |
| Catalog.DeletedTextRow | client/src/App.jsx:49-60 | a one-row catalog whose text is made only of deleted characters (kana or kanji, say) gives one item with id `---0` and the row's values |
| StoreClient.CheckAdmin | client/src/App.jsx:25-34 | an empty user id gives `{ok:false,isAdmin:false}` without a request; any other answer is the parsed body of an ok reply, and every failure reads as "not an administrator" |
| StoreClient.CheckAdminWithoutUser | client/src/App.jsx:26 | without a user id, the reply is never consulted |
| StoreClient.ApiJson | client/src/App.jsx:6-17 | a network error rejects with its message; a status that is not ok always fails with `HTTP status: first 200 characters`; an ok status gives the parse outcome, the parsed body or the parse error |
| StoreClient.ApiJsonIgnoresServerError | client/src/App.jsx:11-14 | the server's `error` field never changes the message |
| StoreClient.CatalogInput | client/src/App.jsx:21 | the list to normalise is always an array: `j.items` when that is an array, else `j` when it is one, else `[]` |
| StoreClient.FetchCategories | client/src/App.jsx:19-23 | an `apiJson` failure is passed on unchanged; otherwise the result is `NormalizeCategories` of the list `CatalogInput` picks from the body; a successful catalog comes from an ok, parsed reply, and every item in it is named |
| StoreClient.FetchCategoriesShapes | client/src/App.jsx:21 | a bare array and the same array under `items` give the same catalog |
| StoreClient.IndexOf | client/src/App.jsx:151 | the index found is the first line with that id, and -1 means no line has it |
| StoreClient.FindIndex | client/src/App.jsx:151 | the loop finds the same index as `findIndex` |
| StoreClient.AddLine | client/src/App.jsx:149-159 | an id already in the cart raises that line's qty by one and leaves the length and every other line unchanged; otherwise `{id,name,price,qty:1}` is appended |
| StoreClient.AddLineWellFormed | client/src/App.jsx:149-159 | adding keeps ids pairwise distinct and every qty positive |
| StoreClient.AddLineQty | client/src/App.jsx:149-159 | adding raises the item's quantity by one and leaves every other id's quantity alone |
| StoreClient.AddLineTotal | client/src/App.jsx:149-159 | adding raises the cart total by one unit's price: the line's price if the item was present, the item's price otherwise |
| StoreClient.ChangeLines | client/src/App.jsx:161-167 | every remaining line has qty > 0, there are no more lines than before, and the lines keep their relative order (a subsequence of the mapped cart) |
| StoreClient.ChangeLinesWellFormed | client/src/App.jsx:161-167 | changing a quantity keeps ids pairwise distinct and every qty positive |
| StoreClient.ChangeLinesOthers | client/src/App.jsx:161-167 | every line with another id survives unchanged, and no line with another id appears that was not there |
| StoreClient.ChangeLinesRaised | client/src/App.jsx:164 | a positive new quantity updates that one line in place |
| StoreClient.ChangeLinesRemoved | client/src/App.jsx:165 | a quantity that drops to zero or below removes exactly that line |
| StoreClient.ChangeLinesTotal | client/src/App.jsx:161-167 | the total moves by delta times the line's price, or loses the line's whole subtotal when it is removed |
| StoreClient.ChangeLinesAbsent | client/src/App.jsx:161-167 | changing the quantity of an id the cart does not hold changes nothing |
| StoreClient.CartTotal | client/src/App.jsx:92-95 | an empty cart totals 0, and a cart without negative prices or quantities never totals below 0 |
| StoreClient.CartTotalCons | client/src/App.jsx:92-95 | the left-fold total equals the sum taken from the front |
| StoreClient.CartTotalAppend | client/src/App.jsx:92-95 | the total of two carts joined is the sum of their totals |
| StoreClient.CartTotalPush | client/src/App.jsx:92-95 | appending a line adds its subtotal to the total |
| StoreClient.CartTotalRemove | client/src/App.jsx:92-95 | removing one line takes its subtotal off the total |
| StoreClient.CartTotalBump | client/src/App.jsx:92-95 | changing one line's qty by `delta` moves the total by `delta` times its price |
| StoreClient.CartTotalUpdate | client/src/App.jsx:92-95 | replacing one line changes the total by the difference of the two subtotals |
| StoreClient.OrderRequest | client/src/App.jsx:170-177 | no order for an empty cart; otherwise the items are the cart, the note is empty, and `liffUserId` is the user's id or `''` |
| StoreClient.CartAfterSubmit | client/src/App.jsx:183-186 | the cart is either kept or emptied, and it is emptied exactly when it was non-empty and the reply is ok with `ok === true` |
| StoreClient.Cart.constructor | client/src/App.jsx:90-91 | the cart starts empty and not submitting |
| StoreClient.Cart.AddToCart | client/src/App.jsx:149-159 | the new cart is `AddLine` of the old one; the item's quantity rises by one and no other quantity changes; the total rises by one unit's price; the submitting flag is untouched; the cart stays well formed |
| StoreClient.Cart.ChangeQty | client/src/App.jsx:161-167 | the new cart is `ChangeLines` of the old one: unchanged for an absent id, that one line updated in place for a positive new quantity, that one line removed otherwise; the cart stays well formed |
| StoreClient.Cart.SubmitOrder | client/src/App.jsx:169-192 | the body posted is `OrderRequest`; the cart becomes `CartAfterSubmit`; submitting ends false after a request and is untouched for an empty cart; the cart stays well formed |
| ClientApi.EntryOf | client/api.js:31-35 | string `id` and `name` are kept as given; missing `id`, `name` and `imageUrl` become `''` |
| ClientApi.NormalizeEntries | client/api.js:30-36 | a nullish element throws a TypeError; otherwise the result is exactly the entries with non-empty id and name, in input order, no more of them than there were elements |
| ClientApi.NormalizeEntriesKeeps | client/api.js:35 | every element with a non-empty stringified id and name is in the result |
| ClientApi.NormalizeEntriesKeepsDuplicates | client/api.js:30-36 | two rows with the same id both survive |
| ClientApi.ItemsOf | client/api.js:8 | the items when they are truthy, otherwise an empty array |
| ClientApi.FetchCategories | client/api.js:3-9 | a network error or a non-ok status (`categories status`) fails; for an ok status, a parse error is passed on, a nullish body throws a TypeError, a body without a truthy `ok` fails with `UpstreamMessage`, and otherwise the result is `NormalizeEntries` of `ItemsOf(j)`, or a TypeError when that is not an array; every entry returned is listed |
| ClientApi.FetchCategoriesUpstreamError | client/api.js:7 | a body without a truthy `ok` fails with its `error` text, or `upstream_error` when it has none |
| ClientApi.FetchCategoriesWithoutItems | client/api.js:8 | any body with a truthy `ok` and a missing or falsy `items` gives an empty list |
| ClientApi.IsAdmin | client/api.js:11-19 | a non-ok status gives `{ok:false,isAdmin:false}`; an ok status gives the parsed body; a failed fetch rejects |
| ClientApi.RegisterAdmin | client/api.js:21-28 | the parsed body whatever the status |
| ClientApi.RegisterAdminIgnoresStatus | client/api.js:17-27 | a 500 registration reply reads like a 200 one, while a 500 `is-admin` reply reads as "not an administrator" |
| RescueApp.AdminVerdict | client/App.jsx:23-24 | an admin value is produced exactly when the reply could be read and is not nullish, and it is true exactly when `isAdmin` is truthy |
| RescueApp.Rescue | client/App.jsx:48-58 | no user means no effect; the admin flag is set exactly when a user exists, the registration body has a truthy `ok`, and the re-check can be read, and then it is the re-check's `!!isAdmin`; the success alert goes with true and the "not reflected" alert with false; true requires an ok re-check reply |
| RescueApp.RescueRefusedIgnoresCheck | client/App.jsx:51-52 | the re-check is issued only after an accepted registration: when the registration is refused, the outcome does not depend on what `isAdmin` would answer |
| RescueApp.RescueFlagFromCheckOnly | client/App.jsx:51-53 | once the registration is accepted, its body plays no further part: any two accepted registrations lead to the same outcome, so the flag never comes from the registration reply |
| RescueApp.RescueIgnoresRegistrationStatus | client/App.jsx:50-51 | the registration reply's HTTP status plays no part, only its body |
| RescueApp.RescueRefused | client/App.jsx:55-57 | a registration body without a truthy `ok` (`{ok:false, error}` included) leaves `admin` alone and shows the server's `error` when it is truthy, or `unknown` |
| RescueApp.ErrorText | client/App.jsx:38 | the shown error is never empty and is the message when it has one |
| RescueApp.FailedCheckOffersRescue | client/App.jsx:23-24 | an `is-admin` reply with an error status sets `admin` false, and a failed request never makes it true |
| RescueApp.App.constructor | client/App.jsx:7-11 | no user, not admin, no categories, loading, no error, so no rescue is offered |
| RescueApp.App.NeedAdminRescue | client/App.jsx:46 | the rescue is offered only to a signed-in user, and never to an administrator |
| RescueApp.App.Init | client/App.jsx:13-29 | the user is the profile; `admin` becomes `!!r.isAdmin` when the check could be read and is otherwise unchanged; the rescue is then offered exactly when `admin` is false |
| RescueApp.App.StartLoadCategories | client/App.jsx:31-33 | loading is set and the error cleared, and nothing else changes |
| RescueApp.App.FinishLoadCategories | client/App.jsx:34-41 | `cats` is replaced only on success, a failure sets the error text, and loading ends false |
| RescueApp.App.LoadCategories | client/App.jsx:31-42 | after the whole call, an error is shown exactly when the fetch failed; `cats` is replaced only on success; loading ends false; user and admin are untouched |
| RescueApp.App.HandleRescueRegister | client/App.jsx:48-58 | the alert and the new `admin` are those of `Rescue`, and only `admin` can change; after the success alert the rescue is no longer offered, after the "not reflected" alert it still is |
| JsRuntime.ToNumberOfIntString | client/src/App.jsx:57 | `Number(String(n)) == n` for every integer, so a price sent as a numeral reads as its value |
| Relay.SigningKey | index.js:23 | the key is the secret, or `""` when it is unset |
| Relay.SignatureBase | index.js:22 | the signed text starts with `String(action)` followed by a dot, and ends with a dot when `userId` is missing |
| Relay.SignPayload | index.js:21-26 | an unset or empty secret signs with the empty key, and a missing `userId` is signed as `""` |
| Relay.SignPayloadDefaults | index.js:21-25 | a missing `userId` is signed as `""`, and an unset secret signs with the empty key |
| Relay.UnixSeconds | index.js:30 | `ts` is milliseconds divided by 1000 and rounded down (the same in `gasPost`, line 47) |
| Relay.SignatureBaseInjective | index.js:22 | for actions without a dot and non-negative `ts`, equal signed texts mean equal action, `ts` and `userId` |
| Relay.SignatureBaseCollision | index.js:22 | with a dot in the action, `("a.1", 2, "x")` and `("a", 1, "2.x")` get the same signature |
| Relay.Upstream | index.js:37-43 | a non-ok status fails with `GAS GET/POST action status`, an ok one yields the parsed body, and a network failure rejects |
| Relay.SetEntries | index.js:33-35 | the query holds exactly the URL's own parameters and the non-nullish entries |
| Relay.SetSomeStep | index.js:33-35 | visiting one entry sets it as `String(v)` unless it is nullish |
| Relay.SetQuery | index.js:33-35 | the `forEach` loop builds exactly `SetEntries` |
| Relay.GasGet | index.js:29-44 | without `GAS_URL`, it throws before any request; otherwise the query is `SetEntries` of `{...params, ts, sig}`, with the same `ts` signed and sent, and the result is `Upstream("GAS GET", ...)` |
| Relay.GetQueryStamps | index.js:33 | the generated `ts` and `sig` are always in the query and override caller keys of the same name |
| Relay.GetQueryEntries | index.js:33-35 | a non-nullish parameter is sent as `String(v)`; a nullish one is not set, so the URL's own value of that name remains |
| Relay.GetSignsOtherUserId | index.js:31-35 | a `userId` of `0` is signed as `""` but sent as `"0"` |
| Relay.PostQuery | index.js:49-52 | the query always has `ts` and `sig`; a truthy `body.userId` is set as `userId`, and otherwise the URL's own `userId`, if any, is kept; every other URL parameter stays as it was |
| Relay.GasPost | index.js:46-64 | a nullish body or a missing `GAS_URL` throws before any request; otherwise it sends `PostQuery` with the same `ts` signed and sent, posts the body unchanged, and returns `Upstream("GAS POST", ...)` |
| Relay.PostSignsWhatItSends | index.js:48-56 | when `GAS_URL` has no `userId` of its own, the `userId` signed is the one sent, or `""` when none is sent; `action` is never added to the query |
| Seqs.Filter | client/src/App.jsx:70 | the filtered list keeps only passing elements, and its length is their count |
| Seqs.FilterIsSubsequence | client/src/App.jsx:70 | `filter` keeps the input order |
| Seqs.FilterMembers | client/api.js:35 | exactly the passing elements are in the result |
| Seqs.FilterAllKept | client/src/App.jsx:165 | a filter that every element passes changes nothing |
| Seqs.FilterDropsOne | client/src/App.jsx:165 | a filter removes exactly the one failing element from among passing ones |
| Seqs.FilterKeepsProperty | client/src/App.jsx:60 | a property every element has, every survivor has |
| Seqs.SubsequenceKeepsPairwise | client/src/App.jsx:165 | a relation between earlier and later elements, such as distinct ids, survives filtering |

## Left out

- Slug.Slugify: Unicode NFKC normalisation is modelled only for the full-width forms U+FF01-U+FF5E, which fold to ASCII, and `toLowerCase` maps only `A`-`Z`. Canonical composition is not modelled: `e` followed by U+0301 gives `e` in the model, while the code composes `é`, strips it and may fall back to the timestamp. Compatibility mappings that produce a space are not modelled either: U+00A8 in `a\u00A8b` is stripped in the model (`ab`), while the code turns it into a space and gives `a-b`. Other compatibility characters that the code turns into slug characters (circled digits, ligatures, `İ`, the Kelvin sign, ...) are stripped by the model instead. Names containing them therefore get other ids in the model than in the code: fewer characters, or the timestamp fallback. `Slug.Deleted`, and with it `Slug.SlugOfDeletedParts`, `Catalog.RowIdOfDeletedText`, `Catalog.DeletedRowItem` and `Catalog.DeletedTextRow`, describes the characters the modelled slug deletes. Kana and kanji are among them in the code as well.
- `Number()` coercion is modelled on integers only. Prices and quantities are integers (yen). Decimal fractions, exponents, hexadecimal numerals and `NaN` all read as 0, and floating-point arithmetic is not modelled.
- Engine error wording is not modelled: every `TypeError` carries the fixed message `TypeError`. The text of a JSON parse error is part of the reply oracle.
- A property read on a string or array returns `undefined` for every key. The modelled code never reads `length` or another property of a string or array through a property access; `input.length` and `cart.length` are sequence lengths in the model.
- One `now` is used for a whole normalisation pass. Two fallbacks in the same pass would read `Date.now()` twice in the code.
- HMAC-SHA256 is an uninterpreted parameter. Nothing is claimed about its collision resistance.
- URL parsing and serialisation are not modelled. `GAS_URL` is given as its query map, and a value that `new URL` would reject is not covered. The order of query parameters and duplicate names are not modelled either.
- Logging (`console`), the `r.text()` read of a failed upstream reply, dotenv, Express middleware and routes are not modelled. `index.js` is cut off at line 88, so no route handler is visible.
- React rendering, `alert` texts (only which alert is shown is modelled), LIFF login, and the mock profile of the init effects are not modelled. The profile is a parameter.
- The store page's init effect and its own `loadCategories` (client/src/App.jsx:97-145) are not modelled as state changes. Their shape is that of the rescue page's `Init` and `LoadCategories`, but they call `checkAdmin` instead of `isAdmin`, and the store page's own `fetchCategories` and `apiJson` (client/src/App.jsx:6-23, modelled as `StoreClient.FetchCategories` and `StoreClient.ApiJson`) instead of those of client/api.js. They therefore fail with other messages: `HTTP status: text` and JSON parse errors rather than `categories status` or `upstream_error`.
- StoreClient.HttpErrorMessage: `text.slice(0, 200)` counts UTF-16 code units, while the model keeps the first 200 Unicode characters. The two differ on bodies with characters outside the Basic Multilingual Plane, such as emoji, because the code may cut a surrogate pair in half.
- The request bodies of `isAdmin` and `registerAdmin` (`JSON.stringify` of their arguments) are not modelled. Their replies are oracles.
- `client/components/CategoryAdminUI.jsx`, `client/api/fetchAPI.js`, `client/src/api.js` and `client/vite.config.js` are not part of this model: they are a file-upload form and thin fetch wrappers.
- Concurrency between overlapping handlers is not modelled. Each handler runs to completion against the replies it is given.
