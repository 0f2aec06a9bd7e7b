# era storefront: a verified model of its core logic

This project models the sequential logic of the "era" storefront, a Next.js shop that sells clothing
in Japanese yen. It also has a hidden "shadow" members' area. One Dafny module stands for each core
source file:

- `CartContext` (cart_context.dfy): the cart. It is a list of lines keyed by product id and size.
  - `addToCart` merges a line whose key is already there, or appends a new line.
  - `removeItem` drops the lines with exactly that key.
  - `clearCart` empties the list.
  - The derived values are `total` (the sum of price times quantity) and `pointsToEarn`
    (`floor(total / 100)`).
  - The `Cart` class keeps the list as a `seq` field. Its methods reassign that field.
- `CheckoutRoute` (checkout_route.dfy): the `POST /api/checkout` handler.
  - It validates the body, maps each cart item to one Stripe line item in JPY, and builds the
    session parameters.
  - It maps each failure to its HTTP status.
  - Stripe's `checkout.sessions.create` is a function parameter. Its outcome is a session with or
    without a url, or a thrown error.
- `StripeWebhookRoute` (stripe_webhook_route.dfy): the `POST /api/stripe-webhook` handler.
  - It runs the guard chain: signature header, then webhook secret, then signature verification.
    Verification is a function parameter.
  - It then runs the event-type switch.
  - For `checkout.session.completed` it runs the update "set status PAID where `stripe_session_id` =
    id". The orders table is an `OrdersTable` object whose rows the update's loop rewrites in place.
  - The database's answer to the update is a parameter: applied, reported an error, or threw.
- `PaymentMethodsSection` (payment_methods_section.dfy): the saved-card list on the account page.
  - Adding a card validates the fields and builds the new record: last four digits, expiry month
    and year, label, and whether it is the default.
  - The section can also set the default card and delete a card.
- `ProductsData` and `ProductsPage` (products_data.dfy, products_page.dfy): the catalog.
  - They hold the constant catalog and the category-filter bar.
  - The products page chains a category filter and a gender filter.
  - Product cards map category and gender to labels, and mark products tagged "Soon".
- `TriggerClicks` (trigger_clicks.dfy): the three-click counter that opens both access modals.
- `ShadowGate` and `ShadowKey` (shadow_gate.dfy, shadow_key.dfy): the two access modals. Each takes a
  secret number and a pass phrase.
  - On success the footer gate writes the `shadow_member=1` cookie. The corner key writes no cookie.
  - Both then navigate to `/shadow`.
  - Cookies and navigation are fields of the component object.
- `Middleware` (middleware.dfy): the request guard. A path that starts with `/shadow` needs the member
  cookie, and is otherwise redirected to `/`. The framework's route matcher is modelled separately.
- `MainHeader` (main_header.dfy): the header is hidden on `/shadow` paths. The model also covers the
  active-link rule and the mobile menu flag.
- `ShadowPage` (shadow_page.dfy): the member console's identity card.
  - Saving trims the inputs, then stores a non-blank value or removes a blank one from local
    storage.
  - It also covers the codename label, the initials, and the cancel-edit reset.
- `ArchivePage` (archive_page.dfy): the archive accordion, in which at most one file is open, and the
  status badge colours.
- `Common` (common.dfy): string and sequence helpers used by the modules above.
  - JavaScript's `trim` and `toUpperCase` over ASCII.
  - `split` and `join` on one character.
  - `Number` over digit strings.
  - An order-preserving `filter`, with a subsequence relation to reason about it.

Some things the code does not do, and the model therefore does not do either:

- `addToCart` does not clamp the quantity to at least 1.
- The cart redeems no points.
- Checkout writes no pending order.
- The webhook sets PAID on every matching order, whatever its current status.

The two access modals differ in one way. The corner key (`ShadowKey`) navigates to `/shadow` without
writing the member cookie. So for a visitor who does not already hold the cookie, the middleware
redirects that navigation back to `/`. The model keeps this behaviour as written, and
`ShadowKey.NavigationWithoutCookieBounces` states it.

## Model

The table lists the members that carry a contract. The functions that only define an
operation have no row of their own. They are named in the rows of the lemmas and methods whose
contracts state what those functions compute:

- `CartContext.Total`, `Added`, `Bumped`, `NewLine` and `Removed`;
- `StripeWebhookRoute.MarkedPaid`;
- `PaymentMethodsSection.NewMethod`, `WithDefault` and `WithoutMethod`;
- `ProductsPage.CategoryLabel`, `GenderLabel` and `IsSoon`;
- `ArchivePage.Toggled` and `StatusColor`;
- `ShadowPage.CodenameLabel` and `Initials`;
- `Common.Trim` and `Split`.

| member | source | states |
|---|---|---|
| CartContext.PointsToEarn | app/context/cart-context.tsx:63 | the points are `floor(total / 100)`: `points * 100 <= total < points * 100 + 100` |
| CartContext.FindIndex | app/context/cart-context.tsx:72-74 | `find` by (id, size): None exactly when no line matches; otherwise the first matching index |
| CartContext.TotalOfConcat | app/context/cart-context.tsx:57-60 | the total of a concatenation is the sum of the totals |
| CartContext.TotalNonNegative | app/context/cart-context.tsx:57-63 | with non-negative prices and quantities, the total and the points are non-negative |
| CartContext.TotalOfUpdate | app/context/cart-context.tsx:57-60 | replacing one line changes the total by the difference of the two line amounts |
| CartContext.EmptyCartTotal | app/context/cart-context.tsx:57-63 | an empty cart has total 0 and earns 0 points |
| CartContext.AddExistingKey | app/context/cart-context.tsx:71-81 | adding a key already present keeps the length; that line's quantity grows by the added quantity; non-matching lines are unchanged; with distinct keys, the result is the list with that one line updated |
| CartContext.AddNewKey | app/context/cart-context.tsx:82-91 | adding a new key appends exactly one line after the untouched old lines, holding the product's id, name and price, the size and the quantity |
| CartContext.AddPreservesDistinct | app/context/cart-context.tsx:72-91 | pairwise-distinct (id, size) keys stay distinct after an add |
| CartContext.LineAmountGrows | app/context/cart-context.tsx:75-81 | raising a line's quantity by q raises its amount by price times q |
| CartContext.AddTotalMerge | app/context/cart-context.tsx:71-81 | merging into an existing line raises the total by that line's price times the quantity |
| CartContext.AddTotalAppend | app/context/cart-context.tsx:82-91 | appending a new line raises the total by the product's price times the quantity |
| CartContext.AddTotal | app/context/cart-context.tsx:57-91 | with distinct keys, an add raises the total by the unit price of the merged or new line times the quantity |
| CartContext.RemovedPreservesDistinct | app/context/cart-context.tsx:95-97 | pairwise-distinct (id, size) keys stay distinct after a remove |
| CartContext.RemoveExact | app/context/cart-context.tsx:95-97 | `removeItem` keeps exactly the lines that do not match both id and size (an absent size matches only an absent size), in order; nothing matches means no change |
| CartContext.Cart.constructor | app/context/cart-context.tsx:37 | the cart starts empty, so its keys are distinct |
| CartContext.Cart.AddToCart | app/context/cart-context.tsx:65-93 | the new list is the merge-or-append of the product with the given quantity, default 1; key distinctness is kept; the total grows by unit price times quantity |
| CartContext.Cart.RemoveItem | app/context/cart-context.tsx:95-97 | the new list holds exactly the old lines not matching the key, as an order-preserving subsequence; key distinctness is kept |
| CartContext.Cart.ClearCart | app/context/cart-context.tsx:99-101 | the list is empty, so its keys are distinct and total and points are 0 |
| CheckoutRoute.BaseUrl | app/api/checkout/route.ts:52-57 | the base url is the configured site url when it is set and non-empty, and `http://localhost:3000` when it is unset or empty |
| CheckoutRoute.LineItems | app/api/checkout/route.ts:34-46 | exactly one line item per cart item, in the same order |
| CheckoutRoute.ErrorMessage | app/api/checkout/route.ts:68-76 | a thrown error's non-empty message, or "Unknown error" exactly when the message is missing or empty |
| CheckoutRoute.Post | app/api/checkout/route.ts:20-77 | status is 200, 400 or 500; an unparseable body gives 400 with its message; a missing or empty item list gives 400 with "カートが空です。"; otherwise the provider's result decides |
| CheckoutRoute.Respond | app/api/checkout/route.ts:60-76 | 200 with `{ url }` exactly when a session with a non-empty url came back; a session without one gives 500; a throw gives 400 with the message |
| CheckoutRoute.EmptyCartSkipsProvider | app/api/checkout/route.ts:24-31 | with no items, the response is 400 and does not depend on the session provider at all |
| CheckoutRoute.SessionRequestShape | app/api/checkout/route.ts:34-51 | the session is mode "payment", card only, one line item per cart item carrying its quantity, currency "jpy", its name and its price as the unit amount |
| CheckoutRoute.SessionUrls | app/api/checkout/route.ts:52-57 | success and cancel urls are base + "/cart?status=success" and base + "/cart?status=cancel"; when the site url is unset or empty, both start with `http://localhost:3000` |
| CheckoutRoute.LineItemsRecoverCart | app/api/checkout/route.ts:34-46 | each line item gives back its cart item's name, price and quantity, with no conversion |
| StripeWebhookRoute.VerificationErrorText | app/api/stripe-webhook/route.ts:40-44 | the text is "Webhook Error: " followed by the error's message, or by "Invalid signature" when the error has none |
| StripeWebhookRoute.Decide | app/api/stripe-webhook/route.ts:18-82 | a missing header rejects with 400 first; then a missing secret rejects with 500; then a failed verification rejects with 400 and the verification error text; only a verified `checkout.session.completed` event marks orders paid, for that event's session id |
| StripeWebhookRoute.Respond | app/api/stripe-webhook/route.ts:84 | the answer is `{ received: true }` exactly when the request was not rejected; a rejection is answered with its own status and text |
| StripeWebhookRoute.MarkedPaidExact | app/api/stripe-webhook/route.ts:55-58 | the update sets PAID on exactly the orders with that session id, and changes no other order and no other field |
| StripeWebhookRoute.MarkedPaidIdempotent | app/api/stripe-webhook/route.ts:55-58 | applying the same update twice gives the same table as applying it once |
| StripeWebhookRoute.OrdersTable.constructor | app/api/stripe-webhook/route.ts:55-58 | the table holds the given rows |
| StripeWebhookRoute.OrdersTable.SetPaidWhereSession | app/api/stripe-webhook/route.ts:55-58 | the loop's result is the set-based update over the old rows |
| StripeWebhookRoute.Post | app/api/stripe-webhook/route.ts:17-85 | the response is received exactly when verification succeeded, even if the update failed or threw; the table changes only for an applied update of a completed session, and then by the set-based update |
| StripeWebhookRoute.OnlyVerifiedCompletionsMutate | app/api/stripe-webhook/route.ts:33-81 | a request that does not mark orders paid is rejected exactly when the header, the secret or the verification failed; any other event type is received and changes nothing |
| StripeWebhookRoute.FailedVerificationAnswers400 | app/api/stripe-webhook/route.ts:33-45 | a signature that does not verify is answered 400 with "Webhook Error: " and the message, or "Webhook Error: Invalid signature" |
| StripeWebhookRoute.MissingSignatureFirst | app/api/stripe-webhook/route.ts:18-23 | without a header, the answer is 400 "Missing stripe-signature header" whatever the secret and the verifier |
| PaymentMethodsSection.Last4 | app/account/sections/PaymentMethodsSection.tsx:60 | `slice(-4)`: the last four characters of the number, or the whole number when shorter |
| PaymentMethodsSection.NumberOr | app/account/sections/PaymentMethodsSection.tsx:61-62 | `Number(x) \|\| fallback`: a piece that parses to a non-zero number gives that number; a missing piece, one that is not a number, and 0 give the fallback |
| PaymentMethodsSection.ExpMonth | app/account/sections/PaymentMethodsSection.tsx:61 | the expiry month is at least 1 |
| PaymentMethodsSection.ExpYear | app/account/sections/PaymentMethodsSection.tsx:62 | the expiry year is above 2000 |
| PaymentMethodsSection.LabelOrDefault | app/account/sections/PaymentMethodsSection.tsx:63 | the label is the typed label, or "New card" when that is empty |
| PaymentMethodsSection.SplitExpiry | app/account/sections/PaymentMethodsSection.tsx:56 | "MM/YY" splits on "/" into MM and YY |
| PaymentMethodsSection.IndexOfFirst | app/account/sections/PaymentMethodsSection.tsx:56 | the separator search finds the first occurrence |
| PaymentMethodsSection.ExpiryRoundTrip | app/account/sections/PaymentMethodsSection.tsx:56-62 | for "MM/YY" the month is the value of MM when it is a non-zero number, else 1; the year is 2000 + YY when YY is a non-zero number, else 2030 |
| PaymentMethodsSection.ExpiryWithoutSlash | app/account/sections/PaymentMethodsSection.tsx:56-62 | an expiry without "/" is read as the month alone, and the year falls back to 2030 |
| PaymentMethodsSection.ExpiryExample | app/account/sections/PaymentMethodsSection.tsx:394 | the placeholder's form "04/28" gives month 4 and year 2028 |
| PaymentMethodsSection.ExpiryZeroMonth | app/account/sections/PaymentMethodsSection.tsx:61 | "00/28" falls back to month 1 and keeps year 2028 |
| PaymentMethodsSection.ExpiryPlaceholderFallsBack | app/account/sections/PaymentMethodsSection.tsx:61-62 | "MM/YY" (no numbers) falls back to month 1 and year 2030 |
| PaymentMethodsSection.ExpiryOfNumbers | app/account/sections/PaymentMethodsSection.tsx:56-62 | a month and year written in decimal as "M/Y" come back as that month and 2000 + year |
| PaymentMethodsSection.NewMethodFields | app/account/sections/PaymentMethodsSection.tsx:57-65 | the new method is a "Card" with id "local_…", last4 of the number, the parsed expiry month and year (at least 1, and above 2000), the label or "New card", and it is the default exactly when the list was empty |
| PaymentMethodsSection.SetDefaultExact | app/account/sections/PaymentMethodsSection.tsx:85-93 | after set-default, a method is default exactly when its id is the chosen id, and no other field changes |
| PaymentMethodsSection.SetDefaultCount | app/account/sections/PaymentMethodsSection.tsx:85-93 | the number of defaults equals the number of methods carrying the chosen id |
| PaymentMethodsSection.CountDistinctId | app/account/sections/PaymentMethodsSection.tsx:85-93 | with distinct ids, an id present in the list is carried by exactly one method |
| PaymentMethodsSection.ExactlyOneDefault | app/account/sections/PaymentMethodsSection.tsx:85-93 | with distinct ids, setting an existing method as default leaves exactly one default |
| PaymentMethodsSection.DeleteExact | app/account/sections/PaymentMethodsSection.tsx:95-98 | delete keeps exactly the methods with another id, in order |
| PaymentMethodsSection.PaymentMethods.constructor | app/account/sections/PaymentMethodsSection.tsx:37-43 | the list starts as the two sample cards, with empty form fields, not saving and no error |
| PaymentMethodsSection.PaymentMethods.TypeInto | app/account/sections/PaymentMethodsSection.tsx:351 | an input's `onChange` sets that one field and nothing else |
| PaymentMethodsSection.PaymentMethods.HandleAddMethod | app/account/sections/PaymentMethodsSection.tsx:45-83 | an empty number, expiry or cvc sets the error and changes nothing else; otherwise the new method is appended, the form is reset, the error is cleared and saving ends |
| PaymentMethodsSection.PaymentMethods.HandleSetDefault | app/account/sections/PaymentMethodsSection.tsx:85-93 | the list becomes the set-default update; with distinct ids and an existing id, exactly one method is default |
| PaymentMethodsSection.PaymentMethods.HandleDelete | app/account/sections/PaymentMethodsSection.tsx:95-98 | the list keeps exactly the methods with another id |
| ProductsData.CatalogRatingsAndPrices | app/lib/products-data.ts:46-216 | every catalog rating lies in 0.0–5.0 and every price is positive |
| ProductsData.CategoryFiltersShape | app/lib/products-data.ts:37-43 | the filter bar starts with "ALL" and lists each of the four categories exactly once |
| ProductsPage.FilteredProducts | app/products/page.tsx:22-34 | a product is shown exactly when it is in the list and passes both filters |
| ProductsPage.BothAllShowsEverything | app/products/page.tsx:22-34 | with both filters at "ALL", the full list is shown |
| ProductsPage.CategoryFilterExact | app/products/page.tsx:25-27 | a category filter keeps exactly that category's products, in order |
| ProductsPage.GenderFilterExact | app/products/page.tsx:29-31 | a gender filter keeps exactly that gender's products, in order |
| ProductsPage.FilteredIsSubsequence | app/products/page.tsx:22-34 | the result is an order-preserving subsequence of the catalog, so the shown count is at most the catalog size |
| ProductsPage.PlaceholderText | app/products/page.tsx:254 | the card reads "SOON" exactly when the product is tagged "Soon" |
| ProductsPage.CategoryLabelsDistinct | app/products/page.tsx:192-201 | the category labels are distinct, and agree with the filter bar except "Accessory" for ACCESSORIES |
| ProductsPage.GenderLabelsDistinct | app/products/page.tsx:203-208 | the gender labels are Men, Women and Unisex, one per gender |
| TriggerClicks.Click | app/components/ShadowGate.tsx:20-27 | a click opens the modal exactly on reaching three, and the counter becomes 0 on opening and count + 1 otherwise, so it stays below three |
| TriggerClicks.ClicksInARow | app/components/ShadowGate.tsx:20-27 | after n clicks the counter is (count + n) mod 3, and the modal has been opened (count + n) div 3 times |
| TriggerClicks.ThirdClickOpens | app/components/ShadowKey.tsx:18-28 | from a fresh counter, two clicks do not open the modal and the third does |
| ShadowGate.Gate.constructor | app/components/ShadowGate.tsx:11-16 | the gate starts closed, with a zero counter and empty inputs |
| ShadowGate.Gate.HandleTriggerClick | app/components/ShadowGate.tsx:20-27 | from a counter below three, the counter steps as one click; the modal opens exactly on the click that finds the counter at 2, and the counter stays below three |
| ShadowGate.Gate.HandleSubmit | app/components/ShadowGate.tsx:29-40 | exactly the pair ("729104", "silent-monarch") clears the error, writes `shadow_member=1` (so the middleware admits the visitor), closes the modal and navigates to "/shadow"; any other pair sets "ACCESS DENIED" and writes no cookie |
| ShadowGate.Gate.Cancel | app/components/ShadowGate.tsx:210 | Cancel closes the modal and touches nothing else |
| ShadowGate.Gate.TypeNumber | app/components/ShadowGate.tsx:140 | the number input sets the number |
| ShadowGate.Gate.TypePhrase | app/components/ShadowGate.tsx:171 | the phrase input sets the phrase |
| ShadowKey.Key.constructor | app/components/ShadowKey.tsx:11-15 | the key starts closed, with a zero counter and empty inputs |
| ShadowKey.Key.HandleTriggerClick | app/components/ShadowKey.tsx:18-28 | from a counter below three, the counter steps as one click; the modal opens exactly on the click that finds the counter at 2; an earlier click schedules a reset |
| ShadowKey.Key.ResetTimerFires | app/components/ShadowKey.tsx:26 | a scheduled reset sets the counter back to 0 |
| ShadowKey.Key.HandleSubmit | app/components/ShadowKey.tsx:30-41 | exactly the secret pair clears the error, closes the modal, empties both inputs and navigates to "/shadow"; any other pair sets "Access denied." and keeps the inputs |
| ShadowKey.NavigationWithoutCookieBounces | app/components/ShadowKey.tsx:37 | the key's navigation to "/shadow", made without the member cookie, is redirected by the middleware to "/" on the same origin and query |
| ShadowKey.Key.Close | app/components/ShadowKey.tsx:74 | the backdrop and Cancel close the modal |
| ShadowKey.Key.TypeNumber | app/components/ShadowKey.tsx:127 | the number input sets the number |
| ShadowKey.Key.TypePhrase | app/components/ShadowKey.tsx:154 | the phrase input sets the phrase |
| Middleware.Guard | app/middleware.ts:5-21 | a path without the "/shadow" prefix passes; a prefixed path passes exactly with `shadow_member` = "1"; a redirect goes to the same url with pathname "/" |
| Middleware.Handle | app/middleware.ts:24-26 | only paths the matcher selects can be redirected, and they are redirected exactly when the member cookie is missing |
| Middleware.MatchedPathsAreGuarded | app/middleware.ts:9 | every path the matcher selects has the guarded prefix |
| Middleware.ShadowLookalikeGuardedButNotMatched | app/middleware.ts:9 | "/shadowx" passes the raw prefix test, so the guard would redirect it, yet the matcher never runs the middleware on it |
| Middleware.NoRedirectLoop | app/middleware.ts:14-16 | the redirect target "/" is never redirected again |
| Middleware.MemberCookieAdmits | app/middleware.ts:10-13 | once `shadow_member=1` is set, every path passes |
| MainHeader.ActiveItems | app/components/MainHeader.tsx:99 | at most one link is active, and a link is active exactly when the path equals its target |
| MainHeader.AtMostOneActive | app/components/MainHeader.tsx:17-22 | no path makes two of the four links active |
| MainHeader.HiddenExactlyWhereGuarded | app/components/MainHeader.tsx:13-15 | the header is hidden exactly on the pages from which the middleware redirects a visitor without cookies, and is shown on every page its links lead to |
| MainHeader.Menu.constructor | app/components/MainHeader.tsx:10 | the menu starts closed |
| MainHeader.Menu.ToggleMenu | app/components/MainHeader.tsx:24 | `toggleMenu` negates the flag |
| MainHeader.Menu.CloseMenu | app/components/MainHeader.tsx:25 | `closeMenu` clears the flag |
| ShadowPage.Stored | app/shadow/page.tsx:20-33 | a stored value counts only when present and non-empty |
| ShadowPage.StoreOrRemove | app/shadow/page.tsx:41-51 | an empty value removes the key, another value stores it, and no other key changes |
| ShadowPage.PhotoOrNull | app/shadow/page.tsx:54-64 | a trimmed photo url that is empty becomes null; any other is shown as itself |
| ShadowPage.ReloadRestoresIdentity | app/shadow/page.tsx:20-64 | loading the storage written by a save gives back the saved trimmed name and photo, and no other key changes |
| ShadowPage.CodenameLabelExact | app/shadow/page.tsx:71 | the label is "UNKNOWN AGENT" for an empty name, otherwise the upper-cased name character by character; it never holds a lower-case letter |
| ShadowPage.UpperKeepsUpperCase | app/shadow/page.tsx:71 | upper-casing a string with no lower-case letter leaves it unchanged |
| ShadowPage.FirstSpace | app/shadow/page.tsx:75 | the whitespace search finds the first whitespace character |
| ShadowPage.SplitOnWhitespace | app/shadow/page.tsx:75 | splitting yields at least one word |
| ShadowPage.SplitRebuilds | app/shadow/page.tsx:75 | the words, with a non-empty run of white space between each two, put back together give the string that was split |
| ShadowPage.WordsHaveNoSpace | app/shadow/page.tsx:75 | no word holds whitespace |
| ShadowPage.TrimmedWordsNonEmpty | app/shadow/page.tsx:74-75 | splitting a trimmed non-empty name yields no empty word |
| ShadowPage.FirstLettersOfWords | app/shadow/page.tsx:76-77 | one upper-cased first letter per word, in order |
| ShadowPage.InitialsExact | app/shadow/page.tsx:72-77 | a blank name gives "EA"; otherwise the initials are the upper-cased first letters of the whitespace-separated words of the trimmed name |
| ShadowPage.Identity.constructor | app/shadow/page.tsx:10-17 | the console starts with no name, no photo, empty inputs, no status and not editing |
| ShadowPage.Identity.Load | app/shadow/page.tsx:20-33 | a stored non-empty name or photo is shown and copied into its input; otherwise the state is kept |
| ShadowPage.Identity.HandleSaveIdentity | app/shadow/page.tsx:35-69 | the name becomes the trimmed input ("" exactly when the input is blank); the photo becomes the trimmed url or null; storage stores or removes each; the status is "Identity updated in this console.", editing ends and a status clear is scheduled |
| ShadowPage.Identity.SaveName | app/shadow/page.tsx:41-51 | a blank trimmed name is removed from storage, another one is stored, and it is shown |
| ShadowPage.Identity.SavePhoto | app/shadow/page.tsx:54-64 | a blank trimmed url is removed and the photo becomes null; another one is stored and shown |
| ShadowPage.Identity.StatusTimerFires | app/shadow/page.tsx:68 | the scheduled clear empties the status message |
| ShadowPage.Identity.ToggleEditing | app/shadow/page.tsx:219 | the edit button flips editing mode |
| ShadowPage.Identity.CancelEdit | app/shadow/page.tsx:471-475 | Cancel ends editing and resets the inputs to the saved name and photo ("" for no photo) |
| ShadowPage.Identity.TypeName | app/shadow/page.tsx:418 | the name input sets the input name |
| ShadowPage.Identity.TypePhotoUrl | app/shadow/page.tsx:446 | the photo input sets the input url |
| ArchivePage.InitialOpenId | app/shadow/archive/page.tsx:53 | the first file's id is open at first, or none when there are no files |
| ArchivePage.FilesShape | app/shadow/archive/page.tsx:13-53 | the files have distinct ids and "A-01" starts open |
| ArchivePage.AtMostOneOpen | app/shadow/archive/page.tsx:141 | with distinct ids, no two rows are open at once |
| ArchivePage.ToggleExact | app/shadow/archive/page.tsx:55-57 | toggling the open file closes every row; toggling another file opens exactly its rows and closes the one open before |
| ArchivePage.ToggleTwice | app/shadow/archive/page.tsx:55-57 | toggling the same file twice reopens an open file and leaves every row closed otherwise |
| ArchivePage.StatusColorsDistinct | app/shadow/archive/page.tsx:229-234 | OPEN is #facc15, SEALED #f97373, DORMANT #9ca3af, and different statuses get different colours |
| ArchivePage.Archive.constructor | app/shadow/archive/page.tsx:53 | the accordion starts with the first file open |
| ArchivePage.Archive.HandleToggle | app/shadow/archive/page.tsx:55-57 | the open file closes; otherwise exactly the toggled file is open |
| Common.LeadingSpaces | app/shadow/page.tsx:37 | counts the whitespace that `trim` drops at the front |
| Common.TrailingSpaces | app/shadow/page.tsx:37 | counts the whitespace that `trim` drops at the back |
| Common.TrimExact | app/shadow/page.tsx:37-38 | a trimmed string is empty or starts and ends with a non-space; it is empty exactly for a blank input |
| Common.TrimIsInfix | app/shadow/page.tsx:37-38 | a trimmed string is a contiguous part of the input surrounded only by whitespace |
| Common.TrimEmptyIffBlank | app/shadow/page.tsx:41 | trimming gives "" exactly when the input is blank |
| Common.TrimIdempotent | app/shadow/page.tsx:74 | trimming twice is trimming once |
| Common.Upper | app/shadow/page.tsx:71 | `toUpperCase` maps each character and keeps the length |
| Common.UpperHasNoLowerCase | app/shadow/page.tsx:71 | an upper-cased string holds no lower-case letter |
| Common.Filter | app/products/page.tsx:22-34 | `filter` keeps exactly the elements that pass |
| Common.FilterIsSubsequence | app/context/cart-context.tsx:95-97 | `filter` keeps order: its result is a subsequence of its input |
| Common.FilterKeepingAll | app/products/page.tsx:22-24 | a filter every element passes returns its input |
| Common.FilterOfConcat | app/context/cart-context.tsx:95-97 | filtering distributes over concatenation |
| Common.IndexOf | app/account/sections/PaymentMethodsSection.tsx:56 | finds the first occurrence of the separator |
| Common.SplitJoin | app/account/sections/PaymentMethodsSection.tsx:56 | joining the pieces of a split on a character gives back the string |
| Common.SplitPiecesHaveNoSeparator | app/account/sections/PaymentMethodsSection.tsx:56 | no piece of a split holds the separator |
| Common.ParseNumber | app/account/sections/PaymentMethodsSection.tsx:61-62 | `Number` yields a number exactly for a digit string, and that number is the value of its digits |
| Common.NatToString | app/account/sections/PaymentMethodsSection.tsx:61-62 | the decimal form is a non-empty digit string without a leading zero |
| Common.ParseNatToString | app/account/sections/PaymentMethodsSection.tsx:61-62 | parsing the decimal form of n gives n |

## Left out

- Loading and saving the cart in local storage as JSON (app/context/cart-context.tsx:41-55) is browser I/O and is not modelled. The identity card's storage is a `map` from key to string.
- `setTimeout` is not modelled as time. The click-counter reset and the status-message clear are events the environment may deliver, counted by `pendingResets` and `pendingStatusClears`.
- PaymentMethodsSection.PaymentMethods.HandleAddMethod: the 400 ms wait is not modelled, and neither is the "saving" state it shows. The `catch` branch is left out because nothing in the `try` block can throw.
- Stripe's session creation and signature verification (HMAC) are not modelled; both are function parameters. Supabase's update is not modelled either: its outcome is a parameter, and the orders table is a sequence of records.
- StripeWebhookRoute.Post: when the database reports an error or throws, the table is taken to be unchanged. A partially applied update is not modelled.
- The module-level throw on a missing `STRIPE_SECRET_KEY` (app/api/checkout/route.ts:5-7) happens at load time and is not modelled.
- CheckoutRoute.Post: the body is taken as already read. Any throw while reading it is the outcome `Unparseable`, carrying the thrown message. That covers malformed JSON, a `null` body, and an `items` value that has a length but no `map`, such as a string. An `items` value that is falsy or has no `length` is the empty cart `Parsed(None)`. The JSON syntax itself is not modelled. Neither are items whose fields have the wrong types, which go to the provider as they are.
- Common.ParseNumber: JavaScript's `Number` is modelled for strings of ASCII digits ("" gives 0). Any other string gives NaN here. Signs, decimals, exponents, hex and surrounding whitespace, which `Number` also accepts, are not modelled.
- Common.Trim: only ASCII whitespace (space, tab, line feed, vertical tab, form feed, carriage return) is trimmed. The Unicode spaces that JavaScript's `trim` also removes are not modelled.
- ShadowPage.SplitOnWhitespace: splits only on ASCII whitespace. The Unicode spaces that `/\s+/` also matches, such as the ideographic space U+3000, are not modelled. A name such as "山田\u3000太郎" therefore gives the initial "山" here, where the site gives "山太". `ShadowPage.InitialsExact` inherits this restriction.
- Common.Upper: only ASCII letters are upper-cased. Unicode case mapping is not modelled.
- Prices and quantities are integers, since the shop works in yen. Fractional JavaScript numbers are not modelled.
- The rating stars and number formatting (app/products/page.tsx:210-219, `toLocaleString`) are floating-point display and are not modelled. Ratings are held in tenths.
- Cookie attributes (path, max-age) and the browser's handling of them are not modelled. A cookie is an entry in a map.
- Navigation is recorded as the path asked for. Routing itself is not modelled.
- React's batching of state updates and stale closures over state are not modelled: each handler reads the state as it was when it started.
- The rest is presentation only and is not modelled:
  - hover state, styling and layout;
  - the archive files' summary and detail text;
  - the product images and descriptions.
