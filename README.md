# Shadow Strength storefront: cart, checkout and consent state machines in Dafny

This project models the logic of a client-side apparel storefront. The storefront is a React app. Its logic is a few small event-driven state machines:

- **Cart store** (`App.tsx`): a list of lines `(id, name, price, size, quantity)`.
  - Add merges into the existing `(id, size)` line or appends a new one.
  - Remove filters the line out.
  - Update-quantity rewrites it.
  - The badge shows the sum of quantities.
  - Completing checkout empties the cart.
- **Cart sheet** (`CartSheet.tsx`): the order total and the `-`/`+` steppers, which clamp to 1..10.
- **Checkout page** (`CheckoutPage.tsx`): a forward-only step machine, delivery → payment → complete. Every step is gated on a consent flag that is read from local storage at mount.
- **Product dialog** (`ProductModal.tsx`): size and quantity selection, the add button, and its one-second reset.
- **Shop page** (`ShopPage.tsx`): a fixed nine-product catalogue, a category filter, and the product click.
- **Contact and design-submission forms** (`ContactPage.tsx`, `SubmissionsPage.tsx`): submission is gated on a per-form consent flag. Accepting consent submits at once, and a timer later clears the form.
- **Cookie banner** (`CookieConsent.tsx`): shown only when no decision is stored. It stores `"accepted"` or `"declined"` with a date. The reader hook counts only `"accepted"`.

Modelling choices:

- Prices are whole cents (`priceCents: nat`), so totals are exact.
- Local storage is a `LocalStorage` object holding a `map<string, string>`. All components share one instance.
- Each `setTimeout` becomes a counter of scheduled timers plus an explicit "timer fires" method. The fired callback is returned as a boolean, and the flows pass it on to the receiving component.
- A callback that a handler calls (`onBack`, `onClose`, `onAccept`, …) becomes a boolean result. The flows in `Flows.dfy` feed those results into the receiving component.
- Components whose handlers update state in place are classes, and each handler is a method. Each method's postcondition states the whole new state.
- The `filter`/`map`/`findIndex`/`reduce` expressions are functions. Lemmas about them state the promised properties.
- `handleAddToCart` copies the lines into an array and bumps the matching element in place. `App.Storefront.AddToCart` does the same.

The model follows the code, including where it is looser than one might expect:

- `updateQuantity` stores any quantity as given. It does not reject values outside 1..10.
- Add also merges without any upper bound. The lemma `CartStore.AddCanExceedMaximum` exhibits a line of quantity 11.
- Consent flags are the stored strings, compared with the exact sentinel `"accepted"`. They are not booleans.
- The cookie banner treats an empty stored string like no decision (`!consent`).
- The checkout completion timer is fire-and-forget. It is not cancelled on leaving the page.

## Model

| member | source | states |
|---|---|---|
| `Cart.ReduceIsSum` | src/components/CartSheet.tsx:38-41 | the left `reduce` with an additive step equals its start value plus the reference front-to-back sum |
| `Cart.Total` | src/components/CartSheet.tsx:37-42 | the total is the sum over lines of unit price × quantity, and 0 for no lines |
| `Cart.SumPermutation` | src/components/CartSheet.tsx:37-42 | any sum over the lines (total or badge count) depends only on the multiset of lines, not their order |
| `Cart.TotalIgnoresOrder` | src/components/CartSheet.tsx:37-42 | two carts with the same lines in any order have the same total |
| `Cart.DecrementRequest` | src/components/CartSheet.tsx:89-91 | the "-" request `max(1, q-1)` is never below 1, is exactly q-1 when q ≥ 2 and 1 otherwise, and stays in 1..10 for q in 1..10 |
| `Cart.IncrementRequest` | src/components/CartSheet.tsx:100-101 | the "+" request `min(10, q+1)` is never above 10, is exactly q+1 when q ≤ 9 and 10 otherwise (so 10 stays 10), and stays in 1..10 for q in 1..10 |
| `Cart.Render` | src/components/CartSheet.tsx:55-136 | the empty-cart message shows iff there are no lines; otherwise the total and the "Proceed to Checkout" button are shown |
| `CartStore.NewLine` | src/App.tsx:41-47 | the appended line carries the product's id, name and unit price, the chosen size and the quantity, so it matches (id, size) |
| `CartStore.Added` | src/App.tsx:29-49 | add grows the cart by one line exactly when no line matches (id, size), otherwise keeps its length; lines for other pairs stay in place; afterwards a line for the pair exists |
| `CartStore.FindIndex` | src/App.tsx:30-32 | `findIndex` gives -1 iff no line matches (id, size), otherwise the first matching line |
| `CartStore.AddMerges` | src/App.tsx:30-37 | adding a pair already in the cart raises that line's quantity by exactly the amount added; the length and all other lines are unchanged |
| `CartStore.AddAppends` | src/App.tsx:38-48 | adding a pair not in the cart appends exactly one line with the product's id, name and price and the given size and quantity |
| `CartStore.AddPreservesUnique` | src/App.tsx:29-49 | add keeps at most one line per (id, size) |
| `CartStore.AddCounts` | src/App.tsx:29-49 | add raises the badge count by the quantity added, and the total by that quantity times the line's unit price |
| `CartStore.AddCanExceedMaximum` | src/App.tsx:36 | add does not clamp: merging 1 into a line of 10 gives 11, outside the steppers' range |
| `CartStore.Removed` | src/App.tsx:56-57 | remove keeps exactly the lines not matching (id, size), in their original order (a subsequence), and is the identity when none matches |
| `CartStore.RemoveKeepsMultiplicity` | src/App.tsx:56-57 | remove keeps every non-matching line exactly as many times as it occurs and no matching line |
| `CartStore.RemoveDeletesLine` | src/App.tsx:56-57 | in a cart with unique lines, removing line i's pair deletes exactly line i |
| `CartStore.RemovePreservesUnique` | src/App.tsx:56-57 | remove keeps at most one line per (id, size) |
| `CartStore.RemoveCounts` | src/components/CartSheet.tsx:110-117 | the trash button on a line lowers the badge count by its quantity and the total by its line total |
| `CartStore.Updated` | src/App.tsx:61-67 | update-quantity keeps the length and order, stores the new quantity unclamped on matching lines, and leaves every other line and field unchanged |
| `CartStore.UpdateRewritesLine` | src/App.tsx:61-67 | in a cart with unique lines, update rewrites the quantity of that one line only |
| `CartStore.UpdatePreservesUnique` | src/App.tsx:61-67 | update keeps at most one line per (id, size) |
| `CartStore.UpdateCounts` | src/App.tsx:61-67 | updating a line moves the badge count by the new quantity minus the old |
| `CartStore.SteppersKeepRange` | src/components/CartSheet.tsx:87-107 | if every quantity is in 1..10, applying either stepper's request to a line keeps every quantity in 1..10 (the bound is kept by the callers, not the store) |
| `CartStore.ItemCount` | src/App.tsx:90 | the badge count equals the sum of quantities over all lines, and is 0 for an empty cart |
| `CartStore.RepeatedAddScenario` | src/App.tsx:29-49 | adding product 1 size M qty 1 and then qty 2 gives a single line of quantity 3 with total 10497 cents |
| `CartStore.TwoSizesScenario` | src/App.tsx:29-49 | adding sizes M and L of one product gives two lines and a badge count of 2 |
| `App.Storefront.constructor` | src/App.tsx:24-27 | the app starts on the home page with an empty cart, the sheet closed and no cookie consent |
| `App.Storefront.AddToCart` | src/App.tsx:29-49 | the new cart is the add of the old one, uniqueness is kept and nothing else changes |
| `App.Storefront.RemoveItem` | src/App.tsx:56-59 | the new cart is the filter of the old one, uniqueness is kept and nothing else changes |
| `App.Storefront.UpdateQuantity` | src/App.tsx:61-67 | the new cart is the map of the old one, uniqueness is kept and nothing else changes |
| `App.Storefront.StartCheckout` | src/App.tsx:69-72 | starting checkout closes the sheet and shows the checkout page; the cart is unchanged |
| `App.Storefront.CheckoutComplete` | src/App.tsx:74-76 | completing checkout empties the cart and shows the home page |
| `App.Storefront.CheckoutBack` | src/App.tsx:108-111 | going back from checkout shows the shop with the sheet open; the cart is unchanged |
| `App.Storefront.CookieDecision` | src/App.tsx:82-88 | the cookie callbacks set the consent flag to the decision and change nothing else |
| `App.Storefront.Navigate` | src/App.tsx:125 | navigation sets the page and nothing else |
| `App.Storefront.SetCartOpen` | src/App.tsx:127-133 | the cart button opens the sheet and its close closes it; nothing else changes |
| `Checkout.CheckoutPage.constructor` | src/components/CheckoutPage.tsx:18-31 | the step starts at delivery; at mount consent holds iff the stored value is exactly "accepted", and otherwise the dialog opens |
| `Checkout.CheckoutPage.ConsentAccept` | src/components/CheckoutPage.tsx:55-59 | accept stores "accepted" under the checkout key, sets consent and closes the dialog; the step does not move |
| `Checkout.CheckoutPage.ConsentDecline` | src/components/CheckoutPage.tsx:61-64 | decline closes the dialog, writes nothing to storage and calls `onBack` |
| `Checkout.CheckoutPage.DeliverySubmit` | src/components/CheckoutPage.tsx:66-73 | with consent the step moves from delivery to payment; without it the step stays and the dialog opens; the step never goes back |
| `Checkout.CheckoutPage.PaymentSubmit` | src/components/CheckoutPage.tsx:75-85 | with consent the step moves to complete and exactly one completion timer is scheduled; without it the step stays and the dialog opens |
| `Checkout.CheckoutPage.CompletionFires` | src/components/CheckoutPage.tsx:82-84 | the scheduled 3-second timer fires at most once, calls `onComplete` and leaves the page at the complete step |
| `Checkout.CheckoutPage.OrderTotal` | src/components/CheckoutPage.tsx:48-53 | the checkout total is the same sum of unit price × quantity over the given lines as the cart sheet's |
| `Shop.CatalogueIds` | src/components/ShopPage.tsx:26-90 | the catalogue has nine products with ids 1 to 9 in order |
| `Shop.FilterByCategory` | src/components/ShopPage.tsx:102 | the filter keeps exactly the products of that category, in catalogue order |
| `Shop.FilterKeepsMultiplicity` | src/components/ShopPage.tsx:102 | the filter keeps every product of the category exactly as many times as it occurs and no other product |
| `Shop.FilteredProducts` | src/components/ShopPage.tsx:99-102 | "all" yields the whole catalogue; any other category yields exactly its products as a subsequence of the catalogue, never longer |
| `Shop.CategoryLabel` | src/components/ShopPage.tsx:185-189 | "mens" maps to "Men's", "womens" to "Women's", and anything else to "Unisex" |
| `Shop.ShopPage.constructor` | src/components/ShopPage.tsx:21-24 | the shop starts on category "all" with no product selected and the dialog closed |
| `Shop.ShopPage.SelectCategory` | src/components/ShopPage.tsx:126 | a category button selects that category and nothing else |
| `Shop.ShopPage.ProductClick` | src/components/ShopPage.tsx:104-107 | clicking a shown product selects it and opens the dialog |
| `Shop.ShopPage.CloseModal` | src/components/ShopPage.tsx:206 | the dialog's close hides it and keeps the selection |
| `ProductModal.Modal.constructor` | src/components/ProductModal.tsx:31-34 | the dialog starts with size M, quantity 1 and nothing added |
| `ProductModal.Modal.AddEnabled` | src/components/ProductModal.tsx:150 | the add button is enabled exactly when no reset timer is pending, i.e. while "Added to Cart!" is not shown |
| `ProductModal.Modal.SetProduct` | src/components/ShopPage.tsx:203-208 | a new product prop keeps the selected size and quantity |
| `ProductModal.Modal.SelectSize` | src/components/ProductModal.tsx:104 | a size from XS, S, M, L, XL, XXL becomes the selection |
| `ProductModal.Modal.Decrement` | src/components/ProductModal.tsx:130 | "-" applies the clamped decrement; the quantity stays in 1..10 |
| `ProductModal.Modal.Increment` | src/components/ProductModal.tsx:138 | "+" applies the clamped increment; the quantity stays in 1..10 |
| `ProductModal.Modal.AddToCart` | src/components/ProductModal.tsx:38-49 | only with a product, requests exactly the selected product, size and quantity, and marks "added" so the button is disabled |
| `ProductModal.Modal.ResetFires` | src/components/ProductModal.tsx:42-47 | the reset clears "added", calls `onClose`, and restores quantity 1 and size M |
| `Contact.ContactPage.constructor` | src/components/ContactPage.tsx:11-19 | the form starts blank, not submitted, with the dialog closed |
| `Contact.ContactPage.HasConsent` | src/components/ContactPage.tsx:25-26 | a submit passes the gate only when the contact key is stored, and never when it holds "declined" |
| `Contact.ContactPage.Edit` | src/components/ContactPage.tsx:126-168 | field edits replace the form data and nothing else |
| `Contact.ContactPage.Submit` | src/components/ContactPage.tsx:21-42 | without the stored "accepted" the dialog opens and `submitted` and the data stay; with it the form is submitted and one reset is scheduled |
| `Contact.ContactPage.ConsentAccept` | src/components/ContactPage.tsx:44-58 | accept stores "accepted" under the contact key, closes the dialog and submits at once |
| `Contact.ContactPage.ConsentDecline` | src/components/ContactPage.tsx:60-62 | decline only closes the dialog |
| `Contact.ContactPage.ResetFires` | src/components/ContactPage.tsx:33-41 | the reset blanks all four fields and clears `submitted` |
| `Contact.AcceptedConsentSkipsDialog` | src/components/ContactPage.tsx:25-29 | once consent was accepted, a later submit skips the dialog and submits |
| `Submissions.SubmissionsPage.constructor` | src/components/SubmissionsPage.tsx:11-19 | the form starts blank, not submitted, with the dialog closed |
| `Submissions.SubmissionsPage.HasConsent` | src/components/SubmissionsPage.tsx:25-26 | a submit passes the gate only when the submission key is stored, and never when it holds "declined" |
| `Submissions.SubmissionsPage.Edit` | src/components/SubmissionsPage.tsx:121-163 | field edits replace the form data and nothing else |
| `Submissions.SubmissionsPage.Submit` | src/components/SubmissionsPage.tsx:21-42 | without the stored "accepted" the dialog opens and the form is not marked submitted; with it the form is submitted and one reset is scheduled |
| `Submissions.SubmissionsPage.ConsentAccept` | src/components/SubmissionsPage.tsx:44-58 | accept stores "accepted" under the submission key only, closes the dialog and submits at once |
| `Submissions.SubmissionsPage.ConsentDecline` | src/components/SubmissionsPage.tsx:60-62 | decline only closes the dialog and stores nothing |
| `Submissions.SubmissionsPage.ResetFires` | src/components/SubmissionsPage.tsx:33-41 | the reset blanks name, email, design title and description and clears `submitted` |
| `Submissions.AcceptedConsentSkipsDialog` | src/components/SubmissionsPage.tsx:25-29 | once consent was accepted, a later submit skips the dialog and submits |
| `Cookies.HasCookieConsent` | src/components/CookieConsent.tsx:155-166 | the hook reports consent iff the stored decision is exactly "accepted"; "declined" gives false |
| `Cookies.NoDecision` | src/components/CookieConsent.tsx:18-19 | `!consent` holds for nothing or the empty string stored; it never holds for "accepted" or "declined", and never implies consent |
| `Cookies.CookieBanner.constructor` | src/components/CookieConsent.tsx:12-23 | the banner starts hidden, and the show timer is scheduled only when nothing or the empty string is stored |
| `Cookies.CookieBanner.ShowTimerFires` | src/components/CookieConsent.tsx:21 | the delayed show makes the banner visible |
| `Cookies.CookieBanner.Accept` | src/components/CookieConsent.tsx:25-30 | accept stores "accepted" and the decision date, hides the banner and calls `onAccept` |
| `Cookies.CookieBanner.Decline` | src/components/CookieConsent.tsx:32-37 | decline (also the close button) stores "declined" and the date, hides the banner and calls `onDecline` |
| `Cookies.CookieBanner.ToggleDetails` | src/components/CookieConsent.tsx:126 | the details toggle flips `showDetails`, so toggling twice restores it |
| `Cookies.DecisionIsFinal` | src/components/CookieConsent.tsx:16-37 | after either decision a fresh mount schedules nothing and stays hidden, and the hook reports consent exactly after an accept |
| `Flows.ShopAddFlow` | src/components/ProductModal.tsx:38-49 | product click, size choice, "+" and add put exactly one line with that size and quantity 2 in the cart; after the reset the dialog is closed and back to M / 1 |
| `Flows.CheckoutFlow` | src/components/CheckoutPage.tsx:75-85 | checking out one $29.99 item, with consent given when asked, totals 2999 cents and schedules exactly one completion; its firing calls `onComplete`, which leaves an empty cart on the home page |
| `Flows.DeclineFlow` | src/components/CheckoutPage.tsx:61-64 | declining checkout consent returns to the shop with the sheet open, the cart unchanged and storage unwritten |

## Left out

- Rendering is left out: JSX, styling, animations, icons, and the toast notifications (`App.tsx:51-53`, `:58`, `:77-79`). They are presentational or foreign side effects.
- Price strings are left out: `parseFloat` on `"$"`-stripped strings, `NaN` for malformed prices, and `toFixed(2)`. Prices are integer cents.
- Form contents are left out: HTML validation (`required`, `type="email"`, `maxLength`) and the delivery/payment field contents of the checkout page. The browser enforces them, and no handler reads them.
- `DataConsentWarning.tsx`, `Navigation.tsx`, `Logo.tsx`, `HomePage.tsx` and `AboutPage.tsx` are not part of this model. They are static text or presentational. The badge's only logic is a comparison of `cartItemCount` with 0.
- Real time is left out. Each timer is a counter, and its firing is an explicit event. The cookie decision date is a parameter (`now`) instead of a clock read.
- `useCookieConsent`'s `isLoading` flag is left out. It only brackets the one storage read.
- Aliasing in add is left out. `handleAddToCart` mutates the matched line object, which the previous cart array also references. The model treats lines as values.
- React's asynchronous state batching and stale closures are left out. Each handler runs to completion on the current state.
- `Checkout.CheckoutPage.DeliverySubmit` and `Checkout.CheckoutPage.PaymentSubmit` require the step at which their form is on screen (`CheckoutPage.tsx:87`, `:169`). The handlers' behaviour at other steps is not modelled.
- `ProductModal.Modal.AddToCart` requires the button to be enabled (`ProductModal.tsx:150`).
- `Contact.ContactPage.Submit` and `Submissions.SubmissionsPage.Submit` require the form to be on screen, that is, not yet submitted (`ContactPage.tsx:99`, `SubmissionsPage.tsx:94`).
- `Shop.ShopPage.ProductClick` requires a product card that is shown. `Shop.ShopPage.SelectCategory` requires one of the four filter buttons.
- `Checkout.CheckoutPage.items` is a constant snapshot. While the checkout page is shown, the navigation is hidden and the sheet is closed, so nothing can change the cart.
