# District storefront: a Dafny model of the cart, checkout and form logic

The storefront is a small React shop for vinyl records and record players. It
keeps all of its state in the browser's key-value store, under four keys:
`district_products`, `district_cart`, `district_users` and
`district_current_user`. The code makes no backend call. This project models
the logic behind the pages as Dafny modules, one per source file:

- `Store` (`store.dfy`): the records (product, cart line, user, order,
  shipping data). It also holds the key-value store, a class with one optional
  field per key.
- `Text` (`text.dfy`): JavaScript's `\s` character class, and `toLowerCase`
  on ASCII letters.
- `CartOps` (`app.dfy`): the new cart that each handler of `src/App.tsx`
  computes: merge-or-append on add, filter on remove, and an update that
  ignores quantities below one. It also holds the item-count `reduce` and a
  sequence of cart actions.
- `Storefront` (`app.dfy`): the application root as a class. It loads the
  products and the cart from the store, or `[]` when a key is absent. Every
  handler then replaces that state, and the state is written back.
- `CartProperties` (`cart_properties.dfy`): what the cart operations
  guarantee. Any sequence of operations keeps at most one entry per product
  and keeps quantities positive. Two adds merge into one. The item count is
  the sum of the quantities.
- `CartPage` (`cart_page.dfy`): the subtotal, the empty-bag branch, the
  per-line totals, and the requests sent by the row buttons.
- `ShopPage` (`shop.dfy`): the category filter, plus the modal state with its
  quantity stepper and the add-to-cart hand-off.
- `Gateway` (`gateway.dfy`): the email pattern, the ordered sign-in checks, and
  the register, login and guest transitions. It also holds the navigation
  bar's logout.
- `Checkout` (`checkout.dfy`): the shipping prefill, the order record, the
  history append, the removal of the cart key and the next view.
- `AdminPage` (`admin.dfy`): the inventory form. This covers the image-field
  edits, the submit guard, the product build and the reset.
- `ContactPage` (`contact.dfy`): the contact form's field updates and its
  submit checks.

Prices are whole cents (`int`), so every sum is exact. The order total is the
plain sum of price times quantity: the code computes no shipping fee, and the
cart page only says that shipping is "calculated at checkout". Nothing gates
the inventory form on a role, and `addProduct` appends the new product at the
end of the list.

## Model

| member | source | states |
|---|---|---|
| Store.OrEmpty | src/App.tsx:35-38 | reading a list key gives the stored list, or [] when the key is absent |
| CartOps.Find | src/App.tsx:54 | finds the first entry with the id; finds one exactly when the cart contains the id |
| CartOps.AddQuantity | src/App.tsx:56-60 | same length; every entry with the id gains `amount`; every other entry is unchanged |
| CartOps.SetQuantity | src/App.tsx:72-74 | same length; every entry with the id gets the new quantity; every other entry is unchanged |
| CartOps.AddToCart | src/App.tsx:52-64 | product present: same length and order, its entry's quantity raised by `amount`, the rest unchanged; absent: exactly one entry `(product, amount)` appended at the end |
| CartOps.RemoveFromCart | src/App.tsx:66-68 | no entry with the id remains; every other entry is kept; no-op when the id is absent |
| CartOps.UpdateQuantity | src/App.tsx:70-75 | below 1: the cart is unchanged (no removal); otherwise only the matching entries' quantity changes |
| Storefront.App.constructor | src/App.tsx:30-46 | products and cart are the stored lists, or [] when absent; both are then written back |
| Storefront.App.AddProduct | src/App.tsx:48-50 | the new product is appended at the end of the list; the cart is unchanged; the store is in sync |
| Storefront.App.AddToCart | src/App.tsx:52-64 | the cart becomes `CartOps.AddToCart` of the old cart and is written back; products are unchanged |
| Storefront.App.RemoveFromCart | src/App.tsx:66-68 | the cart becomes `CartOps.RemoveFromCart` of the old cart and is written back |
| Storefront.App.UpdateQuantity | src/App.tsx:70-75 | the cart becomes `CartOps.UpdateQuantity` of the old cart; below 1 neither the state nor the store changes |
| CartProperties.AddKeepsDistinct | src/App.tsx:52-64 | adding keeps at most one entry per product id |
| CartProperties.RemoveKeepsDistinct | src/App.tsx:66-68 | removing keeps at most one entry per product id |
| CartProperties.RemoveKeepsOrder | src/App.tsx:66-68 | removal distributes over concatenation, so the kept entries stay in their original order |
| CartProperties.UpdateKeepsDistinct | src/App.tsx:70-75 | updating keeps at most one entry per product id |
| CartProperties.AddTwiceMerges | src/App.tsx:52-64 | adding q1 and then q2 of a product equals adding q1+q2 once |
| CartProperties.AddTwiceToAbsent | src/App.tsx:52-64 | for a product not in the cart, two adds give one entry at the end with quantity q1+q2 |
| CartProperties.CountDistinct | src/App.tsx:54-61 | in a cart with distinct ids, an id that is present occurs exactly once |
| CartProperties.AddKeepsPositive | src/App.tsx:58 | all quantities stay at least 1 after adding an amount of at least 1 |
| CartProperties.RemoveKeepsPositive | src/App.tsx:66-68 | all quantities stay at least 1 after a removal |
| CartProperties.UpdateKeepsPositive | src/App.tsx:71-74 | all quantities stay at least 1 after an update, because values below 1 are ignored |
| CartProperties.ActionsKeepDistinct | src/App.tsx:52-75 | any sequence of add, remove and update keeps at most one entry per product id |
| CartProperties.ActionsKeepPositive | src/App.tsx:52-75 | any sequence of changes whose adds have amounts of at least 1 keeps every quantity at least 1 |
| CartProperties.SumQuantitiesFromIsSum | src/App.tsx:77 | the left-to-right `reduce` from an accumulator adds the sum of the quantities to it |
| CartProperties.TotalCartItemsIsSum | src/App.tsx:77 | the item count is the sum of the quantities, and 0 for an empty cart |
| CartProperties.QuantitySumAddQuantity | src/App.tsx:56-60 | raising every entry with the id raises the quantity sum by the amount once per such entry |
| CartProperties.TotalAfterAdd | src/App.tsx:52-77 | with distinct ids, adding `amount` raises the item count by exactly `amount` |
| CartPage.SubtotalIsSum | src/pages/Cart.tsx:18 | the subtotal `reduce` is the sum of price times quantity, and 0 for an empty cart |
| CartPage.Render | src/pages/Cart.tsx:20-95 | an empty cart (and only an empty one) shows the empty bag; otherwise one line per entry with price times quantity; the total shown is the subtotal, with no shipping added |
| CartPage.LineTotalSumAddQuantity | src/pages/Cart.tsx:18 | raising one entry of a cart with distinct ids raises the sum by the amount times that entry's own price |
| CartPage.SubtotalAfterAdd | src/pages/Cart.tsx:18 | with distinct ids, adding `amount` raises the subtotal by `amount` times the price charged, which is the stored entry's price when the product is already in the cart |
| CartPage.MinusAtOneKeepsCart | src/pages/Cart.tsx:65 | "-" on a line of quantity 1 requests 0, which the update ignores: the cart is unchanged |
| CartPage.StepButtonsMoveByOne | src/pages/Cart.tsx:65-67 | "-" lowers that line's quantity by one (never below 1), "+" raises it by one, and every other line is unchanged |
| CartPage.RemoveButtonDropsRow | src/pages/Cart.tsx:55 | "Remove" drops exactly that item's product id and keeps every other entry |
| ShopPage.ByCategory | src/pages/Shop.tsx:25 | exactly the products whose category equals the filter up to case; products without a category never match |
| ShopPage.FilteredProducts | src/pages/Shop.tsx:23-25 | "All" gives the product list unchanged; any other filter gives exactly the products in that category, in their original order and multiplicity (the category filter, which `ByCategoryKeepsOrder` shows order-preserving) |
| ShopPage.ByCategoryKeepsOrder | src/pages/Shop.tsx:25 | the filter distributes over concatenation, so it keeps the original order |
| ShopPage.ByCategoryKeepsMatching | src/pages/Shop.tsx:25 | a list whose products all match is returned whole |
| ShopPage.ByCategoryIgnoresCase | src/pages/Shop.tsx:25 | two filters that are equal up to case select the same products |
| ShopPage.UncategorisedOnlyUnderAll | src/pages/Shop.tsx:23-25 | a product without a category is shown only under "All" |
| ShopPage.Shop.constructor | src/pages/Shop.tsx:19-21 | the filter starts as "All", with nothing selected and a quantity of 1 |
| ShopPage.Shop.SetFilter | src/pages/Shop.tsx:23-43 | a category button sets the filter, and the grid then shows the filtered products for that category |
| ShopPage.Shop.OpenModal | src/pages/Shop.tsx:27-30 | opening a product selects it and resets the quantity to 1 |
| ShopPage.Shop.CloseModal | src/pages/Shop.tsx:79 | the close button clears the selection |
| ShopPage.Shop.Decrement | src/pages/Shop.tsx:124 | the quantity becomes max(1, q-1), so it is never below 1 |
| ShopPage.Shop.Increment | src/pages/Shop.tsx:126 | the quantity becomes q+1 and stays at least 1 |
| ShopPage.Shop.AddToCart | src/pages/Shop.tsx:131-134 | the selected product is added with the current quantity (at least 1), then the selection is cleared; products, users and the current user are unchanged |
| Gateway.IndexOfAt | src/pages/CheckoutGateway.tsx:18 | returns the position of the first '@', or the length when there is none |
| Gateway.ShapeIsPattern | src/pages/CheckoutGateway.tsx:18 | the matcher accepts a string exactly when it matches `^[^\s@]+@[^\s@]+\.[^\s@]+$` |
| Gateway.LowerCharKeepsKind | src/pages/CheckoutGateway.tsx:17 | lowercasing a character keeps it plain, '@' or '.' exactly when it was |
| Gateway.LowerKeepsPattern | src/pages/CheckoutGateway.tsx:17-18 | lowercasing does not change whether a string matches the pattern |
| Gateway.ValidateEmailIsPattern | src/pages/CheckoutGateway.tsx:15-19 | `validateEmail` accepts exactly the strings that match the pattern |
| Gateway.FindLogin | src/pages/CheckoutGateway.tsx:66 | finds a user exactly when some stored user has both the email and the password; the one found is the first |
| Gateway.Authenticate | src/pages/CheckoutGateway.tsx:21-74 | a registration succeeds only for well-formed credentials with a name, a phone and an untaken email, and yields a user with an empty history; a login succeeds only with a stored user matching both fields; malformed credentials are always rejected |
| Gateway.RejectionOrder | src/pages/CheckoutGateway.tsx:26-45 | the checks run in order (missing fields, then the email shape, then the password length, in both modes; then, when registering, a missing name or phone) and the first failure gives the message |
| Gateway.RegistrationRejectsTakenEmail | src/pages/CheckoutGateway.tsx:41-50 | a complete registration succeeds exactly when no stored user has the same email; otherwise the message is 'EMAIL ALREADY REGISTERED' |
| Gateway.RegistrationKeepsEmailsUnique | src/pages/CheckoutGateway.tsx:47-61 | if stored emails were unique, they stay unique after a successful registration |
| Gateway.LoginSucceedsIffStored | src/pages/CheckoutGateway.tsx:64-73 | a well-formed login succeeds exactly when some stored user matches both fields, and the first match is logged in; otherwise the message is 'INVALID EMAIL OR PASSWORD' |
| Gateway.Gateway.constructor | src/pages/CheckoutGateway.tsx:6-13 | starts in login mode, with no error and empty fields |
| Gateway.Gateway.ToggleMode | src/pages/CheckoutGateway.tsx:148 | switches between login and registration and clears the error |
| Gateway.Gateway.HandleAuth | src/pages/CheckoutGateway.tsx:21-74 | a rejection sets its message and leaves the store untouched; a registration appends exactly one user at the end and makes it current; a login makes the found user current and keeps the user list; success moves to the final step |
| Gateway.Gateway.ContinueAsGuest | src/pages/CheckoutGateway.tsx:167-170 | deletes the current-user key and nothing else, then moves to the final step |
| Gateway.Logout | src/components/Navbar.tsx:10-14 | deletes the current-user key and nothing else, then goes home |
| Checkout.Prefill | src/pages/CheckoutFinal.tsx:8-14 | name and phone come from the current user (or ''); the address is '', the city 'Bitola' and the country 'North Macedonia' |
| Checkout.OrderId | src/pages/CheckoutFinal.tsx:22 | for a random value in [0,1), the order number lies in [100000, 999999] |
| Checkout.MakeOrder | src/pages/CheckoutFinal.tsx:21-28 | the items are the cart as given; the total is the sum of price times quantity, with no fee; the user is the current email or 'Guest' |
| Checkout.AppendToHistory | src/pages/CheckoutFinal.tsx:31-38 | same length; every user with the current email gains the order at the end of its history; every other user is unchanged |
| Checkout.NextView | src/pages/CheckoutFinal.tsx:50-54 | the dashboard exactly when the user chose to see the history and is logged in; otherwise home |
| Checkout.AppendToHistoryKeepsEmails | src/pages/CheckoutFinal.tsx:31-38 | recording an order changes no email, so unique emails stay unique; with unique emails, exactly the current user's record gains the order and every other user is unchanged |
| Checkout.OrderTotalHasNoShippingFee | src/pages/CheckoutFinal.tsx:25 | a 55.00 cart gives a 55.00 order total and a 30.00 cart a 30.00 total: no fee on either side of 50.00 |
| Checkout.CheckoutPage.constructor | src/pages/CheckoutFinal.tsx:6-14 | the current user is read from the store (nothing on the page writes it, so every render reads the same value), and the shipping form is prefilled from it |
| Checkout.CheckoutPage.ConfirmOrder | src/pages/CheckoutFinal.tsx:16-56 | the order snapshots the stored cart; when logged in, the order is appended to the matching users' histories and to the current-user record; a guest leaves both untouched; the cart key is always removed; the next view follows the confirm answer |
| Checkout.ConfirmAndReload | src/pages/CheckoutFinal.tsx:45-55 | after confirming and reloading, a new application in sync with the store holds the stored products and an empty cart; a logged-in user's record and the stored users gain the order, a guest leaves them unchanged; the next view is the one confirmation chose |
| AdminPage.NonEmptyUrls | src/pages/Admin.tsx:35 | keeps exactly the non-empty URLs; a non-empty first URL stays first |
| AdminPage.NonEmptyUrlsKeepsOrder | src/pages/Admin.tsx:35 | the URL filter distributes over concatenation, so it keeps the order |
| AdminPage.BuildProduct | src/pages/Admin.tsx:27-36 | the SKU is present exactly when the category is 'Vinyl', and is then the entered SKU; the images are the entered URLs with the empty ones removed, in the entered order, never empty |
| AdminPage.AdminForm.constructor | src/pages/Admin.tsx:8-13 | the fields start empty, the category as 'Vinyl' and the images as [''] |
| AdminPage.AdminForm.Edit | src/pages/Admin.tsx:56 | an `onChange` replaces only its own field |
| AdminPage.AdminForm.HandleImageChange | src/pages/Admin.tsx:15-19 | same length, only index i replaced |
| AdminPage.AdminForm.AddImageField | src/pages/Admin.tsx:21 | appends exactly one '' to the image list |
| AdminPage.AdminForm.HandleSubmit | src/pages/Admin.tsx:23-41 | a missing name, price or first image emits nothing and changes nothing; otherwise it emits the built product once and resets every field except the category |
| AdminPage.Publish | src/pages/Admin.tsx:23-41 | the catalogue gains the product at the end exactly when the form was complete, and the form is then reset except for its category; an incomplete form leaves the form and the catalogue unchanged; the cart, users and current user are unchanged |
| ContactPage.WithField | src/pages/Contact.tsx:64-94 | the named field takes the new value and every other field is unchanged |
| ContactPage.Validate | src/pages/Contact.tsx:21-35 | accepts exactly the forms with all required fields and an '@' in the email; missing fields are reported before a bad email |
| ContactPage.OrderNumberIsOptional | src/pages/Contact.tsx:21 | the order number never affects the decision |
| ContactPage.ContactForm.constructor | src/pages/Contact.tsx:5-15 | the form data starts with five empty fields, no error and success false |
| ContactPage.ContactForm.OnChange | src/pages/Contact.tsx:64-94 | a field's `onChange` replaces only that field of the form data |
| ContactPage.ContactForm.HandleSubmit | src/pages/Contact.tsx:17-37 | missing fields set the message and clear success; a bad email sets its message and leaves success as it was; valid input clears the error and sets success |

## Left out

- JSON encoding: each key holds a typed value. Malformed stored JSON is out of scope, and so are records that lack a field (except a product's category, which is optional).
- Navigation, `window.confirm`, `alert` and `window.location.reload`: a handler returns its next view as a `Route`. The confirm answer is a boolean parameter. The reload after an order is modelled as building a fresh `App` from the store. The alerts are not modelled.
- `Math.random`, `Date.now` and `new Date().toISOString()` are parameters. The random value has the precondition that it lies in [0,1).
- Floating point: prices are whole cents. `parseFloat` of the admin price field is an input, and `toFixed(2)` display formatting is not modelled.
- Unicode: `toLowerCase` is modelled on ASCII letters only. A password's length counts code points, whereas JavaScript counts UTF-16 units.
- React scheduling: each handler is one sequential step. The application's write-back effects are taken to have run after each step (`Storefront.App.Synced`).
- The `onChange` handlers of the gateway inputs and of the shipping form: they are plain field assignments, and the model's fields are public and are assigned directly.
- `console.log` of the contact form: output only.
- `Checkout.CheckoutPage.ConfirmOrder` also confirms orders whose shipping fields are empty. In the browser, the five shipping inputs are `required`, so the form is submitted only when all of them are filled; the model does not capture that browser-side check.
- `ContactPage.ContactForm.HandleSubmit` can reach its invalid-email branch. In the browser, the email input has `type="email"` and the form has no `noValidate` (src/pages/Contact.tsx:58, 76-79), so a non-empty email without '@' is refused before the handler runs; the model does not capture that browser-side check.
- `AdminPage.AdminForm.HandleImageChange` requires an index within the list. Inputs exist only for those indices, and an index past the end would make the JavaScript array sparse.
- `ShopPage.Shop.AddToCart` requires a selected product, because its button exists only inside the open modal.
- src/pages/Dashboard.tsx, src/pages/Home.tsx, src/pages/About.tsx, src/components/Footer.tsx, src/components/ProductCard.tsx and the rendering in src/components/Navbar.tsx are not part of this model. They are markup, a one-line sum of order totals, and a redirect.
