# ShopSwift storefront — a Dafny model

ShopSwift is a single-page React storefront with no backend. This project
models its logic in Dafny:

- the three in-memory stores the pages share:
  - the **cart**: a list of product lines with quantities;
  - the **user directory and session**: register, login, sign-in with a
    Google profile, logout and rename;
  - the **order store**: each user's orders, most recent first, with a
    delivery status derived from the order's age unless it was cancelled;
- the components' rules over those stores:
  - the address form and the sign-in/registration dialog;
  - the cart drawer, the cart row and the product card;
  - the product list's search, paging and pagination bar;
  - the order card's tracker and cancel flow;
  - the account page;
  - the application shell that moves between the drawer, the sign-in dialog,
    the address form and the order confirmation;
  - the Google client-id check.

The model has one module per source file.

- **Classes for state.** State the source changes in place becomes a class:
  - `CartStore.Cart`, `Auth.AuthStore` and `Orders.OrderStore` for the stores;
  - `Shell.AppShell`, `AddressForm.AddressModal`, `AuthForm.AuthModal`,
    `AccountPage.AccountView`, `OrderCard.OrderCardView` and
    `ProductList.ProductListView` for component state.
- **Specification functions.** Each method's `ensures` ties the new state to a
  pure function of the old one: `Added`, `Decreased`, `Removed`, `Placed`,
  `CancelledIn`, `LocalUser`, `Validate`, and so on. Lemmas prove the promised
  properties of those functions.
- **JavaScript semantics.** `Text` and `Seqs` hold the JavaScript operations
  the source relies on:
  - `trim` and the `\s` class, with the ECMAScript whitespace set;
  - lower and upper case;
  - `includes` and `split`;
  - `find`, `filter` and `reduce`;
  - `slice` with negative positions.
- **Inputs from outside.** Times are integer milliseconds. The clock and the
  id generator become parameters (`now`, `newId`). Prices are integers in
  the smallest currency unit.

Where the system's documented behaviour and the code disagree, the model
follows the code:

- **Status at five days.** An order exactly five days old is shown as
  "Out for Delivery", not "Shipped": its age is above the four-day threshold
  (`Orders.FakeStatusBoundaries`).
- **Cancelling in the store.** `cancelOrder` does not check the order's
  status: any order of the session user with the given id is cancelled. Only
  the order card restricts the button to early statuses
  (`OrderCard.CanCancelIffEarly`, `OrderCard.CancelWindowCloses`).
- **Adding at the stock cap.** The new quantity is min(q + 1, stock), using
  the stock of the product passed in. When that stock is lower than the
  line's quantity, adding lowers the quantity instead of doing nothing. The
  bound quantity <= stock holds for that stock (`CartStore.AddedTimesQty`).
  The cart invariant proved is one line per product with quantity >= 1
  (`CartStore.WellFormed`).

## Model

| member | source | states |
|---|---|---|
| CartStore.Added | Frontend/src/context/CartContext.jsx:10-25 | a new product is appended as one line of quantity 1; an existing line gets min(q + 1, stock) with every other line unchanged; one line per product is kept, and so is well-formedness when stock >= 1 |
| CartStore.AddedQty | Frontend/src/context/CartContext.jsx:13-21 | after one add, the product's quantity is min(previous + 1, stock), counting an absent line as 0 |
| CartStore.AddedTimesQty | Frontend/src/context/CartContext.jsx:14-19 | after n adds of the same product, its quantity is min(q0 + n, stock) and never exceeds the stock |
| CartStore.AddedTotalItems | Frontend/src/context/CartContext.jsx:10-25 | adding a new product raises the item count by exactly one; adding an existing one changes it by min(q + 1, stock) - q |
| CartStore.Decreased | Frontend/src/context/CartContext.jsx:28-39 | no line with quantity 0 or less survives, and the cart never grows |
| CartStore.DecreasedSpec | Frontend/src/context/CartContext.jsx:30-36 | on a well-formed cart: a line above 1 loses one unit in place, a line at 1 is dropped with the rest kept in order, an absent id changes nothing; well-formedness is kept |
| CartStore.DecreasedTotalItems | Frontend/src/context/CartContext.jsx:28-39 | decreasing a product in the cart lowers the item count by exactly one |
| CartStore.Removed | Frontend/src/context/CartContext.jsx:42-47 | no line of the product remains, every other line remains, and nothing new appears |
| CartStore.RemovedSpec | Frontend/src/context/CartContext.jsx:44 | removal drops exactly the product's line, keeping the others in order, or changes nothing when it is absent |
| CartStore.RemovedTotals | Frontend/src/context/CartContext.jsx:42-47 | removal lowers the item count by the product's quantity and the total price by its line total |
| CartStore.QtyOf | Frontend/src/context/CartContext.jsx:13 | the quantity of the product's line, or 0 when it has none |
| CartStore.MapQtyAt | Frontend/src/context/CartContext.jsx:17-19 | on a cart with one line per product, updating by id changes only that product's line |
| CartStore.Cart.AddToCart | Frontend/src/context/CartContext.jsx:10-25 | the cart becomes Added(old cart, product) and stays well-formed |
| CartStore.Cart.DecreaseQty | Frontend/src/context/CartContext.jsx:28-39 | the cart becomes Decreased(old cart, id) and stays well-formed |
| CartStore.Cart.RemoveFromCart | Frontend/src/context/CartContext.jsx:42-47 | the cart becomes Removed(old cart, id) and stays well-formed |
| CartStore.Cart.ClearCart | Frontend/src/context/CartContext.jsx:50-52 | the cart is empty and both totals are 0 |
| CartStore.Cart.constructor | Frontend/src/context/CartContext.jsx:7 | the cart starts from the saved list |
| Orders.Label | sw_ecomm/src/context/OrderContext.jsx:38-44 | each status has a non-empty display label |
| Orders.LabelInjective | sw_ecomm/src/context/OrderContext.jsx:38-44 | distinct statuses have distinct labels, so comparing labels compares statuses |
| Orders.StepIndex | Frontend/src/components/OrderCard.jsx:117 | the position among the five steps, or -1 exactly for a status that is not a step |
| Orders.FakeStatus | sw_ecomm/src/context/OrderContext.jsx:47-54 | the five age bands with strict thresholds at 6 h, 2, 4 and 6 days, each band as an if-and-only-if; never Cancelled |
| Orders.FakeStatusBoundaries | sw_ecomm/src/context/OrderContext.jsx:49-53 | exactly 6 h is still Order Placed, exactly 2 days still Confirmed, 5 days Out for Delivery, 7 days Delivered |
| Orders.FakeStatusMonotone | sw_ecomm/src/context/OrderContext.jsx:38-54 | an older order is never at an earlier step |
| Orders.WithStatus | sw_ecomm/src/context/OrderContext.jsx:101-104 | a cancelled order is returned unchanged; any other differs only in a status derived from its age |
| Orders.WithStatusLater | sw_ecomm/src/context/OrderContext.jsx:101-104 | a later read never shows an earlier step, and an order is shown cancelled at one time iff at every other |
| Orders.ListOf | sw_ecomm/src/context/OrderContext.jsx:64 | a user's list, or the empty list for a user with no entry |
| Orders.NewOrder | sw_ecomm/src/context/OrderContext.jsx:69-78 | the new order has the given id, items, total, count and address, the session user's id, the current time and status Order Placed |
| Orders.Placed | sw_ecomm/src/context/OrderContext.jsx:79-82 | the order is prepended to its user's list and every other user's list is unchanged; keeps every order under its owner |
| Orders.Cancel | sw_ecomm/src/context/OrderContext.jsx:91 | the order becomes Cancelled with cancelledAt = now, every other field unchanged |
| Orders.CancelMatching | sw_ecomm/src/context/OrderContext.jsx:90-92 | exactly the orders with the id are cancelled, whatever their status, and the rest are unchanged in place |
| Orders.CancelledIn | sw_ecomm/src/context/OrderContext.jsx:89-94 | only the user's list changes, and it becomes CancelMatching of it; keeps every order under its owner |
| Orders.MyOrders | sw_ecomm/src/context/OrderContext.jsx:64 | empty without a session; otherwise the session user's list, in stored order, each through WithStatus |
| Orders.CancelShownCancelled | sw_ecomm/src/context/OrderContext.jsx:87-107 | after a cancel every read shows the order Cancelled with its cancel time, and shows every other order exactly as before |
| Orders.PlacedShownFirst | sw_ecomm/src/context/OrderContext.jsx:64-107 | a placed order is shown first with its age-derived step, followed by the previous list |
| Orders.OrderStore.PlaceOrder | sw_ecomm/src/context/OrderContext.jsx:67-84 | without a session nothing is returned and nothing changes; otherwise the new order is returned and placed first in the user's list |
| Orders.OrderStore.CancelOrder | sw_ecomm/src/context/OrderContext.jsx:87-95 | without a session nothing changes; otherwise the map becomes CancelledIn for the session user |
| Orders.OrderStore.constructor | sw_ecomm/src/context/OrderContext.jsx:58 | the store starts from the saved map |
| Auth.PasswordSession | sw_ecomm/src/context/AuthContext.jsx:76 | the session carries the account's id, name and email, with no avatar |
| Auth.ProviderSession | sw_ecomm/src/context/AuthContext.jsx:121 | the session carries the account's id, name, email and avatar |
| Auth.LocalUser | sw_ecomm/src/context/AuthContext.jsx:58 | a registered account has the trimmed name, the trimmed lower-cased email, the password as typed, and no avatar or provider |
| Auth.ProviderUser | sw_ecomm/src/context/AuthContext.jsx:107-115 | an account created from a Google profile has the lower-cased email, no password, provider "google", and the profile's name or else the email's local part |
| Auth.ReplaceById | sw_ecomm/src/context/AuthContext.jsx:102 | every account with the id is replaced and every other is unchanged |
| Auth.RenameById | sw_ecomm/src/context/AuthContext.jsx:138 | every account with the id is renamed and every other is unchanged |
| Auth.AppendKeepsUniqueEmails | sw_ecomm/src/context/AuthContext.jsx:55-59 | appending an account whose email is not taken keeps emails unique up to case |
| Auth.StoredEmailFree | sw_ecomm/src/context/AuthContext.jsx:55-58 | when the email has no surrounding whitespace, passing the duplicate check means the stored form is free too |
| Auth.PaddedEmailPassesCheck | sw_ecomm/src/context/AuthContext.jsx:55-58 | the duplicate check compares the untrimmed input, so " " + a stored email passes it and registering it duplicates the email |
| Auth.RegisterKeepsValid | sw_ecomm/src/context/AuthContext.jsx:54-67 | registering a fresh id and a free email without surrounding whitespace keeps emails and ids unique and the session backed by an account |
| Auth.ProviderSignUpKeepsValid | sw_ecomm/src/context/AuthContext.jsx:105-121 | creating an account from a Google profile with a free email and a fresh id keeps the directory valid |
| Auth.MergeKeepsValid | sw_ecomm/src/context/AuthContext.jsx:98-104 | merging Google data onto an account is an update in place and keeps the directory valid |
| Auth.AuthStore.Register | sw_ecomm/src/context/AuthContext.jsx:54-67 | a case-insensitively taken email fails with nothing changed; otherwise exactly one LocalUser is appended and becomes the session |
| Auth.AuthStore.Login | sw_ecomm/src/context/AuthContext.jsx:70-80 | succeeds iff some account has an equal email up to case and an equal password; the session becomes the first such account; failure changes nothing |
| Auth.AuthStore.Logout | sw_ecomm/src/context/AuthContext.jsx:83-86 | the session is cleared and the directory is unchanged |
| Auth.AuthStore.LoginWithGoogleProfile | sw_ecomm/src/context/AuthContext.jsx:94-125 | always succeeds with `ProfileLoginOutcome`: a new email appends a ProviderUser; the first account with the email is merged (avatar and sub only) when it has no provider and left alone otherwise; the session becomes that account |
| Auth.AuthStore.LoginWithGoogle | sw_ecomm/src/context/AuthContext.jsx:128-134 | a missing credential fails with the generic message and an unverified one with its own, nothing changed; a verified one succeeds with the same `ProfileLoginOutcome` as a profile sign-in, so the session's email is the profile's |
| Auth.AuthStore.UpdateName | sw_ecomm/src/context/AuthContext.jsx:137-142 | renames only the session user's account and the session |
| Auth.AuthStore.constructor | sw_ecomm/src/context/AuthContext.jsx:47-48 | the store starts from the saved directory and session |
| OrderCard.CanCancelIffEarly | Frontend/src/components/OrderCard.jsx:119 | cancelling is offered iff the status is Order Placed or Confirmed, the first two steps |
| OrderCard.CancelWindowCloses | Frontend/src/components/OrderCard.jsx:119 | once an order can no longer be cancelled, it cannot be cancelled at any later time |
| OrderCard.StepStateOf | Frontend/src/components/OrderCard.jsx:58-64 | a step is current iff it is the current index, done iff it is before it, future iff after it |
| OrderCard.Tracker | Frontend/src/components/OrderCard.jsx:57-64 | one state per delivery step, classified against the status's index |
| OrderCard.TrackerShape | Frontend/src/components/OrderCard.jsx:57-64 | for a step status the tracker is done steps, then exactly one current step, then future steps |
| OrderCard.Connectors | Frontend/src/components/OrderCard.jsx:86-89 | one connector between consecutive steps, done iff its index is before the current index |
| OrderCard.ConnectorJoinsReachedSteps | Frontend/src/components/OrderCard.jsx:86-89 | a connector is done iff the step before it is done and the step after it is reached |
| OrderCard.BadgeIcon | Frontend/src/components/OrderCard.jsx:168-170 | the cancel cross exactly for a cancelled order; otherwise the icon of the step that is the status |
| OrderCard.BannerOrTracker | Frontend/src/components/OrderCard.jsx:189-210 | the expanded card shows the cancelled banner exactly for the status that is no step, when the badge draws the cross and no cancellation is offered; otherwise the tracker marks the status's step current |
| OrderCard.OrderCardView.Toggle | Frontend/src/components/OrderCard.jsx:133 | clicking the header flips the expanded flag |
| OrderCard.OrderCardView.AskCancel | Frontend/src/components/OrderCard.jsx:265-268 | the first cancel button only asks for confirmation; the store is not touched |
| OrderCard.OrderCardView.KeepOrder | Frontend/src/components/OrderCard.jsx:290-291 | "No, Keep It" closes the confirmation |
| OrderCard.OrderCardView.ConfirmCancel | Frontend/src/components/OrderCard.jsx:121-125 | the confirm step cancels the order in the store and leaves the card expanded |
| OrderCard.OrderCardView.constructor | Frontend/src/components/OrderCard.jsx:105-106 | a card starts collapsed and without confirmation |
| AddressForm.Set | Frontend/src/components/AddressModal.jsx:181 | editing one field changes that field only |
| AddressForm.ErrorOf | Frontend/src/components/AddressModal.jsx:185-196 | required after trim for name, line 1, city, phone and PIN; state must be non-empty; phone and PIN must match their patterns after trim; required before pattern; line 2 never errs |
| AddressForm.CollectSpec | Frontend/src/components/AddressModal.jsx:185-196 | the collected errors are exactly the fields listed that have an error, each with its message |
| AddressForm.ValidateSpec | Frontend/src/components/AddressModal.jsx:185-196 | validation reports exactly the fields with an error, with their messages, and never line 2 |
| AddressForm.ValidIff | Frontend/src/components/AddressModal.jsx:185-200 | validation is empty iff every checked field passes |
| AddressForm.RequiredBeforePattern | Frontend/src/components/AddressModal.jsx:188-194 | a blank phone or PIN gets the "required" message, not the pattern one |
| AddressForm.ConfirmedAddress | Frontend/src/components/AddressModal.jsx:203-212 | the confirmed address keeps state and type as typed |
| AddressForm.TrimmedFieldPasses | Frontend/src/components/AddressModal.jsx:185-212 | a field that passes still passes after the trimming done on confirm |
| AddressForm.ConfirmedIsComplete | Frontend/src/components/AddressModal.jsx:199-212 | a confirmed address is itself valid: a mobile number, a PIN code, and a non-empty name, line 1 and city |
| AddressForm.ConfirmedIdempotent | Frontend/src/components/AddressModal.jsx:203-212 | confirming an already confirmed address changes nothing |
| AddressForm.ErrorCount | Frontend/src/components/AddressModal.jsx:216 | the banner's count is the number of keys in the error map, 0 iff the map is empty |
| AddressForm.BannerWithoutErrors | Frontend/src/components/AddressModal.jsx:216 | see Findings: an edit while no field shows an error leaves the written count positive and the intended count 0 |
| AddressForm.Pending | Frontend/src/components/AddressModal.jsx:182 | the fields whose error message is non-empty |
| AddressForm.PendingCount | Frontend/src/components/AddressModal.jsx:355-361 | the corrected count: the number of fields that show an error, 0 iff none does, and never more than the keys counted |
| AddressForm.PendingAfterSubmit | Frontend/src/components/AddressModal.jsx:199-200 | right after a failed submit the two counts agree |
| AddressForm.PendingAfterEdit | Frontend/src/components/AddressModal.jsx:180-183 | editing a field removes exactly that field from those showing an error |
| AddressForm.AddressModal.Open | Frontend/src/components/AddressModal.jsx:155-162 | opening resets to the empty form with "Home", the session user's name or "", and no errors, so neither banner shows |
| AddressForm.AddressModal.Change | Frontend/src/components/AddressModal.jsx:180-183 | editing sets the field and clears only that field's error; afterwards the written banner always shows, and the intended one shows iff some other field still shows an error |
| AddressForm.AddressModal.ShowsBanner | Frontend/src/components/AddressModal.jsx:355 | the banner as written: shown iff the error record has any key |
| AddressForm.AddressModal.IntendedBanner | Frontend/src/components/AddressModal.jsx:355-361 | the banner as intended: shown iff some field shows a non-empty error, which implies the written banner shows |
| AddressForm.AddressModal.ChooseType | Frontend/src/components/AddressModal.jsx:280-283 | the type buttons set the type only |
| AddressForm.AddressModal.Submit | Frontend/src/components/AddressModal.jsx:198-214 | an invalid form records its errors and confirms nothing; a valid one confirms the trimmed address |
| AddressForm.AddressModal.constructor | Frontend/src/components/AddressModal.jsx:149-151 | an empty form with no errors |
| AuthForm.EmailPatternTrimmed | sw_ecomm/src/components/AuthModal.jsx:64 | an email matching the pattern has no whitespace, so trimming leaves it unchanged |
| AuthForm.EmailPatternNotBlank | sw_ecomm/src/components/AuthModal.jsx:63-64 | a matching email is never blank |
| AuthForm.EmailPatternOneAt | sw_ecomm/src/components/AuthModal.jsx:64 | a matching email has exactly one '@', not at the start |
| AuthForm.EmailPatternExamples | sw_ecomm/src/components/AuthModal.jsx:64 | "a@b.c" matches; a missing dot, an empty local part, an empty label before the dot and a space do not |
| AuthForm.ErrorOf | sw_ecomm/src/components/AuthModal.jsx:60-69 | name is required after trim only on register; the email is required after trim, then must match the pattern untrimmed; the password is required, and on register at least 6 characters; on register the confirmation must match |
| AuthForm.CollectSpec | sw_ecomm/src/components/AuthModal.jsx:60-69 | the collected errors are exactly the listed fields with an error, each with its message |
| AuthForm.ValidateSpec | sw_ecomm/src/components/AuthModal.jsx:60-69 | validation reports exactly the fields with an error on the tab, with their messages |
| AuthForm.ValidateEmptyIff | sw_ecomm/src/components/AuthModal.jsx:60-69 | validation is empty iff the form is acceptable on the tab |
| AuthForm.AcceptedEmailTrimmed | sw_ecomm/src/components/AuthModal.jsx:63-64 | an accepted email is non-blank and already trimmed |
| AuthForm.AcceptedRegistrationKeepsValid | sw_ecomm/src/components/AuthModal.jsx:82-93 | a registration the dialog accepts keeps the directory valid |
| AuthForm.AuthModal.Open | sw_ecomm/src/components/AuthModal.jsx:25-34 | opening selects the default tab and clears the form, errors and API error |
| AuthForm.AuthModal.SelectTab | sw_ecomm/src/components/AuthModal.jsx:146-149 | a tab button selects the tab, keeps the form, and clears errors and the API error |
| AuthForm.AuthModal.SwitchTab | sw_ecomm/src/components/AuthModal.jsx:298 | the switch link moves to the other tab and clears errors and the API error |
| AuthForm.AuthModal.Change | sw_ecomm/src/components/AuthModal.jsx:53-57 | editing sets the field and clears that field's error and the API error |
| AuthForm.AuthModal.GoogleError | sw_ecomm/src/components/AuthModal.jsx:77-79 | the API error becomes the message, or the default Google failure message |
| AuthForm.AuthModal.Submit | sw_ecomm/src/components/AuthModal.jsx:82-99 | an invalid form only records its errors; otherwise login or register runs by tab; on the login tab success holds iff some account has the credentials, and the session is the first such account's; on the register tab success holds iff the email is free, and the new account is appended and signed in; a refusal shows the bad-credentials or duplicate-email message, by tab, and leaves the directory unchanged; success leaves the field errors and the account error as they were |
| AuthForm.AuthModal.constructor | sw_ecomm/src/components/AuthModal.jsx:16-19 | the default tab with an empty form and no errors |
| ProductList.BarShownIff | Frontend/src/components/Pagination.jsx:6 | the bar is drawn exactly when the matches fill more than one page of eight |
| Pagination.Range | Frontend/src/components/Pagination.jsx:8-13 | consecutive increasing integers from max(1, cur - 2) to min(total, cur + 2) |
| Pagination.RangeBounds | Frontend/src/components/Pagination.jsx:9-13 | at most 5 pages, all within 1..total, each one more than the previous |
| Pagination.RangeHasCurrent | Frontend/src/components/Pagination.jsx:9-13 | the window contains the current page |
| Pagination.RangeFull | Frontend/src/components/Pagination.jsx:9-13 | away from the ends the window is the current page and two on each side |
| Pagination.Target | Frontend/src/components/Pagination.jsx:27-70 | first, previous, next and last ask for 1, cur - 1, cur + 1 and total |
| Pagination.NavigationStaysInRange | Frontend/src/components/Pagination.jsx:25-70 | every enabled button and every page number leads to a page within 1..total |
| Pagination.StepEnabledIff | Frontend/src/components/Pagination.jsx:35-59 | previous is enabled iff its target is at least 1, and next iff its target is at most total |
| ProductList.Query | Frontend/src/components/ProductList.jsx:20-21 | the query is empty iff the search box is blank |
| ProductList.Filtered | Frontend/src/components/ProductList.jsx:19-27 | a blank search shows every product; otherwise exactly the matching products, in order |
| ProductList.TotalPages | Frontend/src/components/ProductList.jsx:30 | the number of pages of 8 is n / 8 rounded up: 0 iff n is 0, and the last page is partly filled |
| ProductList.Slice | Frontend/src/components/ProductList.jsx:33 | the JavaScript slice agrees with an ordinary subsequence on in-range positions and clips past the end |
| ProductList.Page | Frontend/src/components/ProductList.jsx:31-34 | page p holds positions (p - 1) * 8 up to p * 8, clipped to the list, so at most 8 |
| ProductList.PagesPrefix | Frontend/src/components/ProductList.jsx:30-34 | the first k pages together are the first min(8k, n) products |
| ProductList.PagesCoverAll | Frontend/src/components/ProductList.jsx:30-34 | pages 1 to totalPages together give back the filtered list |
| ProductList.PageSizes | Frontend/src/components/ProductList.jsx:30-34 | every page up to the last is non-empty, and all but the last hold exactly 8 |
| ProductList.SummaryOf | Frontend/src/components/ProductList.jsx:84-89 | "No products found" iff nothing matches; otherwise the first, last and total shown |
| ProductList.SummaryMatchesPage | Frontend/src/components/ProductList.jsx:84-89 | the summary's range is exactly the products on the page |
| ProductList.ProductListView.HandleSearch | Frontend/src/components/ProductList.jsx:37-40 | a new query resets the page to 1 |
| ProductList.ProductListView.SetPage | Frontend/src/components/ProductList.jsx:15-16 | changing page keeps the query |
| ProductList.ProductListView.constructor | Frontend/src/components/ProductList.jsx:15-16 | an empty query on page 1 |
| ProductCard.StockLabelOf | Frontend/src/components/ProductCard.jsx:15-20 | In Stock iff stock > 20, "Only N left" iff 0 < stock <= 20, Out of Stock otherwise |
| ProductCard.OnlyLeftText | Frontend/src/components/ProductCard.jsx:19 | the low-stock label spells the stock in decimal, which reads back as the stock |
| ProductCard.InCart | Frontend/src/components/ProductCard.jsx:11-12 | the product is in the cart iff some line has its id |
| ProductCard.ButtonLabel | Frontend/src/components/ProductCard.jsx:91 | Out of Stock, else "+ Add More" when in the cart, else "Add to Cart" |
| ProductCard.BadgeAgreesWithButton | Frontend/src/components/ProductCard.jsx:13-20 | for a non-negative stock the badge says Out of Stock iff the button is disabled |
| ProductCard.ClickAdd | Frontend/src/components/ProductCard.jsx:80-92 | clicking an enabled button adds the product, and the button then reads "+ Add More" |
| CartItem.RowsSumToTotal | Frontend/src/components/CartItem.jsx:28 | the rows' amounts, price times quantity, add up to the cart's total price shown in the drawer's footer |
| CartItem.IncreaseBelowCap | Frontend/src/components/CartItem.jsx:47-48 | below the line's own stock, the plus button adds exactly one unit to that line and nothing else |
| CartItem.ClickDecrease | Frontend/src/components/CartItem.jsx:37 | the minus button is decreaseQty on the line's product |
| CartItem.ClickIncrease | Frontend/src/components/CartItem.jsx:47-48 | the plus button is addToCart with the line itself, so the line's own stock is the cap |
| CartItem.ClickRemove | Frontend/src/components/CartItem.jsx:65 | the remove button drops the product's line |
| CartDrawer.RouteFor | src/components/Cart.jsx:33-41 | a guest is sent to sign in and a signed-in user to the address form |
| CartDrawer.ItemsBadge | src/components/Cart.jsx:71-76 | the badge is shown iff the count is positive, starts with the count, and ends in "s" iff the count is not 1 |
| CartDrawer.BadgeReadsBack | src/components/Cart.jsx:74 | the badge's leading digits read back as the item count |
| CartDrawer.TotalAtLeastLines | src/components/Cart.jsx:71-119 | with every quantity at least 1, the item count is at least the number of lines |
| CartDrawer.FooterIffBadge | src/components/Cart.jsx:71-119 | in a well-formed cart the footer and the badge both appear exactly when the cart is non-empty |
| Shell.AppShell.OpenAuth | sw_ecomm/src/App.jsx:37-39 | opens the dialog with the tab defaulting to login, the hint to "" and no follow-up |
| Shell.AppShell.CloseAuth | sw_ecomm/src/App.jsx:41-43 | closes the dialog and drops the follow-up, keeping tab and hint |
| Shell.AppShell.HandleCheckout | sw_ecomm/src/App.jsx:47-50 | the drawer closes and the address form opens |
| Shell.AppShell.HandleRequireAuth | sw_ecomm/src/App.jsx:61-70 | opens the login tab with the checkout hint and a follow-up that reopens the cart |
| Shell.AppShell.CartCheckout | src/components/Cart.jsx:33-41 | the drawer closes; a guest gets the login tab with the checkout hint and the reopen-cart follow-up, the address form left as it was; a signed-in user gets the address form with the dialog, its tab, hint and follow-up kept |
| Shell.AppShell.HandleAddressConfirm | sw_ecomm/src/App.jsx:53-58 | the address form closes; the cart's lines, total and count are placed as an order for the session user; the cart is emptied; the placed order, if any, is shown; the page, drawer and dialog fields are kept |
| Shell.AppShell.CloseAddress | sw_ecomm/src/App.jsx:133 | closing the address form reopens the cart; every other field is kept |
| Shell.AppShell.HandleAuthSuccess | sw_ecomm/src/App.jsx:73-75 | the cart opens iff it was open or the pending follow-up reopens it; every other field is kept |
| Shell.AppShell.AuthSucceeded | sw_ecomm/src/App.jsx:73-75 | success runs the follow-up and then closes the dialog, dropping the follow-up and keeping tab, hint, page, address form and placed order |
| Shell.AppShell.OpenCart | sw_ecomm/src/App.jsx:80 | the navigation bar opens the drawer; every other field is kept |
| Shell.AppShell.CloseCart | sw_ecomm/src/App.jsx:116 | the drawer closes and nothing else changes |
| Shell.AppShell.SignIn | sw_ecomm/src/App.jsx:82 | the navigation bar opens the login tab with no hint or follow-up; every other field is kept |
| Shell.AppShell.GoAccount | sw_ecomm/src/App.jsx:81 | the account page is shown; every other field is kept |
| Shell.AppShell.GoHome | sw_ecomm/src/App.jsx:105 | the home page is shown; every other field is kept |
| Shell.AppShell.DismissSuccess | sw_ecomm/src/App.jsx:143 | closing the confirmation clears the placed order and shows the home page; every other field is kept |
| Shell.AppShell.ViewOrders | sw_ecomm/src/App.jsx:144 | "View orders" clears the placed order and shows the account page; every other field is kept |
| Shell.AppShell.constructor | sw_ecomm/src/App.jsx:24-35 | the home page with every overlay closed and the login tab preset |
| AccountPage.FirstChars | Frontend/src/components/AccountPage.jsx:24 | at most one character per word |
| AccountPage.StartsFrom | Frontend/src/components/AccountPage.jsx:24 | word starts are never spaces |
| AccountPage.FirstCharsAreWordStarts | Frontend/src/components/AccountPage.jsx:24 | the first characters of the space-separated pieces are exactly the word starts, with empty pieces contributing nothing |
| AccountPage.InitialsSpec | Frontend/src/components/AccountPage.jsx:24 | the initials are the first two word starts, upper-cased |
| AccountPage.SpentAfterCancel | Frontend/src/components/AccountPage.jsx:87-92 | cancelling an order changes neither the order count nor the amount spent, since cancelled orders still count |
| AccountPage.SpentAfterPlace | Frontend/src/components/AccountPage.jsx:87-92 | placing an order adds one to the count and its total to the amount spent |
| AccountPage.CountLine | Frontend/src/components/AccountPage.jsx:135 | "N order(s)" starts with the count and ends in "s" iff the count is not 1 |
| AccountPage.AccountView.SelectTab | Frontend/src/components/AccountPage.jsx:101-104 | a tab button selects that tab only |
| AccountPage.AccountView.StartEdit | Frontend/src/components/AccountPage.jsx:184 | editing starts from the session user's name; tab, error and the saved notice are kept |
| AccountPage.AccountView.CancelEdit | Frontend/src/components/AccountPage.jsx:176 | cancelling restores the name and clears the error; tab and the saved notice are kept |
| AccountPage.AccountView.Type | Frontend/src/components/AccountPage.jsx:165 | typing sets the value and clears the error; edit mode, tab and the saved notice are kept |
| AccountPage.AccountView.SaveName | Frontend/src/components/AccountPage.jsx:30-37 | a blank name sets "Name cannot be empty." and changes nothing in the store; otherwise the trimmed name is saved, edit mode and the error are cleared, and the stored name is not blank |
| AccountPage.AccountView.Logout | Frontend/src/components/AccountPage.jsx:40-43 | signing out clears the session, keeps the directory and returns to the home page; every other shell field is kept |
| AccountPage.AccountView.constructor | Frontend/src/components/AccountPage.jsx:16-20 | the orders tab, not editing, with the session user's name or "" |
| GoogleConfig.ClientId | Frontend/src/config/google.js:18 | the configured id, or the placeholder when none is set |
| GoogleConfig.DefaultNotConfigured | Frontend/src/config/google.js:18-22 | with no id set, Google sign-in is not configured |
| GoogleConfig.PlaceholderPassesLengthTest | Frontend/src/config/google.js:18-22 | the placeholder is 21 characters long, so only the inequality test excludes it |
| GoogleConfig.ShortIdNotConfigured | Frontend/src/config/google.js:22 | an id of at most 20 characters is never configured |
| GoogleConfig.ConfiguredIff | Frontend/src/config/google.js:18-22 | configured iff an id is set, differs from the placeholder, and is longer than 20 characters |

## Left out

- Browser storage: the stores start from a saved value passed to their constructors, and writes back to storage are not modelled.
- Id generation and the clock become the parameters `newId` and `now`. Whether generated ids are unique is not modelled; the validity results assume a fresh id.
- Decoding the Google credential (base64 and JSON parsing) is left out. `Auth.AuthStore.LoginWithGoogle` starts from the decoded profile, or its absence.
- The Google button component and its demo picker are left out. They are a third-party widget with timers.
- The product catalog fetch and its random stock are left out. Products are inputs.
- Floating-point prices, currency conversion and formatting, and star-rating rounding are left out. Prices are integers.
- Case mapping covers ASCII letters only; full Unicode case mapping is not modelled.
- Strings are sequences of characters; JavaScript indexes and measures them in UTF-16 code units. This matters for the password length, the client-id length and the initials (`AccountPage.Initials`): for a word that starts outside the Basic Multilingual Plane, such as an emoji, the source takes half a surrogate pair where the model takes the whole character.
- The artificial delays before submitting, the loading flags, the "saved" notice timer, focus handling, scroll locking and the show-password toggle are left out. A delayed step is modelled as if it ran at once.
- Escape-key handlers are modelled as the close operations they call. Nothing is rendered while an overlay is closed, so the handlers cannot run then.
- The pagination buttons are disabled by a CSS class only, which a keyboard can bypass. The model treats them as disabled.
- Dates, "member since" and estimated delivery dates are display formatting and are left out.
- The order confirmation, search bar, skeleton card, user menu and navigation bar are presentation only and are left out.
- React's batching and re-render timing are left out. Each handler's updates are applied in order.
- AuthForm.AuthModal.Submit: does not itself state that a registration keeps the directory valid. That is stated by the pure lemma `AuthForm.AcceptedRegistrationKeepsValid`, over the same arguments.
- OrderCard.BadgeIcon: the source falls back to the first step's icon for a status string that is neither a step nor "Cancelled". `Orders.Status` has no such value, so that fallback is not modelled.
- Auth.AuthStore.Register: keeps the directory valid only for an email without surrounding whitespace. With whitespace the duplicate check can miss (`Auth.PaddedEmailPassesCheck`); the dialog's email pattern rules that input out.

## Findings

| source | as written | input that shows it | evidently intended | confidence | as-written member | corrected member |
|---|---|---|---|---|---|---|
| Frontend/src/components/AddressModal.jsx:216 | editing a field stores an empty message for it (line 182), and the banner (lines 355-361) counts every key of the error map, empty messages included | open the form and type one character into the name: the banner asks to fix 1 field while no field shows an error | count only the fields whose message is non-empty | not executed | AddressForm.BannerWithoutErrors | AddressForm.AddressModal.IntendedBanner |
