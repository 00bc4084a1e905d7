# PIZZAHUB storefront client, modelled in Dafny

This project models the logic of the PIZZAHUB web client. The client is a
single-page application: customers order pizzas, couriers deliver them, and
administrators manage the catalogue, the orders and the couriers.

What is modelled:

- **Cart store** (`CartSlice`). The ordered list of cart lines and the
  checkout-panel flag, with the five reducers that change them.
  - A line is identified by `productId-sizeId-sortedExtraNames`.
  - Adding a configuration that is already in the cart merges into the
    existing line; any other add appends a new line.
  - `StringOrder` holds JavaScript's default string sort, which the
    identity uses.
- **Session store** (`AuthSlice`). The user, the access token, the
  loading, error and sidebar flags, and the copy of user and token kept in
  the browser's storage slot "auth". The storage slot is a ghost field.
- **HTTP client hooks** (`ApiClient`). The request hook attaches the bearer
  token. The response hook answers a 401 by starting one token refresh and
  parking further 401s in a first-in first-out queue until the refresh
  settles. Each hook run is one method call; network outcomes are inputs.
- **Customer pages:**
  - the product grid's configuration modal (`Menu`);
  - the grouping of the catalogue into categories (`MenuPage`);
  - the cart page and the checkout panel with their order payloads
    (`CartPage`, `Checkout`);
  - the order history with its tabs and progress bar (`Orders`).
- **Route guards and navigation** (`ProtectedRoute`, `GuestRoute`,
  `Navbar`).
- **Administrator pages** (`ProductsAdmin`, `OrdersAdmin`, `DeliveryAdmin`,
  `AdminDashboard`): searches, counters, badges, chart series, the product
  form and deletion.
- **Courier pages** (`DeliveryDashboard`, `OrdersDelivery`): chart and pie
  data, status formatting, "time ago" text, endpoints, and the actions on
  order cards.

Prices are `real` and quantities are `int`. `Scale(price, n)` is `price * n`
written as repeated addition, and `CartSlice.ScaleIsProduct` proves that it
is the product. Lower- and upper-casing act on ASCII letters. Strings are
`seq<char>`.

Two behaviours of the code are easy to get wrong:

- **`_retry` marking.** A request parked behind a running refresh is never
  marked `_retry`. After its replay it can start a second refresh
  (`ApiClient.RetriedOwnerVersusReplayedWaiter`). So "at most one retry per
  request" holds only for the request that started the refresh.
- **Role names.** Roles are the strings `"user"`, `"delivery"` and
  `"admin"`; any other string counts as a customer in the navigation bar.

## Model

| member | source | states |
|---|---|---|
| CartSlice.ScaleIsProduct | src/redux/cartSlice.ts:51 | repeated addition of a price equals price times count |
| CartSlice.ScaleAdd | src/redux/cartSlice.ts:50-51 | the total of `a + b` units is the total of `a` units plus the total of `b` units |
| CartSlice.ExtrasPrice | src/redux/cartSlice.ts:38 | extras without a negative price add nothing negative |
| CartSlice.SizePrice | src/redux/cartSlice.ts:37 | no size adds 0; a chosen size adds its own price |
| CartSlice.UnitPriceAtLeastBase | src/redux/cartSlice.ts:31-39 | with no negative size or extra price the unit price is at least the base price |
| CartSlice.ResolvedExtras | src/redux/cartSlice.ts:32-34 | exactly the product's extras whose names were selected, each drawn from the product |
| CartSlice.UnitPriceDependsOnlyOnOfferedNames | src/redux/cartSlice.ts:32-39 | order, repetition and unknown names among the selected extras change neither the resolved extras nor the unit price |
| CartSlice.UnitPriceWithoutExtras | src/redux/cartSlice.ts:37-39 | with no extras the unit price is base price plus size price, a missing size adding 0 |
| StringOrder.Sort | src/redux/cartSlice.ts:43 | `slice().sort()` gives a sorted permutation of the names |
| StringOrder.SortedUnique | src/redux/cartSlice.ts:43 | two sorted sequences holding the same strings are equal, so the sort's result is determined |
| StringOrder.SortPermutationInvariant | src/redux/cartSlice.ts:43 | permuted inputs sort to the same output |
| CartSlice.SizeKey | src/redux/cartSlice.ts:44 | never empty; "std" exactly when there is no size or its id is empty or "std"; otherwise the size's id |
| CartSlice.CartId | src/redux/cartSlice.ts:43-44 | the identity starts with the product id, a dash, the size key and another dash |
| CartSlice.CartIdPermutationInvariant | src/redux/cartSlice.ts:43-44 | selecting the same extras in any order yields the same line identity |
| CartSlice.CartIdCollidesOnDashedNames | src/redux/cartSlice.ts:43-44 | one extra "x-y" and two extras "x", "y" give the same identity although they differ |
| CartSlice.CartIdCollidesOnEmptySizeId | src/redux/cartSlice.ts:44 | a size with an empty id is keyed "std", like no size |
| CartSlice.FindLine | src/redux/cartSlice.ts:47 | the index of the first line with that identity, or none exactly when no line has it |
| CartSlice.NewLine | src/redux/cartSlice.ts:52-64 | the appended line carries the configuration's identity and unit price and total = unit price × quantity |
| CartSlice.WithQuantity | src/redux/cartSlice.ts:50-51 | only quantity and total change, and the total is recomputed from the unit price |
| CartSlice.AddLine | src/redux/cartSlice.ts:47-65 | a present identity grows its first line by the quantity in place; an absent one appends a new line at the end |
| CartSlice.AddLinePreserves | src/redux/cartSlice.ts:20-66 | adding keeps identities unique, totals consistent and quantities positive when the added quantity is |
| CartSlice.ReplaceLinePreserves | src/redux/cartSlice.ts:49-51 | replacing a line by one with the same identity and a consistent total keeps the invariants |
| CartSlice.AppendLinePreserves | src/redux/cartSlice.ts:52-64 | appending a line with a fresh identity keeps the invariants |
| CartSlice.RemoveLines | src/redux/cartSlice.ts:68-70 | exactly the lines without that identity remain, from the original list |
| CartSlice.RemoveLinesAppend | src/redux/cartSlice.ts:68-70 | removal distributes over concatenation, so the remaining lines keep their relative order |
| CartSlice.RemoveAbsentIsNoOp | src/redux/cartSlice.ts:68-70 | removing an identity not in the cart leaves it unchanged |
| CartSlice.RemoveLinesPreserves | src/redux/cartSlice.ts:68-70 | removal keeps identities unique, totals consistent and quantities positive |
| CartSlice.RemoveLinesUnique | src/redux/cartSlice.ts:69 | filtering a list with unique identities keeps them unique |
| CartSlice.UpdateLines | src/redux/cartSlice.ts:72-84 | the first matching line takes quantity + delta with a recomputed total when that is positive; otherwise, or with no match, nothing changes |
| CartSlice.UpdateLinesPreserves | src/redux/cartSlice.ts:72-84 | quantity updates keep the invariants and never drop a quantity below one |
| CartSlice.SubtotalNonNegative | src/pages/user/Cart.tsx:51 | with no negative line total the subtotal is not negative |
| CartSlice.SubtotalAppend | src/pages/user/Cart.tsx:51 | the subtotal of a concatenation is the sum of the subtotals |
| CartSlice.SubtotalReplace | src/pages/user/Cart.tsx:51 | replacing a line changes the subtotal by the difference of the line totals |
| CartSlice.SubtotalAfterMerge | src/redux/cartSlice.ts:49-51 | a merging add raises the subtotal by quantity × the unit price frozen in the existing line |
| CartSlice.SubtotalGrowLine | src/redux/cartSlice.ts:50-51 | growing a line by n units adds n unit prices to the subtotal |
| CartSlice.SubtotalAfterAppend | src/redux/cartSlice.ts:52-64 | a first-time add raises the subtotal by quantity × the configuration's unit price |
| CartSlice.AddTwiceMerges | src/redux/cartSlice.ts:43-65 | two adds of permuted extras into a cart without that configuration leave one line holding both quantities |
| CartSlice.AddDifferentSplits | src/redux/cartSlice.ts:43-65 | two adds with different identities leave two lines, each priced by its own configuration |
| CartSlice.CartStore.constructor | src/redux/cartSlice.ts:11-14 | the cart starts empty with the checkout panel closed |
| CartSlice.CartStore.AddToCart | src/redux/cartSlice.ts:20-66 | the new item list is `AddLine` of the old one, the panel flag is untouched, and the invariants hold |
| CartSlice.CartStore.RemoveFromCart | src/redux/cartSlice.ts:68-70 | the new item list is `RemoveLines` of the old one; the invariants hold |
| CartSlice.CartStore.UpdateQuantity | src/redux/cartSlice.ts:72-84 | the new item list is `UpdateLines` of the old one; the invariants hold |
| CartSlice.CartStore.ClearCart | src/redux/cartSlice.ts:86-88 | the list becomes empty; the panel flag is kept |
| CartSlice.CartStore.ToggleCheckout | src/redux/cartSlice.ts:90-92 | the panel flag takes the given value; the lines are kept |
| AuthSlice.LoadAuth | src/redux/authSlice.ts:10-21 | a stored pair loads as itself; a missing, empty or unparsable slot loads as signed out |
| AuthSlice.SaveAuth | src/redux/authSlice.ts:23-25 | saving writes one stored pair |
| AuthSlice.LoadAfterSave | src/redux/authSlice.ts:10-25 | loading what was saved gives back the saved user and token |
| AuthSlice.InitiallyAuthenticated | src/redux/authSlice.ts:35-44 | a page load starts authenticated exactly when the slot holds a non-empty token |
| AuthSlice.AuthStore.constructor | src/redux/authSlice.ts:35-44 | the initial state is the loaded pair, authenticated iff the token is truthy, not loading, no error, sidebar open |
| AuthSlice.AuthStore.LoginStart | src/redux/authSlice.ts:55-58 | loading is set and the error cleared; session and storage are kept |
| AuthSlice.AuthStore.LoginSuccess | src/redux/authSlice.ts:60-71 | user and token adopted, authenticated, not loading, no error, and the pair saved |
| AuthSlice.AuthStore.LoginFailure | src/redux/authSlice.ts:73-76 | the error is recorded and loading stops; session and storage are kept |
| AuthSlice.AuthStore.Logout | src/redux/authSlice.ts:78-85 | user, token and authentication are cleared, the error cleared, and the slot removed |
| AuthSlice.AuthStore.UpdateUser | src/redux/authSlice.ts:87-90 | only the user changes; storage holds the new user with the current token |
| AuthSlice.AuthStore.UpdateToken | src/redux/authSlice.ts:92-95 | only the token changes; the authenticated flag is kept; storage holds the current user with the new token |
| AuthSlice.AuthStore.ToggleSidebar | src/redux/authSlice.ts:97-99 | the sidebar flag is negated and nothing else changes |
| AuthSlice.ToggleTwice | src/redux/authSlice.ts:97-99 | toggling twice restores the whole state |
| ApiClient.Bearer | src/api/axios.ts:36 | the header starts with exactly "Bearer " and the rest is the token |
| ApiClient.HeaderAfterHook | src/api/axios.ts:31-40 | a truthy token sets `Bearer <token>`; otherwise the header is left as it was |
| ApiClient.HookIdempotent | src/api/axios.ts:31-40 | running the request hook twice equals running it once |
| ApiClient.Decide | src/api/axios.ts:52-68 | only a 401 on an unmarked request is handled: it is queued while a refresh runs and starts one otherwise; everything else is rejected unchanged |
| ApiClient.Settle | src/api/axios.ts:22-28 | every waiter in queue order is rejected with the error when there is one, else resolved with the token |
| ApiClient.SettleAppend | src/api/axios.ts:23-26 | settling a queue in two parts equals settling it whole: no reordering |
| ApiClient.Request.constructor | src/api/axios.ts:52 | a new request carries its header and is not yet marked `_retry` |
| ApiClient.RefreshCoordinator.constructor | src/api/axios.ts:19-20 | no refresh is running and the queue is empty, over a valid session store |
| ApiClient.RefreshCoordinator.OnRequest | src/api/axios.ts:31-40 | the request's header becomes `HeaderAfterHook` of the store's token; the `_retry` mark is untouched |
| ApiClient.RefreshCoordinator.OnError | src/api/axios.ts:49-92 | rejects unchanged, appends the request to the queue unmarked, or marks it, records it as the refresh's owner, raises the flag and issues one refresh, as `Decide` says |
| ApiClient.SettleQueue | src/api/axios.ts:22-27 | one settlement per queued request, in queue order: `Settle` of their identities |
| ApiClient.RefreshCoordinator.ProcessQueue | src/api/axios.ts:22-28 | returns `Settle` of the queued requests in order and empties the queue |
| ApiClient.RefreshCoordinator.OnRefreshSucceeded | src/api/axios.ts:76-89 | only the request that started the refresh may be replayed by it; the token is stored (and persisted) first, then the waiters resolved with it in order, the owner's header set, and the flag dropped; the rest of the session store is unchanged |
| ApiClient.RefreshCoordinator.OnRefreshFailed | src/api/axios.ts:83-89 | the waiters are rejected with the error in order, the session logged out (user, token and error cleared, storage slot removed, loading and sidebar flags kept), the owner rejected with the same error, and the flag dropped |
| ApiClient.ResumeWaiter | src/api/axios.ts:58-64 | a resolved waiter takes the token's header when truthy and is replayed; a rejected one fails with the same reason untouched |
| ApiClient.RetriedOwnerVersusReplayedWaiter | src/api/axios.ts:52-89 | after one refresh started by an owner and joined by a waiter succeeds and both are replayed, a second 401 on the owner is rejected while the same on the waiter starts a new refresh owned by it |
| Menu.ModalTotalPrice | src/components/Menu.tsx:39-46 | nothing open costs 0; otherwise one configured unit times the counter |
| Menu.ModalPriceIsNewLineTotal | src/components/Menu.tsx:39-57 | the modal's price equals the total of the line a first-time add creates |
| Menu.TotalQuantity | src/components/Menu.tsx:64 | with no negative quantity the badge count is not negative |
| Menu.TotalQuantityAppend | src/components/Menu.tsx:64 | the badge count of a concatenation is the sum of the counts |
| Menu.TotalQuantityReplace | src/components/Menu.tsx:64 | replacing a line changes the badge by the difference of the quantities |
| Menu.TotalQuantityAtLeastLines | src/components/Menu.tsx:64 | with positive quantities the badge is at least the number of lines |
| Menu.TotalQuantityAfterAdd | src/components/Menu.tsx:47-64 | one add of q units raises the badge by exactly q, merged or appended |
| Menu.FindSmall | src/components/Menu.tsx:32 | the first size whose lower-cased name is "small", or none exactly when there is none |
| Menu.SizeOnOpen | src/components/Menu.tsx:29-36 | opening picks the size at the first index whose name is "small" in any case, else the first size; a product without sizes keeps the current choice |
| Menu.ToggleExtra | src/components/Menu.tsx:214-219 | the clicked name flips membership; every other name keeps it |
| Menu.ToggleExtraTwiceSameSet | src/components/Menu.tsx:214-219 | two clicks restore the set of selected names |
| Menu.ToggleExtraTwiceAbsent | src/components/Menu.tsx:214-219 | from an unselected extra, two clicks restore the very same list |
| Menu.MenuModal.constructor | src/components/Menu.tsx:17-20 | nothing open, no size, no extras, counter 1 |
| Menu.MenuModal.Close | src/components/Menu.tsx:22-27 | everything back to the initial state |
| Menu.MenuModal.Open | src/components/Menu.tsx:29-36 | the product is open and the size is `SizeOnOpen`; extras and counter are kept |
| Menu.MenuModal.SelectSize | src/components/Menu.tsx:181 | only the size changes |
| Menu.MenuModal.ClickExtra | src/components/Menu.tsx:214-219 | only the selected extras change, by `ToggleExtra` |
| Menu.MenuModal.Increment | src/components/Menu.tsx:267 | the counter grows by one |
| Menu.MenuModal.Decrement | src/components/Menu.tsx:260 | the counter drops by one but never below 1 |
| Menu.MenuModal.HandleAddToCart | src/components/Menu.tsx:47-61 | with nothing open nothing changes; otherwise the cart receives exactly one add of the current configuration and the modal resets |
| MenuPage.InCategory | src/pages/user/MenuPage.tsx:27-32 | a category's products are a sub-list of the catalogue |
| MenuPage.InCategoryMembers | src/pages/user/MenuPage.tsx:27-32 | a product is in its category's list iff it is in the catalogue with that category |
| MenuPage.InCategoryAppend | src/pages/user/MenuPage.tsx:27-32 | per-category lists keep catalogue order across a concatenation |
| MenuPage.Categories | src/pages/user/MenuPage.tsx:28-30 | there are no more keys than products |
| MenuPage.CategoriesSnoc | src/pages/user/MenuPage.tsx:28-30 | a product adds its category as the last key only when the key is new |
| MenuPage.CategoriesExact | src/pages/user/MenuPage.tsx:27-39 | the keys are distinct, every product's category is a key, and every key is some product's category |
| MenuPage.InCategoryAbsent | src/pages/user/MenuPage.tsx:27-32 | a category that is not a key owns no products |
| MenuPage.GroupsNonEmpty | src/pages/user/MenuPage.tsx:28-31 | no section is empty |
| MenuPage.ProductInExactlyOneGroup | src/pages/user/MenuPage.tsx:27-39 | each product is in the section of its category and in no other |
| MenuPage.GroupCount | src/pages/user/MenuPage.tsx:34-39 | there are as many sections as distinct categories |
| MenuPage.FirstAppearanceOrder | src/pages/user/MenuPage.tsx:27-39 | a product of a later section is preceded by some product of every earlier section |
| MenuPage.GroupingIsPermutation | src/pages/user/MenuPage.tsx:25-39 | reading the sections back one after another gives a permutation of the catalogue |
| MenuPage.GroupStep | src/pages/user/MenuPage.tsx:27-32 | one loop step keeps the grouping object in step with the products read |
| MenuPage.GroupByCategory | src/pages/user/MenuPage.tsx:25-39 | one section per category in first-appearance order, each holding that category's products in catalogue order |
| CartPage.Fee | src/pages/user/Cart.tsx:52 | the fee is 3.00 iff the subtotal is positive, and 0 otherwise |
| CartPage.OrderItems | src/pages/user/Cart.tsx:95-99 | one payload item per line, in order, with product id, quantity and line total |
| CartPage.ItemsTotalIsSubtotal | src/pages/user/Cart.tsx:51-99 | the payload's line totals add up to the page's subtotal |
| CartPage.ItemsTotal | src/pages/user/Cart.tsx:51 | with no negative line total the payload's sum is not negative |
| CartPage.BuildPayload | src/pages/user/Cart.tsx:94-105 | items from the lines; subtotal equal both to their sum and to the page's subtotal; fee equal to `Fee` of the subtotal (3.00 exactly when it is positive); total = subtotal + fee; the chosen payment and address |
| CartPage.SubmitOrder | src/pages/user/Cart.tsx:88-118 | refuses an empty cart, then the placeholder address, then card payment; only a successful cash post empties the cart |
| Checkout.ExtraLines | src/components/Checkout.tsx:90-93 | each extra sent as its name and price, in order |
| Checkout.SizeName | src/components/Checkout.tsx:87 | the size's name when a size was chosen, absent otherwise |
| Checkout.CheckoutItems | src/components/Checkout.tsx:84-96 | one payload item per line, in order, with product, quantity, size name, extras and line total |
| Checkout.ItemsTotal | src/components/Checkout.tsx:33 | with no negative line total the payload's sum is not negative |
| Checkout.ItemsTotalIsCartTotal | src/components/Checkout.tsx:84-100 | the payload's line totals add up to the panel's cart total |
| Checkout.BuildPayload | src/components/Checkout.tsx:83-103 | subtotal and total both equal the line totals' sum; no delivery fee |
| Checkout.HandleSubmit | src/components/Checkout.tsx:76-119 | refuses an empty cart, then a missing address; only a 200 or 201 answer empties the cart and closes the panel |
| Orders.TabStatuses | src/pages/user/Orders.tsx:47-52 | Active lists three statuses, History two |
| Orders.DisplayedOrders | src/pages/user/Orders.tsx:47-52 | exactly the fetched orders whose status the tab lists |
| Orders.StatusInExactlyOneTab | src/pages/user/Orders.tsx:47-52 | a known status is listed by exactly one tab, an unknown one by neither |
| Orders.DisplayedOrdersAppend | src/pages/user/Orders.tsx:47-52 | the tab view keeps fetch order |
| Orders.TabsPartition | src/pages/user/Orders.tsx:47-52 | with known statuses, the two tabs together show every order exactly once |
| Orders.IsPastOrder | src/pages/user/Orders.tsx:104 | a finished order has a status the Active tab never lists |
| Orders.PastOrdersAreHistory | src/pages/user/Orders.tsx:104-148 | a past order is exactly one the History tab lists, so the progress bar shows only for Active orders |
| Orders.ProgressWidth | src/pages/user/Orders.tsx:170-175 | 10, 50 and 85 percent for the three active statuses, 0 exactly for the others |
| Orders.StepActive | src/pages/user/Orders.tsx:184-187 | the last step is never lit; the first is lit iff the status is active |
| Orders.LitSteps | src/pages/user/Orders.tsx:184-187 | at most three steps are lit |
| Orders.StepsMonotone | src/pages/user/Orders.tsx:184-187 | a lit step has every earlier step lit |
| Orders.WidthFollowsSteps | src/pages/user/Orders.tsx:170-187 | the bar is wider exactly when more steps are lit |
| ProtectedRoute.RoleOf | src/components/ProtectedRoute.tsx:17 | the user's role, or "" with no user |
| ProtectedRoute.Guard | src/components/ProtectedRoute.tsx:10-22 | visitors go to /login, a role outside a given list goes to /, and the section renders iff signed in and admitted |
| ProtectedRoute.NoRolesAdmitsAllSignedIn | src/components/ProtectedRoute.tsx:17 | without a role list every signed-in visitor is admitted |
| ProtectedRoute.EmptyRoleListLocksOut | src/components/ProtectedRoute.tsx:17 | an empty role list turns every signed-in visitor away |
| ProtectedRoute.SectionsDisjoint | src/components/ProtectedRoute.tsx:17-19 | admitted to role a's section means turned away from role b's |
| GuestRoute.Guard | src/components/GuestRoute.tsx:11-17 | admins go to /admin/dashboard, couriers to /delivery/dashboard, other signed-in users to /; the page renders iff no user or not authenticated |
| GuestRoute.GuardsAgree | src/components/GuestRoute.tsx:11-17 | whoever the login page turns away is admitted to the section of their role, and whoever a section sends to /login is shown it |
| Navbar.LinksByRole | src/components/Navbar.tsx:25-50 | visitors get Home only; admins and couriers their own lists; anyone else Home plus the customer links; Home shows iff not admin or courier |
| Navbar.LinkPathsDistinct | src/components/Navbar.tsx:25-41 | every list has distinct paths |
| Navbar.AtMostOneActive | src/components/Navbar.tsx:22 | at most one link is highlighted |
| Navbar.LinkKey | src/components/Navbar.tsx:92 | the key is the numeric id plus the index |
| Navbar.LinkKeysDistinct | src/components/Navbar.tsx:31-41 | although courier and admin lists repeat ids, every list's keys are distinct |
| ProductsAdmin.FilteredProducts | src/pages/admin/ProductsAdmin.tsx:87-92 | exactly the products whose name or category contains the term ignoring case |
| ProductsAdmin.EmptySearchListsAll | src/pages/admin/ProductsAdmin.tsx:87-92 | an empty search lists the catalogue unchanged |
| ProductsAdmin.FilteredProductsAppend | src/pages/admin/ProductsAdmin.tsx:87-92 | the search keeps catalogue order |
| ProductsAdmin.SizeRows | src/pages/admin/ProductsAdmin.tsx:104 | one row per size, same id, name and price |
| ProductsAdmin.ExtraRows | src/pages/admin/ProductsAdmin.tsx:105 | one row per extra, same id, name and price |
| ProductsAdmin.ApplyEdit | src/pages/admin/ProductsAdmin.tsx:134 | the edited field takes the value; id and the other field are kept |
| ProductsAdmin.DynamicChange | src/pages/admin/ProductsAdmin.tsx:127-136 | every row with the id gets the edit; other rows are untouched |
| ProductsAdmin.DynamicChangeIdempotent | src/pages/admin/ProductsAdmin.tsx:127-136 | repeating an edit changes nothing more |
| ProductsAdmin.AddRow | src/pages/admin/ProductsAdmin.tsx:138-140 | one blank row with id prefix + time appended; the others are kept |
| ProductsAdmin.RemoveRow | src/pages/admin/ProductsAdmin.tsx:142-144 | exactly the rows without the id remain |
| ProductsAdmin.RemoveRowAppend | src/pages/admin/ProductsAdmin.tsx:142-144 | removal distributes over concatenation, so the remaining rows keep their relative order |
| ProductsAdmin.RemoveUndoesAdd | src/pages/admin/ProductsAdmin.tsx:138-144 | removing a freshly added row restores the rows |
| ProductsAdmin.RemoveAfterChange | src/pages/admin/ProductsAdmin.tsx:127-144 | edits to rows that are then removed leave no trace |
| ProductsAdmin.Cleaned | src/pages/admin/ProductsAdmin.tsx:160-161 | each row sent as its name and price only, in order |
| ProductsAdmin.CleanedAfterAdd | src/pages/admin/ProductsAdmin.tsx:138-161 | a freshly added row reaches the server as a blank entry, without its time-based id |
| ProductsAdmin.SaveAllowed | src/pages/admin/ProductsAdmin.tsx:147 | saving needs name, description and category, and an image unless editing |
| ProductsAdmin.EditNeedsNoImage | src/pages/admin/ProductsAdmin.tsx:147 | editing saves without an image; creating does not |
| ProductsAdmin.ProductForm.constructor | src/pages/admin/ProductsAdmin.tsx:56-66 | the form starts closed and blank |
| ProductsAdmin.ProductForm.OpenModal | src/pages/admin/ProductsAdmin.tsx:96-117 | fills the form from the product or clears it; either way the modal opens |
| ProductsAdmin.ProductForm.CloseModal | src/pages/admin/ProductsAdmin.tsx:119 | only the modal flag changes |
| ProductsAdmin.ProductForm.ChooseImage | src/pages/admin/ProductsAdmin.tsx:121-125 | the first chosen file becomes the image and will be attached; no file leaves the image as it was; nothing else changes |
| ProductsAdmin.ProductForm.Payload | src/pages/admin/ProductsAdmin.tsx:154-168 | sizes and extras cleaned; a file is attached iff a new file was chosen |
| ProductsAdmin.ProductForm.HandleSave | src/pages/admin/ProductsAdmin.tsx:146-194 | invalid forms send nothing; otherwise an update for the edited product or a creation; success closes the modal; failure reports the server's message or "Something went wrong" |
| ProductsAdmin.ProductForm.ChangeSize | src/pages/admin/ProductsAdmin.tsx:127-136 | sizes become `DynamicChange` of the old sizes; nothing else changes |
| ProductsAdmin.ProductForm.ChangeExtra | src/pages/admin/ProductsAdmin.tsx:127-136 | extras become `DynamicChange` of the old extras; nothing else changes |
| ProductsAdmin.ProductForm.AddSize | src/pages/admin/ProductsAdmin.tsx:138-140 | sizes gain a blank "s" row; nothing else changes |
| ProductsAdmin.ProductForm.AddExtra | src/pages/admin/ProductsAdmin.tsx:138-140 | extras gain a blank "e" row; nothing else changes |
| ProductsAdmin.ProductForm.RemoveSize | src/pages/admin/ProductsAdmin.tsx:142-144 | sizes lose the rows with the id; nothing else changes |
| ProductsAdmin.ProductForm.RemoveExtra | src/pages/admin/ProductsAdmin.tsx:142-144 | extras lose the rows with the id; nothing else changes |
| ProductsAdmin.WithoutProduct | src/pages/admin/ProductsAdmin.tsx:210 | exactly the products without the id remain |
| ProductsAdmin.ProductsPage.constructor | src/pages/admin/ProductsAdmin.tsx:47-53 | an empty list, an empty search, the dialog closed and no product chosen |
| ProductsAdmin.ProductsPage.DeleteClick | src/pages/admin/ProductsAdmin.tsx:196-199 | remembers the product and opens the confirmation |
| ProductsAdmin.ProductsPage.ConfirmDelete | src/pages/admin/ProductsAdmin.tsx:201-217 | with no product nothing happens; otherwise on success exactly its products leave the list; the dialog closes either way |
| OrdersAdmin.FilteredOrders | src/pages/admin/OrdersAdmin.tsx:48-53 | exactly the orders whose id or customer name contains the term ignoring case |
| OrdersAdmin.Found | src/pages/admin/OrdersAdmin.tsx:48-53 | the empty term finds every order |
| OrdersAdmin.EmptySearchListsAll | src/pages/admin/OrdersAdmin.tsx:48-53 | an empty search lists every order, deleted customers included |
| OrdersAdmin.FilteredOrdersAppend | src/pages/admin/OrdersAdmin.tsx:48-53 | the search keeps list order |
| OrdersAdmin.OrderStats | src/pages/admin/OrdersAdmin.tsx:56-61 | the total is the list length and each counter is at most the total |
| OrdersAdmin.StatsBounded | src/pages/admin/OrdersAdmin.tsx:56-61 | the three counters together never exceed the total |
| OrdersAdmin.StatsGap | src/pages/admin/OrdersAdmin.tsx:56-61 | with known statuses the uncounted orders are exactly the accepted and cancelled ones |
| OrdersAdmin.BadgeLabel | src/pages/admin/OrdersAdmin.tsx:21 | every underscore becomes a space; other characters are kept |
| OrdersAdmin.OnTheWayLabel | src/pages/admin/OrdersAdmin.tsx:21 | "on_the_way" shows as "on the way" |
| OrdersAdmin.BadgeStyle | src/pages/admin/OrdersAdmin.tsx:12-20 | the gray fallback exactly for statuses outside the five |
| OrdersAdmin.CustomerName | src/pages/admin/OrdersAdmin.tsx:127 | never empty: the customer's name when present and non-empty, and "Deleted User" exactly otherwise |
| DeliveryAdmin.FilteredCouriers | src/pages/admin/DeliveryAdmin.tsx:35-38 | exactly the couriers whose name or e-mail contains the term ignoring case |
| DeliveryAdmin.Found | src/pages/admin/DeliveryAdmin.tsx:35-38 | the empty term finds every courier |
| DeliveryAdmin.EmptySearchListsAll | src/pages/admin/DeliveryAdmin.tsx:35-38 | an empty search lists every courier |
| DeliveryAdmin.FilteredCouriersAppend | src/pages/admin/DeliveryAdmin.tsx:35-38 | the search keeps list order |
| DeliveryAdmin.CourierCounters | src/pages/admin/DeliveryAdmin.tsx:60-70 | active pilots is the list length; the other two counters fit in it |
| DeliveryAdmin.CountersAddUp | src/pages/admin/DeliveryAdmin.tsx:60-70 | mission plus standby never exceeds the total and equals it when every status is known |
| DeliveryAdmin.BadgeText | src/pages/admin/DeliveryAdmin.tsx:172-178 | "Idle" iff the status is idle, "On Duty" otherwise |
| DeliveryAdmin.ShowsLivePanel | src/pages/admin/DeliveryAdmin.tsx:119 | the panel shows only for a courier that is not idle and whose order came with the list |
| DeliveryAdmin.LivePanelMeansOnDuty | src/pages/admin/DeliveryAdmin.tsx:119-121 | a courier with the live panel shown is badged "On Duty" |
| AdminDashboard.MonthLabel | src/pages/admin/AdminDashboard.tsx:90 | month 1 to 12 gets its name, any other number "M" and the number |
| AdminDashboard.MonthLabelIsMonthNameIffInRange | src/pages/admin/AdminDashboard.tsx:27-90 | a label is a month name iff the number is 1 to 12 |
| AdminDashboard.RevenueChartData | src/pages/admin/AdminDashboard.tsx:88-93 | one point per month stat in order, or none when the block or series is missing |
| AdminDashboard.TotalRevenue | src/pages/admin/AdminDashboard.tsx:95-96 | with no negative revenue the headline total is not negative |
| AdminDashboard.TotalRevenueIsStatsRevenue | src/pages/admin/AdminDashboard.tsx:88-96 | the headline total is the sum of the revenues the server sent |
| AdminDashboard.SliceName | src/pages/admin/AdminDashboard.tsx:100 | the name has the status's length |
| AdminDashboard.SliceNameReplacesFirstOnly | src/pages/admin/AdminDashboard.tsx:100 | only the first underscore becomes a space |
| AdminDashboard.OnTheWaySliceName | src/pages/admin/AdminDashboard.tsx:100 | "on_the_way" shows as "on the_way" |
| AdminDashboard.PieChartData | src/pages/admin/AdminDashboard.tsx:98-103 | one slice per status in order, coloured `COLORS[i % 5]`, or none when missing |
| AdminDashboard.PieColoursCycle | src/pages/admin/AdminDashboard.tsx:98-103 | two slices share a colour iff they are a multiple of five apart |
| AdminDashboard.BarChartData | src/pages/admin/AdminDashboard.tsx:105-109 | one bar per day in order, labelled with the weekday name for 1 to 7 and the raw number otherwise |
| AdminDashboard.Recent | src/pages/admin/AdminDashboard.tsx:209 | the first five orders, or all when fewer |
| AdminDashboard.RecentStable | src/pages/admin/AdminDashboard.tsx:209 | orders after the first five never change the table |
| DeliveryDashboard.ChartData | src/pages/delivery/DeliveryDashboard.tsx:56-60 | one point per stat in order, with "" and 0 for missing fields, or none when missing |
| DeliveryDashboard.Rate | src/pages/delivery/DeliveryDashboard.tsx:63-64 | a missing or non-numeric rate is 0; a number is kept |
| DeliveryDashboard.PieData | src/pages/delivery/DeliveryDashboard.tsx:63-71 | pending is never negative and is 0 iff delivered plus cancelled reach 100 |
| DeliveryDashboard.PieSumsToHundred | src/pages/delivery/DeliveryDashboard.tsx:65 | when the rates leave room the three slices sum to 100 |
| DeliveryDashboard.PieOvershoot | src/pages/delivery/DeliveryDashboard.tsx:65 | when the rates overshoot, pending is 0 and the slices sum to more than 100 |
| DeliveryDashboard.CapitalizeWords | src/pages/delivery/DeliveryDashboard.tsx:353 | a word character starting a word is upper-cased; all else is kept |
| DeliveryDashboard.FormatStatus | src/pages/delivery/DeliveryDashboard.tsx:353 | same length, no underscore left, every underscore now a space |
| DeliveryDashboard.FormatOnTheWay | src/pages/delivery/DeliveryDashboard.tsx:353 | "on_the_way" shows as "On The Way" |
| DeliveryDashboard.FormatStatusOnlyCapitalizes | src/pages/delivery/DeliveryDashboard.tsx:353 | lower-casing the formatted text gives back the status with spaces for underscores |
| DeliveryDashboard.BadgeStyle | src/pages/delivery/DeliveryDashboard.tsx:344-358 | the gray fallback exactly for statuses outside the five |
| OrdersDelivery.TimeAgo | src/pages/delivery/OrdersDelivery.tsx:19-35 | each unit is chosen exactly in its range, largest first on strict tests, and the count is the elapsed seconds divided by the unit, rounded down |
| OrdersDelivery.TimeAgoText | src/pages/delivery/OrdersDelivery.tsx:25-34 | the text always ends in " ago" and starts with a minus sign exactly for a time in the future |
| OrdersDelivery.TimeAgoTextBoundaries | src/pages/delivery/OrdersDelivery.tsx:24-34 | 60 s reads "60 seconds ago", 61 s "1 minutes ago", 31536000 s "12 months ago", -5 s "-5 seconds ago" |
| OrdersDelivery.TimeAgoCountBounds | src/pages/delivery/OrdersDelivery.tsx:24-33 | outside seconds at least one unit elapsed, and counts stay within 12 months, 30 days, 24 hours or 60 minutes |
| OrdersDelivery.TimeAgoBoundaries | src/pages/delivery/OrdersDelivery.tsx:24-34 | each unit's own length is shown in the next smaller unit (60 seconds, 60 minutes, 24 hours, 30 days, 12 months); negative times stay in seconds |
| OrdersDelivery.Endpoint | src/pages/delivery/OrdersDelivery.tsx:50-55 | the Available tab loads available orders, the other tab the courier's deliveries |
| OrdersDelivery.OrderCard | src/pages/delivery/OrdersDelivery.tsx:201-268 | the call link shows iff the tab is My Orders and the customer has a phone; the action is Mark Delivered on My Orders and Accept Order on Available; a missing or empty name reads "Unknown Customer" and a missing or empty address "No address provided" |
| OrdersDelivery.CallOnlyOnOwnOrders | src/pages/delivery/OrdersDelivery.tsx:208-256 | the call link only appears beside Mark Delivered |
| OrdersDelivery.RequestFor | src/pages/delivery/OrdersDelivery.tsx:74-95 | accepting PUTs to the accept path with no body; delivering PUTs status "delivered" to the status path |
| OrdersDelivery.FailureMessage | src/pages/delivery/OrdersDelivery.tsx:80-94 | a failed delivery says "Failed to update status"; a failed acceptance shows the server's message when truthy and "Failed to accept order" otherwise |

## Left out

- Network I/O is not modelled. HTTP calls, the refresh request, the geocoding lookups and the 30-second polling of the courier list are replaced by inputs that give their outcome. Re-fetching a list after a save, accept or deliver is not modelled.
- Promise scheduling and concurrency are not modelled. Each hook run and each settlement of the refresh call is one atomic step.
- Toasts, navigation, loading spinners, console output and all rendering are left out. This covers charts, maps, icons, modal markup and empty-state texts.
- JSON parsing of the storage slot is an input case (`Unparsable`) rather than computed. A slot holding the JSON text `null` makes the source throw while building its initial state; that path is not modelled.
- Floating-point arithmetic is not modelled: prices are exact reals. `toFixed`, `toLocaleString`, `String(basePrice)` and `parseFloat` are left out.
- Clocks and randomness become inputs. `Date.now()` is the `now` parameter of `AddRow`, and the elapsed time in whole seconds is the input of `TimeAgo`. `Math.random` distances and the shortened order ids shown on cards are left out.
- Case mapping covers ASCII letters only. Unicode case folding and the UTF-16 code-unit order of JavaScript's sort are not modelled; characters are compared by code point.
- MenuPage.GroupByCategory: sections follow first-appearance order. JavaScript lists integer-like keys first, in numeric order, and treats names such as `__proto__` specially; neither is modelled.
- ProductsAdmin.ProductForm.OpenModal: `product.sizes || []` is read as the product's sizes, since a product always carries lists here.
- ProductsAdmin.ProductForm.ChooseImage: the file input's list is a sequence of file names; a missing list and an empty one are both the empty sequence, and a chosen file is always truthy.
- The duplicate `_id` field of a cart line is not kept. It always equals `itemId`, so the payloads use `itemId`.
- The customer order page's status badge, its button labels and the logout handler in the navigation bar are left out. They only render or dispatch actions modelled elsewhere (`AuthSlice.AuthStore.Logout`).
- Layout, Hero, About, Contact, Footer and the other context components are not part of this model.
