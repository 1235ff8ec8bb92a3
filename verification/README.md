# Business logic of a food-service ordering and point-of-sale app

This project models the logic that sits under the screens of an açaí shop's web
app. It covers the delivery storefront, the point-of-sale (PDV) counter, the
attendance desk and the admin panel. Each piece is written as pure functions
over immutable datatypes, or as a small explicit state machine. Clock values,
random strings, browser storage contents and database answers are passed in as
parameters. The modules are:

- `Upsell` and `UpsellBanner`: the smart upsell engine and the banner state machine.
  - The engine is an ordered rule list over the cart, the catalog and the paid-complement table, capped at two suggestions.
  - The banner recomputes, rotates on ticks, and can be dismissed or accepted.
- `PdvCart`: the point-of-sale cart.
  - Line subtotals are clamped at zero.
  - Unit products are merged into an existing line; weighable products always get a new line.
  - The cart-level discount is a percentage or a clamped amount, and the total is clamped at zero.
  - Also covered: payment and split patches, clearing, and the product search.
- `ManualOrder`: the manual delivery-order form.
  - The Brazilian phone mask.
  - Item list edits.
  - The delivery fee by neighbourhood, with a default.
  - The ordered validation checks.
  - The submitted payload.
- `DeliveryCart`: the delivery cart drawer.
  - Routing of quantity changes.
  - The item count.
  - Resolution of the AI-assistant flags from stored settings and configuration events.
- `Attendance`: the attendance session and user store.
  - Login, logout and session restore.
  - The two "database configured" tests.
  - The local fallback for create, update and delete.
  - Default-user seeding.
  - The refresh that folds a database row back into the list.
- `AttendantPanel`: the attendant's order list filter and its per-status counts.
- `AttendancePage`: the unified attendance page.
  - The entry permission check.
  - The permitted tab list.
  - Correction of the active tab.
  - The per-tab content guard.
- `PdvPage`: the PDV page.
  - Login with the built-in credentials.
  - Logout.
  - Restoring the operator from storage.
  - The choice between the login screen and the main screen.
- `UsersPanel`: the admin form for attendance accounts: validation, the row written, reset and edit.
- `ImageUpload`: product-image upload.
  - Size and type checks.
  - The generated file name and path.
  - The row saved.
  - The progress values.
- Shared modules:
  - `Basics`: `Option`, `Result`, and `Stored`, the three outcomes of reading a JSON value from browser storage.
  - `Text`: the JavaScript string primitives used: case mapping, trim, digit extraction, substring search, split-and-pop, and number-to-string.
  - `Seqs`: `filter`, `find`, counts and sums, with their contracts.
  - `Delivery`: the storefront's product and cart-line types.

Money amounts are `real`. Quantities, sizes and timestamps are unbounded integers.

## Model

| member | source | states |
|---|---|---|
| Upsell.GenerateSuggestions | src/components/Delivery/SmartUpsellBanner.tsx:73-278 | an empty cart gives no suggestions; at most two are returned, and they are a prefix of the rule list in rule order (all of it when fewer than two); each is admissible: a catalog product in the catalog and not in the cart, or a table complement not already on the cart, offered to an açaí cart |
| Upsell.AllAdmissible | src/components/Delivery/SmartUpsellBanner.tsx:78-263 | every rule's output, before the cap, contains only admissible suggestions |
| Upsell.PromoUpgradeExclusive | src/components/Delivery/SmartUpsellBanner.tsx:104-144 | the 300g promotion fires only for a cart without a 300g açaí and the 500g upgrade only for one with it, so they never fire together |
| Upsell.UpgradePriceIncrease | src/components/Delivery/SmartUpsellBanner.tsx:125-144 | the upgrade offers a 500g açaí, once, and its price increase is that product's price minus the product price of the cart's first 300g line |
| Upsell.LowValuePremiumExclusive | src/components/Delivery/SmartUpsellBanner.tsx:244-275 | the low-value rule needs a total under 25 and the premium rule a total over 40, so they never fire together |
| Upsell.LowValueOffer | src/components/Delivery/SmartUpsellBanner.tsx:244-258 | the low-value offer is an açaí priced above half the cart total, with the urgency trigger and confidence 0.6 |
| Upsell.PremiumOffer | src/components/Delivery/SmartUpsellBanner.tsx:260-275 | the premium offer is a product whose original price is set and above its price, with the affinity trigger and confidence 0.85 |
| Upsell.VirtualProductShape | src/components/Delivery/SmartUpsellBanner.tsx:223-232 | a paid complement is shown as a product in category `complementos` at the table price, under its own name, with an id of `complement-` followed by text holding no whitespace |
| Upsell.ComplementSuggestionShape | src/components/Delivery/SmartUpsellBanner.tsx:196-242 | every complement suggestion returned comes from the table, is not among the cart's complement names, and has the virtual-product shape |
| Upsell.PacocaSuppressed | src/components/Delivery/SmartUpsellBanner.tsx:97-102 | a cart complement typed ` Paçoca ` stops the table's `PAÇOCA` from being offered, because names are compared after lowercasing and trimming |
| Upsell.UpgradeScenario | src/components/Delivery/SmartUpsellBanner.tsx:125-144 | a cart with one 300g açaí at 14.50, and the 500g at 19.90 in the catalog, is first offered the upgrade at 5.40 more |
| Upsell.LowValueScenario | src/components/Delivery/SmartUpsellBanner.tsx:245-257 | a cart totalling 10.00 with a 12.00 açaí it does not hold fires the low-value rule with the urgency trigger |
| Upsell.VirtualComplementRepeated | src/components/Delivery/SmartUpsellBanner.tsx:196-242 | a cart holding an açaí and the virtual paçoca product, with no complement selected, is still offered paçoca first, and that offer passes the admissibility test, although its virtual id is one of the cart's product ids |
| UpsellBanner.StoredAiEnabled | src/components/Delivery/SmartUpsellBanner.tsx:33-49 | AI is off exactly when the specific key parses to false, or when it is absent and the general settings say `enabled: false` |
| UpsellBanner.AcceptedProduct | src/components/Delivery/SmartUpsellBanner.tsx:342-344 | a product is handed to the select callback exactly when the banner is shown, and it is the shown suggestion's product |
| UpsellBanner.MountInv | src/components/Delivery/SmartUpsellBanner.tsx:27-30 | the mounted banner satisfies the invariant: visible implies a current suggestion with AI on, and a running rotation implies visibility, more than one suggestion and an index in range |
| UpsellBanner.StepInv | src/components/Delivery/SmartUpsellBanner.tsx:281-310 | every event keeps the invariant |
| UpsellBanner.RunInv | src/components/Delivery/SmartUpsellBanner.tsx:281-310 | every sequence of events keeps the invariant |
| UpsellBanner.StepFits | src/components/Delivery/SmartUpsellBanner.tsx:281-310 | every event keeps the shown suggestion and the rotation list fitting the current cart: no catalog product the cart holds, no complement already on it; the rotation list may be stale for the catalog but never for the cart |
| UpsellBanner.RunFits | src/components/Delivery/SmartUpsellBanner.tsx:281-310 | every sequence of events keeps that property |
| UpsellBanner.AcceptedFitsCart | src/components/Delivery/SmartUpsellBanner.tsx:406-407 | after mounting and any events, a product handed to the select callback fits the current cart; a catalog product is never one the cart already holds |
| UpsellBanner.CartChangeRecomputes | src/components/Delivery/SmartUpsellBanner.tsx:281-310 | after a cart change the banner is visible exactly when there are suggestions and AI is on, showing the first one at index 0; the rotation runs, over the new list, exactly when visible with more than one suggestion |
| UpsellBanner.TickAdvances | src/components/Delivery/SmartUpsellBanner.tsx:301-307 | a tick while rotating moves to `(index + 1) mod n`, stays below `n`, shows that suggestion, and changes nothing else |
| UpsellBanner.TickIdle | src/components/Delivery/SmartUpsellBanner.tsx:295-299 | without a running rotation a tick changes nothing |
| UpsellBanner.DismissStopsRotation | src/components/Delivery/SmartUpsellBanner.tsx:368 | dismissal hides the banner, stops the rotation, and no number of later ticks changes the state |
| UpsellBanner.TicksIdle | src/components/Delivery/SmartUpsellBanner.tsx:295-310 | any number of ticks without a running rotation changes nothing |
| UpsellBanner.ConfigOffHides | src/components/Delivery/SmartUpsellBanner.tsx:54-56 | a configuration event that turns AI off hides the banner and stops its rotation |
| UpsellBanner.TwoSuggestionRotation | src/components/Delivery/SmartUpsellBanner.tsx:301-307 | with two suggestions the index goes 0, 1, 0 on successive ticks |
| PdvCart.ItemSubtotal | src/hooks/usePDV.ts:735-750 | the line subtotal is never negative; it is the base price less the discount, or zero when the discount exceeds the base price |
| PdvCart.SubtotalZeroIff | src/hooks/usePDV.ts:735-750 | the subtotal is zero exactly when the discount covers the base price |
| PdvCart.SubtotalIndependence | src/hooks/usePDV.ts:741-747 | a unit product's subtotal does not depend on the weight, and a weighable product's does not depend on the quantity |
| PdvCart.SubtotalAntitoneInDiscount | src/hooks/usePDV.ts:735-750 | a larger line discount never raises the subtotal |
| PdvCart.SubtotalExamples | src/hooks/usePDV.ts:735-750 | three units at 15.90 with 1.00 off come to 46.70; a weighable product with no weight comes to 0 |
| PdvCart.NewLineId | src/hooks/usePDV.ts:598-629 | a new line id begins with the product id followed by a dash |
| PdvCart.MergeTarget | src/hooks/usePDV.ts:598-610 | the line a unit product merges into is its first line with that product id; weighable products never merge |
| PdvCart.AddItem | src/hooks/usePDV.ts:598-630 | a unit product already in the cart adds `q` to its first line's quantity, keeps its weight, recomputes its subtotal, and touches no other line; otherwise exactly one line is appended, with the id built from the product id, the clock and the random text, the given quantity and weight, no discount and its own subtotal |
| PdvCart.AddItemCounts | src/hooks/usePDV.ts:598-630 | adding `q` of a product raises the total quantity by exactly `q`; the line count rises by one unless the product merged |
| PdvCart.RemoveItem | src/hooks/usePDV.ts:632-634 | every line of that product goes; every other line stays, in order, as many times as it occurs; with no such line the cart is unchanged |
| PdvCart.RemoveIdempotent | src/hooks/usePDV.ts:632-634 | removing a product twice is removing it once |
| PdvCart.UpdateLines | src/hooks/usePDV.ts:642-651 | the mapping changes the lines of that product and leaves every other line as it is |
| PdvCart.UpdateItemQuantity | src/hooks/usePDV.ts:636-652 | a quantity of zero or less is a removal; otherwise only that product's lines change, each getting the quantity and a recomputed subtotal while keeping its id, product, weight and discount |
| PdvCart.UpdateThenRemove | src/hooks/usePDV.ts:636-652 | updating a product's quantity and then removing it equals removing it at once, so the update touched nothing else |
| PdvCart.UpdateQuantityIdempotent | src/hooks/usePDV.ts:636-652 | setting the same quantity twice is setting it once |
| PdvCart.UpdateItemWeight | src/hooks/usePDV.ts:654-665 | only that product's lines change, each getting the new weight and a recomputed subtotal while keeping its id, product, quantity and discount |
| PdvCart.ApplyItemDiscount | src/hooks/usePDV.ts:667-678 | only that product's lines change, each getting the new discount and a recomputed subtotal while keeping its id, product, quantity and weight |
| PdvCart.OperationsKeepConsistent | src/hooks/usePDV.ts:598-678 | every line operation keeps each stored subtotal equal to the one computed from its product, quantity, weight and discount |
| PdvCart.SubtotalNonNegative | src/hooks/usePDV.ts:687-689 | with consistent lines the cart subtotal is never negative |
| PdvCart.DiscountAmount | src/hooks/usePDV.ts:691-699 | a percentage discount is `subtotal * v / 100`; an amount discount is the smaller of the amount and the subtotal; no discount is 0 |
| PdvCart.DiscountWithinSubtotal | src/hooks/usePDV.ts:691-703 | with a percentage in [0, 100] or a non-negative amount, the discount lies in [0, subtotal] and the clamp in the total never applies |
| PdvCart.Total | src/hooks/usePDV.ts:701-703 | the total is never negative; it is the subtotal less the discount, or zero when the discount exceeds the subtotal |
| PdvCart.AmountDiscountTotal | src/hooks/usePDV.ts:691-703 | with a fixed amount the total is the subtotal less the amount, or zero once the amount exceeds it |
| PdvCart.UpdatePaymentInfo | src/hooks/usePDV.ts:705-707 | each field the patch carries replaces the old value, and every other field is kept |
| PdvCart.UpdateSplitInfo | src/hooks/usePDV.ts:709-711 | each field the patch carries replaces the old value, and every other field is kept |
| PdvCart.PatchLaws | src/hooks/usePDV.ts:705-711 | an empty patch changes nothing, and applying a patch twice is applying it once |
| PdvCart.ClearCart | src/hooks/usePDV.ts:680-685 | clearing leaves no lines, no discount, cash payment with no change or customer, and splitting off in 2 parts with no amounts |
| PdvCart.ClearCartIsInitial | src/hooks/usePDV.ts:577-596 | a cleared cart is the freshly created cart, clearing is idempotent, and its total is 0 |
| PdvCart.SearchProducts | src/hooks/usePDV.ts:379-389 | a blank query returns every product; otherwise exactly the products whose lowercased name, code, barcode or category contains the lowercased query, in catalog order, each as many times as the catalog lists it |
| PdvCart.SearchIdempotent | src/hooks/usePDV.ts:379-389 | searching the results again with the same query gives the same results |
| ManualOrder.PhoneDigits | src/components/Orders/ManualOrderForm.tsx:68-69 | the digits kept are a prefix of the input's digits, at most eleven, and all of them when there are fewer than eleven |
| ManualOrder.FormatPhone | src/components/Orders/ManualOrderForm.tsx:67-78 | with `n` kept digits the mask shows them bare when `n` is at most 2, as `(DD) rest` up to 7, and as `(DD) DDDDD-rest` beyond; lengths are `n`, `n + 3` and `n + 4`, never over 15 |
| ManualOrder.MaskKeepsDigits | src/components/Orders/ManualOrderForm.tsx:71-77 | the mask adds punctuation only: the digits of the masked text are the digits it was given |
| ManualOrder.FormatPhoneDigits | src/components/Orders/ManualOrderForm.tsx:67-78 | the digits of the masked phone are exactly the input's first (up to eleven) digits |
| ManualOrder.FormatPhoneIdempotent | src/components/Orders/ManualOrderForm.tsx:67-78 | masking a masked phone changes nothing |
| ManualOrder.FormatPhoneExample | src/components/Orders/ManualOrderForm.tsx:67-78 | `11987654321` is shown as `(11) 98765-4321` |
| ManualOrder.AddItem | src/components/Orders/ManualOrderForm.tsx:85-110 | no selection and an unknown product are errors that change nothing. Otherwise exactly one line is appended for the first product with the selected id: id `item-` plus the clock, that product's id, name and price, its image (or the default photo when missing or empty), quantity 1, total equal to the price and no observations. The selection is cleared and nothing else changes |
| ManualOrder.AddItemSubtotal | src/components/Orders/ManualOrderForm.tsx:85-110 | a successful add raises the subtotal by the price of the first product carrying the selected id |
| ManualOrder.BlankFormRefused | src/components/Orders/ManualOrderForm.tsx:45-58 | the form as the open and close resets leave it has no items and a zero subtotal, is refused on submit for the missing name first, and refuses an add for the missing selection |
| ManualOrder.RemoveItem | src/components/Orders/ManualOrderForm.tsx:130-132 | the lines with that id go; the others stay, in order, as many times as they occur |
| ManualOrder.UpdateItemQuantity | src/components/Orders/ManualOrderForm.tsx:112-128 | zero or less removes the line; otherwise only that line gets the quantity and a total of unit price times quantity |
| ManualOrder.SetQuantity | src/components/Orders/ManualOrderForm.tsx:118-127 | lines with that id get the quantity and its total; every other line is unchanged |
| ManualOrder.UpdateThenRemove | src/components/Orders/ManualOrderForm.tsx:112-132 | changing a line's quantity and then removing it equals removing it at once |
| ManualOrder.UpdateQuantitySubtotal | src/components/Orders/ManualOrderForm.tsx:112-141 | with unique line ids, setting line `k`'s quantity replaces its old total in the subtotal by unit price times the new quantity |
| ManualOrder.DeliveryFee | src/components/Orders/ManualOrderForm.tsx:134-137 | the fee is that of the first neighbourhood with exactly that name, or 5.00 when none has it |
| ManualOrder.UnknownNeighborhoodTotal | src/components/Orders/ManualOrderForm.tsx:134-145 | for an unknown neighbourhood the total is the subtotal plus 5.00 |
| ManualOrder.ValidateForm | src/components/Orders/ManualOrderForm.tsx:147-179 | the form is valid exactly when none of the six checks fails; the error reported is the first failing check in source order (name, phone digits, address, neighbourhood, items, change for cash) |
| ManualOrder.MaskedPhoneCheck | src/components/Orders/ManualOrderForm.tsx:67-78 | a masked phone passes the phone check exactly when the raw input held at least eleven digits |
| ManualOrder.PayloadItems | src/components/Orders/ManualOrderForm.tsx:202-210 | the payload has one item per form line, in order |
| ManualOrder.Submit | src/components/Orders/ManualOrderForm.tsx:181-215 | an invalid form yields its validation error. A valid one yields an order that copies the customer, address, complement and payment fields, carries the input's phone digits (at least eleven), the form's total and the neighbourhood's fee, one payload item per form line in order, status `confirmed` and channel `manual`. A known neighbourhood contributes its id and its delivery time unless that is 0 or missing; an unknown one gives no id; either way the fallback is 35 minutes |
| DeliveryCart.HandleQuantityChange | src/components/Delivery/Cart.tsx:186-192 | zero or less routes to removal, anything else to an update with that quantity, for the same line id |
| DeliveryCart.TotalItemsAppend | src/components/Delivery/Cart.tsx:194-196 | the item count of joined lists is the sum of their counts, and an added line adds its quantity |
| DeliveryCart.TotalItemsAtLeastLines | src/components/Delivery/Cart.tsx:194-196 | when every line holds at least one unit, the count is at least the number of lines |
| DeliveryCart.CheckAISettings | src/components/Delivery/Cart.tsx:42-80 | a present specific key decides the AI flag and leaves the other flag; otherwise general settings give both flags as "not explicitly false"; with neither, or on a parse error, both are on |
| DeliveryCart.MountedFlags | src/components/Delivery/Cart.tsx:38-80 | after mounting, the AI flag is off exactly when a stored value says false, and the in-cart flag is off exactly when the general settings say `showInCart: false` with no specific key |
| DeliveryCart.HandleConfigChange | src/components/Delivery/Cart.tsx:144-150 | the AI flag follows the event; the in-cart flag changes only when the event carries settings |
| DeliveryCart.ConfigEventLaws | src/components/Delivery/Cart.tsx:144-150 | an event carrying settings overrides both flags whatever came before, and any event applied twice is applied once |
| DeliveryCart.DisableEventHides | src/components/Delivery/Cart.tsx:144-165 | an event that disables AI hides the assistant whatever else holds |
| DeliveryCart.ShownWhenEnabled | src/components/Delivery/Cart.tsx:165-177 | with every flag on, the assistant shows exactly in an open cart with items, products to suggest and an add callback |
| Attendance.DefaultUsers | src/hooks/useAttendance.ts:78-196 | three seeded accounts, all active, with the default password and every permission, usernames `admin`, `sarahsantos` and `kevelly` |
| Attendance.UsersToCreate | src/hooks/useAttendance.ts:389-391 | exactly the default users whose username is not already present, in their order |
| Attendance.SeedingCovers | src/hooks/useAttendance.ts:389-391 | each default username is either existing or about to be created, never both; with nobody existing all three are created |
| Attendance.LoadUsersFromStorage | src/hooks/useAttendance.ts:436-452 | a stored list that parses is used as is; otherwise the default users |
| Attendance.RestoreSession | src/hooks/useAttendance.ts:51-64 | a stored session that parses is restored; otherwise the session is signed out |
| Attendance.StampLastLogin | src/hooks/useAttendance.ts:724-759 | entries with that id get the login time as last login; every other entry is unchanged |
| Attendance.Login | src/hooks/useAttendance.ts:663-715 | succeeds exactly when some active user has that username and password; the session is then authenticated with the first such user and its last login is stamped; on failure the list and session are unchanged until the database lookup it also starts lands (`Attendance.LookupThenRetry`) |
| Attendance.LoginTouchesOnlyLastLogin | src/hooks/useAttendance.ts:663-715 | signing in changes no user's fields other than the last-login time |
| Attendance.Logout | src/hooks/useAttendance.ts:718-722 | the session is unauthenticated with no user, and the user list is kept |
| Attendance.LoginThenLogout | src/hooks/useAttendance.ts:663-722 | logging out after a login gives the signed-out session and keeps the login stamp in the list |
| Attendance.SessionStaysWellFormed | src/hooks/useAttendance.ts:663-722 | login and logout keep "authenticated exactly when a user is attached" |
| Attendance.ConfiguredImpliesLookup | src/hooks/useAttendance.ts:207-210 | the user operations' configuration test implies the lookup's once the key holds no `placeholder` |
| Attendance.TemplateValuesDisagree | src/hooks/useAttendance.ts:618-620 | on the template values, the user operations' test says unconfigured but the lookup's test says configured |
| Attendance.CreateUserLocal | src/hooks/useAttendance.ts:469-478 | exactly one user is appended after the existing ones, with the clock as its id, both timestamps set to now, and the given fields |
| Attendance.CreateThenDelete | src/hooks/useAttendance.ts:469-580 | creating a user under an unused id and then deleting that id gives the original list |
| Attendance.UpdateUserLocal | src/hooks/useAttendance.ts:524-528 | only entries with that id are merged with the patch; every other entry is unchanged |
| Attendance.PatchMerges | src/hooks/useAttendance.ts:526 | the merge takes each field the patch carries and keeps the others; an empty patch only refreshes `updatedAt`; merging twice is merging once |
| Attendance.DeleteUserLocal | src/hooks/useAttendance.ts:580 | entries with that id go; the others stay, in order, as many times as they occur |
| Attendance.UnknownIdNoOp | src/hooks/useAttendance.ts:524-580 | updating or deleting an id nobody has leaves the list unchanged |
| Attendance.DeleteIdempotent | src/hooks/useAttendance.ts:580 | deleting twice is deleting once |
| Attendance.Upsert | src/hooks/useAttendance.ts:635-638 | the database row is last, and before it come the old entries without its id |
| Attendance.UpsertUnique | src/hooks/useAttendance.ts:635-638 | after the upsert exactly one entry carries the row's id |
| Attendance.RefreshSession | src/hooks/useAttendance.ts:641-649 | an authenticated session for that username takes the database copy of the user; any other session is kept |
| Attendance.FindUserInDatabase | src/hooks/useAttendance.ts:613-660 | a row is returned exactly when lookups are configured and the row's password matches; the list is then upserted and the session refreshed; otherwise nothing changes |
| Attendance.LookupThenRetry | src/hooks/useAttendance.ts:613-711 | after a failed login, once the lookup lands with an active row of that username and matching password, the row is in the list and the same login succeeds |
| AttendantPanel.FilteredOrders | src/components/Orders/AttendantPanel.tsx:65-73 | the list is an order-preserving selection holding exactly the orders that match the status filter and the search term, each as many times as it occurs |
| AttendantPanel.StatusOf | src/components/Orders/AttendantPanel.tsx:52-63 | each of the seven status texts the counts compare against gives its own status, and any other text is kept as an other status carrying that text |
| AttendantPanel.NoFilterListsAll | src/components/Orders/AttendantPanel.tsx:66-67 | with every status and an empty term, every order is listed |
| AttendantPanel.FilterTwice | src/components/Orders/AttendantPanel.tsx:65-73 | filtering the filtered list again changes nothing |
| AttendantPanel.GetStatusCounts | src/components/Orders/AttendantPanel.tsx:52-75 | `all` is the number of orders, and each of the seven status counts is the number of orders with that status, i.e. the length of the list that status shows with no search term |
| AttendantPanel.StatusCountIsListLength | src/components/Orders/AttendantPanel.tsx:52-73 | each status count equals the length of the list shown for that status with no search term |
| AttendantPanel.SevenCountsSumToAll | src/components/Orders/AttendantPanel.tsx:52-63 | when every order has one of the seven statuses, the seven counts sum to `all` |
| AttendantPanel.FilteredWithinCount | src/components/Orders/AttendantPanel.tsx:52-75 | the list for one status, with any search term, is never longer than that status's count |
| AttendancePage.AvailableTabs | src/components/UnifiedAttendancePage.tsx:98-166 | the tabs offered are the fixed eight-tab list in order, keeping exactly those whose permission is granted |
| AttendancePage.CorrectActiveTab | src/components/UnifiedAttendancePage.tsx:169-174 | an offered active tab is kept; one that is not offered gives way to the first offered tab; with no tabs nothing changes |
| AttendancePage.CorrectionIdempotent | src/components/UnifiedAttendancePage.tsx:169-174 | correcting twice is correcting once |
| AttendancePage.Page | src/components/UnifiedAttendancePage.tsx:56-174 | the no-permission screen appears exactly when the entry check fails; otherwise the permitted tabs show, with an active tab among them when there are any |
| AttendancePage.ReportFlagsDoNotGrantEntry | src/components/UnifiedAttendancePage.tsx:56-63 | setting the sales-report and cash-report flags never changes the entry check |
| AttendancePage.OnlyReportFlags | src/components/UnifiedAttendancePage.tsx:56-66 | an operator holding only those two flags gets the no-permission screen |
| AttendancePage.RenderTabContent | src/components/UnifiedAttendancePage.tsx:176-227 | a tab's screen renders exactly when its permission is granted; otherwise the guard's message does |
| AttendancePage.ListedIffContentShown | src/components/UnifiedAttendancePage.tsx:98-227 | a tab is offered exactly when its content would pass its guard |
| AttendancePage.FullAccess | src/components/UnifiedAttendancePage.tsx:98-174 | with every permission, all eight tabs are offered in order and the orders tab stays active |
| PdvPage.DefaultOperator | src/components/PDV/PDVPage.tsx:30-72 | the default operator has code `ADMIN` and password `elite2024`, is an active admin, and holds exactly the thirty permissions, all granted |
| PdvPage.RestoreOperator | src/components/PDV/PDVPage.tsx:7-21 | a stored operator that parses is restored; an unparseable entry is removed and nobody is logged in |
| PdvPage.HandleLogin | src/components/PDV/PDVPage.tsx:74-97 | succeeds exactly when the code, upper-cased, is `ADMIN` and the password is `elite2024`; the default operator is then logged in with the login time as last login and saved; on failure nothing changes |
| PdvPage.AcceptedCodes | src/components/PDV/PDVPage.tsx:78 | the accepted codes are exactly the five-letter spellings of `admin` in any mix of cases, where the `i` may also be a dotless `ı` |
| PdvPage.LoginExamples | src/components/PDV/PDVPage.tsx:78 | `admin` logs in; `ELITE2024` and the empty password do not |
| PdvPage.HandleLogout | src/components/PDV/PDVPage.tsx:99-103 | nobody is logged in and the stored entry is removed |
| PdvPage.CurrentScreen | src/components/PDV/PDVPage.tsx:105-111 | the main screen, for the logged-in operator, exactly when one is set; otherwise the login screen |
| PdvPage.LoginSurvivesReload | src/components/PDV/PDVPage.tsx:7-21 | after a login, reloading restores the same state, and the main screen shows the logged-in operator |
| PdvPage.LogoutAfterLogin | src/components/PDV/PDVPage.tsx:74-111 | logging out after any login attempt gives the login screen, and reloading keeps it |
| PdvPage.FailedLoginKeepsScreen | src/components/PDV/PDVPage.tsx:95-96 | a failed login leaves the screen as it was |
| PdvPage.DefaultOperatorEntersAttendance | src/components/PDV/PDVPage.tsx:37-68 | the default operator passes the attendance page's entry check and holds every tab's permission there |
| UsersPanel.ResetForm | src/components/Admin/AttendanceUsersPanel.tsx:86-109 | reset gives empty texts, the attendant role, an active account, the twelve reset permissions, and no account being edited |
| UsersPanel.ResetIdempotent | src/components/Admin/AttendanceUsersPanel.tsx:86-109 | resetting twice is resetting once |
| UsersPanel.ResetExtendsInitial | src/components/Admin/AttendanceUsersPanel.tsx:48-109 | the reset permissions agree with the first form's seven flags and add exactly five more |
| UsersPanel.HandleCreate | src/components/Admin/AttendanceUsersPanel.tsx:111-114 | creating opens the reset form with the twelve reset permissions and no account being edited, and that form cannot be submitted untouched |
| UsersPanel.HandleEdit | src/components/Admin/AttendanceUsersPanel.tsx:116-127 | editing loads the account's fields with an empty password, marks the account as being edited, and opens the form |
| UsersPanel.SetPermission | src/components/Admin/AttendanceUsersPanel.tsx:433-436 | a checkbox sets its flag and leaves every other flag and field as it was |
| UsersPanel.HandleSubmit | src/components/Admin/AttendanceUsersPanel.tsx:129-177 | a blank username or name stops the submit; creating with a blank password stops it; otherwise editing writes the form's fields plus the password only when not blank, and creating writes the form's fields with the password as hash, untrimmed |
| UsersPanel.EditRoundTrip | src/components/Admin/AttendanceUsersPanel.tsx:116-158 | submitting an account loaded for editing, untouched, writes back its own fields and no password |
| UsersPanel.ResetFormRejected | src/components/Admin/AttendanceUsersPanel.tsx:86-135 | a freshly reset form cannot be submitted |
| UsersPanel.BlankPasswordNeverWritten | src/components/Admin/AttendanceUsersPanel.tsx:149-164 | a password of spaces is never written: refused on creation, left out on edit |
| UsersPanel.PasswordWrittenVerbatim | src/components/Admin/AttendanceUsersPanel.tsx:149-171 | a password that is written keeps its surrounding spaces |
| UsersPanel.WriteKindFollowsEditing | src/components/Admin/AttendanceUsersPanel.tsx:138-178 | a submission updates exactly when an account is being edited, and inserts otherwise |
| UsersPanel.AfterWrite | src/components/Admin/AttendanceUsersPanel.tsx:179-196 | a successful write closes and resets the form; a failed one keeps everything |
| ImageUpload.Validate | src/hooks/useImageUpload.ts:16-23 | a file passes exactly when it is at most 5 MiB and of one of the five types; an oversized file is reported as too large whatever its type |
| ImageUpload.SizeBoundary | src/hooks/useImageUpload.ts:16-18 | exactly 5·1024·1024 bytes passes; one byte more is too large |
| ImageUpload.TypeIsCaseSensitive | src/hooks/useImageUpload.ts:20-23 | the type comparison is exact: `IMAGE/PNG` is refused |
| ImageUpload.Extension | src/hooks/useImageUpload.ts:44 | the extension holds no dot and ends the name; a name without a dot is its own extension |
| ImageUpload.ExtensionExamples | src/hooks/useImageUpload.ts:44 | `foto` has extension `foto`, and `photo.tar.gz` has `gz` |
| ImageUpload.ExtensionRoundTrip | src/hooks/useImageUpload.ts:42-44 | reading the extension back from the generated name gives the original file's extension |
| ImageUpload.Upload | src/hooks/useImageUpload.ts:9-85 | it succeeds exactly when validation, reading and saving all succeed; each failure is reported with its own error; the row sent carries the generated name, its `products/` path, the size, type, data URL and original name; the result mirrors that row; uploading is off at the end |
| ImageUpload.RowLayout | src/hooks/useImageUpload.ts:42-59 | the row's path is `products/` followed by its name, its name keeps the original extension, and it records the original name and size |
| ImageUpload.ProgressLaws | src/hooks/useImageUpload.ts:11-68 | progress starts at 0, never decreases, stays at or below 100, and ends at 100 exactly when the upload succeeds |
| ImageUpload.SuccessProgress | src/hooks/useImageUpload.ts:11-68 | a successful upload reports 0, 25, 50, 75 and 100, in that order |

Observations made while modelling; none is claimed as a defect:
- Two different "configured" tests. The user operations check url and key against the two template strings and look for `placeholder` in the url only (src/hooks/useAttendance.ts:207-210). The lookup checks both values for `placeholder` and ignores the templates (src/hooks/useAttendance.ts:618-620). So with the template values left in place, the database lookup runs but the user operations do not (`Attendance.TemplateValuesDisagree`).
- The first admin form and `resetForm` use different permission sets: seven flags against twelve (`UsersPanel.ResetExtendsInitial`).
- The banner re-arms its rotation interval only when visibility, the cart or the AI flag changes (src/components/Delivery/SmartUpsellBanner.tsx:310). After a catalog-only change that keeps the banner visible, it goes on rotating through the list it captured before.
- The virtual complement id is `complement-` followed by the complement name lowercased, with each run of whitespace turned into one `-` (src/components/Delivery/SmartUpsellBanner.tsx:225; `Upsell.ComplementIdShape`).
- The complement rule skips a complement only when a cart line already has it selected by name (src/components/Delivery/SmartUpsellBanner.tsx:97-102, 196-242). It never looks at the cart's product ids. A cart line whose product is the virtual `complement-paçoca` product, with no paçoca selected as a complement, therefore does not stop paçoca from being offered again (`Upsell.VirtualComplementRepeated`). The catalog rules, by contrast, never offer a product id the cart already holds.

## Left out

- Every call to the hosted database: its queries, inserts, updates, deletes and error messages. Where the outcome matters it is a parameter: the row returned by the lookup, whether the admin panel's write succeeded, and the image save error. `deleteImage` and `getUploadedImages` in src/hooks/useImageUpload.ts are pure database calls and are not modelled.
- Browser storage and JSON.
  - A stored value is `Absent`, `Unparseable` or `Parsed(v)`.
  - JSON values of the wrong kind are not modelled. Examples: a specific AI key holding a number, a stored operator that parses to a non-object, a stored user list that is not an array.
  - The banner tests the specific key with `!== null`, so an empty string counts as present and fails to parse there. The cart drawer does the same.
  - Writing the session and user list back to storage is not modelled.
- Timers and effects.
  - The 8-second rotation interval is a `Tick` event.
  - The one-second progress reset after an upload is not modelled.
  - The 100 ms delay before the background database lookup after a local login is not modelled. The lookup is the separate `Attendance.FindUserInDatabase`, and its result may land at any later point.
  - A failed local login also starts `Attendance.FindUserInDatabase` at once (src/hooks/useAttendance.ts:711). Its result lands after `login` has returned false, so it is not part of `Attendance.Login`; `Attendance.LookupThenRetry` states what it changes for a retry.
  - React's batching and re-render order are not modelled.
- Attendance.StampLastLogin: in the database-configured case the source stamps the local list only after the database update returns, and skips it when that update throws. The model always stamps, which is what the unconfigured case does.
- Attendance.CreateUserLocal: the id comes from the clock. Two users created in the same millisecond would share an id, and the model does not rule that out. `CreateThenDelete` assumes the id is unused.
- UpsellBanner: the message texts, icons, colours and the `Intl.NumberFormat` currency formatting are presentation. A suggestion records which message it shows and the values it interpolates.
- Floating point: money is exact `real`. Binary rounding of sums, products and the percentage discount is not modelled.
- `Text.Lower` and `Text.Upper` cover ASCII and Latin-1 plus the few other letters that map into that range. Mappings that change length, such as `ß` upper-casing to `SS`, are not modelled.
- PdvCart.UpdatePaymentInfo: a `Partial` patch whose key is present but set to `undefined` is not modelled. The patch either carries a value or leaves the field alone. The optional fields can still be cleared through `Some(None)`.
- PdvCart.UpdateSplitInfo: the same object spread as `UpdatePaymentInfo` (src/hooks/usePDV.ts:709-711). A patch key present with the value `undefined` is not modelled: it would set that field to `undefined`, and the model's patch can only carry a value or leave the field alone.
- Attendance.UpdateUserLocal: the merge `{ ...user, ...updates }` (src/hooks/useAttendance.ts:526) also copies keys present with the value `undefined`. An `id: undefined` key would even erase the id. `ApplyPatch` models only patches that carry a value or leave the field alone, so this case is not promised.
- ManualOrder.Submit: the empty `complements` array sent with each item (src/components/Orders/ManualOrderForm.tsx:209) is not part of `PayloadItem`.
- The browser File object, the FileReader and `Math.random().toString(36)` are not modelled. The file's name, size and type, the data URL (or a read failure) and the random suffix are parameters.
- The cart drawer's `loadSettings` (src/components/Delivery/Cart.tsx:85-142) is defined but never called, so it is not modelled.
- PDVMain.tsx, PDVLogin.tsx and the rest of the UI are rendering and navigation only. src/lib/supabase.ts only builds the client. The `usePermissions` hook is not part of this model, so the tab check it provides is a parameter of `AttendancePage`.
