# Liquor-store POS core in Dafny

This is a model of the state core of a point-of-sale system for a Kenyan liquor store or bar. It has three client-side stores:

- **The business store.** It holds the product catalogue with stock levels, the active orders (PENDING or DISPATCHED), the completed orders (PAID), a notification feed capped at 50 entries and an audit trail capped at 500.
- **The cart store.** Its lines carry a price, a quantity and a tax rate, together with the subtotal, tax and total recomputed from them.
- **The auth store.** It holds the staff roster and the user signed in by PIN.

The model also covers the phone-number normalisation of the M-Pesa STK push route.

Layout:

- `wrappers.dfy`, `keyed.dfy`, `text.dfy`, `clock.dfy`: `Option`; `find`, `filter` and `map` by id over a list of records; decimal rendering of integers; the clock reading passed into each store action.
- `phone.dfy`: `FormatPhone` (the route's three rewrites) is proved equal to the reference `Normalised`.
- `auth.dfy`: `class AuthStore` and the roster functions its methods apply.
- `cart.dfy`: `class CartStore`. Each mutation keeps the invariant that the stored totals are those of the lines. There are also lemmas on line merging, uniqueness and how each mutation moves the totals.
- `orders.dfy`: the ledger (catalogue, active and completed orders) as a value, and the five order transitions as functions.
- `reconciliation.dfy`: the exactly-once stock invariant. A product's stock plus the quantity held by dispatched and paid orders stays constant under every transition and over any legal sequence of them.
- `journal.dfy`: the capped, newest-first notification feed and audit trail.
- `reports.dfy`: sales per waiter name and one waiter's settled and unsettled takings.
- `business.dfy`: `class Store`, whose methods use loops over the order lines. Each one is proved to change the ledger exactly as the matching `Orders` transition does, and the feed and trail as the `Journal` functions say.
- `scenarios.dfy`: worked runs on the starting catalogue.

The source takes clock readings, `Date.now()` for ids and `toISOString()` for timestamps, and persists its stores. Both are outside the model. Every store action receives one `Clock.Instant(millis, iso)` and uses it for every id and timestamp it creates. Prices and quantities are integers. Tax rates are reals (0.16 for 16%). Order totals and cart totals are reals because they include the tax.

## Model

| member | source | states |
|---|---|---|
| Keyed.Find | src/store/businessStore.ts:192 | the index found is the first record with the key; none exactly when no record has it |
| Keyed.Remove | src/store/businessStore.ts:223 | no record left has the key, the length drops by the number that had it, and nothing changes when none had it |
| Keyed.RemoveMembers | src/store/businessStore.ts:223 | every record left was in the input, and every record without the key is left |
| Keyed.Update | src/store/businessStore.ts:200 | records with the key are mapped, the others unchanged, length kept |
| Keyed.RemoveIdempotent | src/store/businessStore.ts:273 | filtering an id out twice is filtering it out once |
| Keyed.RemoveAppend | src/store/authStore.ts:43 | filtering distributes over concatenation |
| Text.NatText | src/store/businessStore.ts:106 | the text of a whole number is all digits and starts with 0 only for zero |
| Text.NatTextValue | src/store/businessStore.ts:106 | the digits written denote exactly the number given |
| Text.IntText | src/store/businessStore.ts:174 | the decimal text of a number has a leading '-' exactly when it is negative |
| Text.IntTextValue | src/store/businessStore.ts:174 | after the sign, the digits denote the number's magnitude |
| Phone.DigitsOf | src/app/api/mpesa/stk/route.ts:32 | the result is all digits, no longer than the input, and unchanged on a digit string |
| Phone.DigitsOfChar | src/app/api/mpesa/stk/route.ts:32 | one character is kept exactly when it is a digit |
| Phone.DigitsOfAppend | src/app/api/mpesa/stk/route.ts:32 | stripping works piecewise, so every digit is kept and in order |
| Phone.Normalised | src/app/api/mpesa/stk/route.ts:32-35 | the number sent is all digits and starts with 254 |
| Phone.FormatPhone | src/app/api/mpesa/stk/route.ts:32-35 | the three successive rewrites yield exactly the normalised number |
| Phone.LeadingZero | src/app/api/mpesa/stk/route.ts:33 | a local 0… number becomes 254 followed by the number without its 0 |
| Phone.AlreadyInternational | src/app/api/mpesa/stk/route.ts:35 | a 254… number is kept as it is |
| Phone.PrefixedOtherwise | src/app/api/mpesa/stk/route.ts:35 | any other digit string gets 254 in front |
| Phone.NormalisedIdempotent | src/app/api/mpesa/stk/route.ts:32-35 | normalising a normalised number changes nothing |
| Phone.PlusBranchUnreachable | src/app/api/mpesa/stk/route.ts:34 | after the non-digits are stripped, the `+` rewrite can never fire |
| Auth.UserWithPin | src/store/authStore.ts:34 | a user is found exactly when some user has the PIN, and it is the first such user |
| Auth.WithoutUser | src/store/authStore.ts:43 | the roster keeps exactly the users with another id |
| Auth.WithPin | src/store/authStore.ts:44-46 | only the PIN of the users with that id changes; ids, names and roles stay |
| Auth.AuthStore.constructor | src/store/authStore.ts:26-32 | nobody signed in; the four default users |
| Auth.AuthStore.Login | src/store/authStore.ts:33-40 | true exactly when some user has the PIN; the first such user is then signed in, otherwise nothing changes |
| Auth.AuthStore.Logout | src/store/authStore.ts:41 | nobody is signed in |
| Auth.AuthStore.AddUser | src/store/authStore.ts:42 | the user is appended to the roster |
| Auth.AuthStore.RemoveUser | src/store/authStore.ts:43 | every user with the id is dropped |
| Auth.AuthStore.UpdateUserPin | src/store/authStore.ts:44-46 | users with the id get the new PIN |
| Auth.WithoutUserAppend | src/store/authStore.ts:43 | removal keeps the others in their order |
| Auth.WithoutAbsentUser | src/store/authStore.ts:43 | removing an id nobody has changes nothing |
| Auth.LoginAfterPinChange | src/store/authStore.ts:33-46 | after a PIN change on an existing id, the new PIN signs somebody in |
| Auth.LoginAfterAddUser | src/store/authStore.ts:33-42 | an added user with an unused PIN is exactly the one that PIN signs in |
| Auth.LoginAfterRemoveUser | src/store/authStore.ts:33-43 | once the only holder of a PIN is removed, the PIN signs nobody in |
| Cart.NewLine | src/store/cartStore.ts:38 | the appended line carries the product's id, name, category, price and tax with quantity 1 |
| Cart.Subtotal | src/store/cartStore.ts:41 | the sum of price × quantity over the lines (its properties are the lemmas below) |
| Cart.TaxTotal | src/store/cartStore.ts:42 | the sum of price × tax × quantity over the lines (its properties are the lemmas below) |
| Cart.AddLine | src/store/cartStore.ts:30-39 | a new product is appended with quantity 1; an existing one has its quantity raised by one, the other lines unchanged |
| Cart.WithoutLine | src/store/cartStore.ts:53 | exactly the lines with another id remain |
| Cart.Adjusted | src/store/cartStore.ts:59-66 | matching lines get max(1, quantity + delta), the others unchanged |
| Cart.CartStore.constructor | src/store/cartStore.ts:25-28 | empty cart with zero totals |
| Cart.CartStore.SetItems | src/store/cartStore.ts:41-48 | the stored subtotal, tax and total are those of the new lines |
| Cart.CartStore.AddItem | src/store/cartStore.ts:30-50 | lines become AddLine of the old lines and the totals match them |
| Cart.CartStore.RemoveItem | src/store/cartStore.ts:52-57 | lines become WithoutLine of the old lines and the totals match them |
| Cart.CartStore.UpdateQuantity | src/store/cartStore.ts:59-70 | lines become Adjusted of the old lines and the totals match them |
| Cart.CartStore.ClearCart | src/store/cartStore.ts:72 | no lines and zero totals |
| Cart.AddToLastLine | src/store/cartStore.ts:31-36 | adding a product whose only line is last raises that line by one |
| Cart.AddTimesMerges | src/store/cartStore.ts:30-39 | n adds of a new product give one line for it, at the end, with quantity n |
| Cart.AddTimesOneLine | src/store/cartStore.ts:30-39 | after n >= 1 adds of a new product, exactly one line has its id |
| Cart.CountOneAtEnd | src/store/cartStore.ts:38 | a line appended with a fresh id is the only one with that id |
| Cart.AddLineKeepsUnique | src/store/cartStore.ts:30-39 | adding keeps line ids unique |
| Cart.AdjustedKeepsUnique | src/store/cartStore.ts:59-66 | adjusting keeps line ids unique |
| Cart.WithoutLineKeepsUnique | src/store/cartStore.ts:53 | removing keeps line ids unique |
| Cart.QuantitiesStayPositive | src/store/cartStore.ts:30-66 | no mutation brings a quantity below one |
| Cart.AddLineKeepsPositive | src/store/cartStore.ts:30-39 | adding keeps every quantity at one or more |
| Cart.AdjustedKeepsPositive | src/store/cartStore.ts:59-66 | the clamp to one keeps every quantity at one or more |
| Cart.WithoutLineKeepsPositive | src/store/cartStore.ts:53 | removing keeps every quantity at one or more |
| Cart.TotalsNonNegative | src/store/cartStore.ts:41-42 | lines with no negative price, quantity or tax rate give a subtotal and tax of zero or more |
| Cart.UnitMore | src/store/cartStore.ts:34-42 | one more unit on a line adds its price to its amount and price × tax to its tax |
| Cart.SubtotalAppend | src/store/cartStore.ts:41-42 | subtotal and tax add over concatenated lines |
| Cart.NewLineAmounts | src/store/cartStore.ts:38-42 | a new line contributes its price and price × tax |
| Cart.AppendTotals | src/store/cartStore.ts:41-42 | an appended line adds its amount and its tax |
| Cart.SubtotalReplace | src/store/cartStore.ts:41-42 | replacing a line swaps its amount and tax in the totals |
| Cart.BumpTotals | src/store/cartStore.ts:34-42 | one more of a line adds its price and price × tax |
| Cart.AddLineExisting | src/store/cartStore.ts:31-36 | with unique ids, adding an existing product bumps exactly its line |
| Cart.AddLineTotalsNew | src/store/cartStore.ts:38-48 | adding a new product raises subtotal by its price and tax by price × tax |
| Cart.AddLineTotalsExisting | src/store/cartStore.ts:34-48 | adding an existing product raises the totals by one unit of its line |
| Cart.WithoutLineAt | src/store/cartStore.ts:53 | with a unique id, removal cuts out exactly that line |
| Cart.GapTotals | src/store/cartStore.ts:54-55 | cutting out a line lowers the totals by its amount and tax |
| Cart.WithoutLineTotals | src/store/cartStore.ts:53-56 | removing a line lowers subtotal and tax by exactly that line's share |
| Orders.Restocked | src/store/businessStore.ts:167 | SALE subtracts and MANUAL adds the quantity on matching products, with no floor; others unchanged |
| Orders.Deducted | src/store/businessStore.ts:195-197 | each product's stock drops by the total quantity of it over the lines |
| Orders.Restored | src/store/businessStore.ts:268-270 | each product's stock rises by the total quantity of it over the lines |
| Orders.WithStatus | src/store/businessStore.ts:200 | every order with the id gets the status, the others unchanged |
| Orders.AfterCreate | src/store/businessStore.ts:187-189 | the order is appended to the active list; stock and completed list unchanged |
| Orders.AfterDispatch | src/store/businessStore.ts:191-201 | a PENDING target's lines come off the stock and it becomes DISPATCHED; otherwise no change |
| Orders.AfterComplete | src/store/businessStore.ts:212-225 | the target leaves the active list and joins the completed list as PAID; its stock is deducted only if it was PENDING; no target, no change |
| Orders.AfterVoid | src/store/businessStore.ts:264-275 | the id leaves the active list; quantities come back only for a DISPATCHED target |
| Orders.CounterOrder | src/store/businessStore.ts:242-250 | the counter order is PAID, under waiter COUNTER with the initiator's name, holding the lines and total given, stamped with the action's time |
| Orders.AfterSale | src/store/businessStore.ts:236-254 | the lines come off the stock and one PAID COUNTER order is appended to the completed list; active list unchanged |
| Orders.Patched | src/store/businessStore.ts:142 | each field the edit gives takes the new value, each field it leaves out keeps the old one, and an empty edit changes nothing |
| Orders.PatchedProducts | src/store/businessStore.ts:142 | every product with the id gets the edit, the others unchanged |
| Reconciliation.RemoveTarget | src/store/businessStore.ts:223 | with unique ids, filtering the id removes exactly the found order |
| Reconciliation.CreatePreserves | src/store/businessStore.ts:187-189 | creating a fresh PENDING order keeps the ledger well formed and stock plus held quantity constant |
| Reconciliation.DispatchPreserves | src/store/businessStore.ts:191-201 | dispatching keeps the ledger well formed and stock plus held quantity constant |
| Reconciliation.CompletePreserves | src/store/businessStore.ts:212-225 | settling, from PENDING or DISPATCHED, keeps stock plus held quantity constant |
| Reconciliation.VoidPreserves | src/store/businessStore.ts:264-275 | voiding keeps stock plus held quantity constant |
| Reconciliation.SalePreserves | src/store/businessStore.ts:236-254 | a counter sale keeps stock plus held quantity constant |
| Reconciliation.StepPreserves | src/store/businessStore.ts:187-275 | any legal order action keeps the ledger well formed and conserves stock |
| Reconciliation.ConservedTransitive | src/store/businessStore.ts:187-275 | conservation composes across actions |
| Reconciliation.ExactlyOnce | src/store/businessStore.ts:187-275 | over any legal sequence of order actions, each product's stock plus what orders hold of it never changes |
| Reconciliation.FromEmptyLedger | src/store/businessStore.ts:187-275 | from no orders, stock is the opening stock less exactly what dispatched and paid orders hold |
| Reconciliation.DispatchShape | src/store/businessStore.ts:191-201 | dispatching a PENDING target deducts its lines and marks it DISPATCHED, and the same order is still found for the id |
| Reconciliation.CompleteShape | src/store/businessStore.ts:212-225 | settling a target removes the id from the active list, appends the order as PAID and deducts its lines only if it was PENDING |
| Reconciliation.CompleteAbsorbsDispatch | src/store/businessStore.ts:191-225 | dispatch then settle is the same as settling at once, so stock is deducted once |
| Reconciliation.DispatchIdempotent | src/store/businessStore.ts:191-193 | a second dispatch is a no-op |
| Reconciliation.DeductedThenRestored | src/store/businessStore.ts:195-270 | lines deducted and restored leave the catalogue as it was |
| Reconciliation.DispatchThenVoidNetsZero | src/store/businessStore.ts:191-275 | a void right after dispatch returns every stock to its value before the dispatch |
| Reconciliation.VoidAfterCompleteIsNoOp | src/store/businessStore.ts:212-275 | voiding a settled order changes nothing |
| Journal.Pushed | src/store/businessStore.ts:104-109 | the new entry is first, the old log follows, and the length is capped |
| Journal.NewNotification | src/store/businessStore.ts:103-110 | a new notification keeps the caller's title, message and kind, has id NT-<millis>, is unread and is stamped with the action's time |
| Journal.NewAudit | src/store/businessStore.ts:116-122 | a new audit entry keeps the caller's user id, user name, action and details, has id AU-<millis> and is stamped with the action's time |
| Journal.AllRead | src/store/businessStore.ts:113 | every entry is kept and marked read |
| Journal.PushedWithinCap | src/store/businessStore.ts:109 | a log within its cap stays within it; below the cap nothing is dropped |
| Journal.PushedTwice | src/store/businessStore.ts:104-109 | two pushes come out newest first, then the old log |
| Journal.AllReadIdempotent | src/store/businessStore.ts:113 | marking read twice is marking read once |
| Reports.Credit | src/store/businessStore.ts:281 | the order's waiter name gains its total (from zero when absent); every other name keeps its value |
| Reports.SalesByWaiter | src/store/businessStore.ts:277-284 | one entry exactly per waiter name that occurs, holding that name's total |
| Reports.CreditStep | src/store/businessStore.ts:280-282 | crediting one more order to a per-name tally of a list gives the tally of the list with that order appended |
| Reports.NameTotalSnoc | src/store/businessStore.ts:281 | an appended order adds its total to its own waiter name's sum and to no other |
| Reports.MapTotalRemove | src/store/businessStore.ts:279-283 | a map's value sum can start from any key |
| Reports.SalesByWaiterSumsToRevenue | src/store/businessStore.ts:277-284 | the per-waiter values sum to the total of all completed orders |
| Reports.WaiterTotal | src/store/businessStore.ts:287-291 | a waiter with no orders in the list sums to zero, and non-negative totals give a non-negative sum |
| Reports.WaiterStats | src/store/businessStore.ts:286-298 | settled and unsettled are the waiter's completed and active sums; total is their sum |
| Reports.WaiterTotalAppend | src/store/businessStore.ts:287-291 | a waiter's sum adds over concatenated order lists |
| Reports.WaiterTotalAgree | src/store/businessStore.ts:287-291 | order lists that agree on waiters and totals give the same sums |
| Reports.WaiterTotalDrop | src/store/businessStore.ts:287-291 | dropping an order lowers its waiter's sum by its total |
| Reports.CreateRaisesUnsettled | src/store/businessStore.ts:187-189 | a new order raises its waiter's unsettled takings by its total |
| Reports.DispatchKeepsStats | src/store/businessStore.ts:199-201 | dispatch moves no waiter's figures |
| Reports.CompleteMovesToSettled | src/store/businessStore.ts:222-225 | settling moves the total from unsettled to settled; the combined total stays |
| Reports.VoidDropsUnsettled | src/store/businessStore.ts:272-274 | voiding lowers the waiter's unsettled takings by the order's total |
| Reports.SaleSettledAtCounter | src/store/businessStore.ts:242-254 | a counter sale adds to the COUNTER settled takings and no one else's |
| Business.DefaultProducts | src/store/businessStore.ts:88-95 | six starting products with distinct ids |
| Business.NameOf | src/store/businessStore.ts:171-174 | the first matching product's name, or "undefined" when there is none |
| Business.NameOfAgree | src/store/businessStore.ts:171 | stock updates do not change the name a message shows |
| Business.ManualNote | src/store/businessStore.ts:172-176 | the MANUAL notification is an unread STOCK_ADD "Stock Updated" whose message names the product and the quantity |
| Business.ManualAudit | src/store/businessStore.ts:177-182 | the MANUAL audit is a MANUAL_STOCK_UPDATE by ADMIN on behalf of the initiator, whose details name the product and the quantity |
| Business.RestockNotes | src/store/businessStore.ts:268-270 | one note per line, the last line's note first, length capped |
| Business.RestockAudits | src/store/businessStore.ts:268-270 | one audit per line, the last line's entry first, length capped |
| Business.TargetOrder | src/store/businessStore.ts:192 | an order is found exactly when some active order has the id, and it is the first order with that id |
| Business.DispatchAudit | src/store/businessStore.ts:203-208 | the dispatch is audited as DISPATCH_ORDER by COUNTER in the initiator's name, with the dispatched order's id in its details, stamped with the action's time |
| Business.DeletedLabel | src/store/businessStore.ts:153-161 | the label is the first matching product's name when it is not empty, and the id when there is no match or the name is empty |
| Business.Store.constructor | src/store/businessStore.ts:84-99 | the starting settings, catalogue and empty lists |
| Business.Store.UpdateSettings | src/store/businessStore.ts:101 | each setting given replaces the current one |
| Business.Store.AddNotification | src/store/businessStore.ts:103-110 | the feed becomes the new unread entry pushed onto it, capped at 50 |
| Business.Store.MarkNotificationsRead | src/store/businessStore.ts:112-114 | every entry is marked read |
| Business.Store.AddAudit | src/store/businessStore.ts:116-122 | the trail becomes the new entry pushed onto it, capped at 500 |
| Business.Store.AddProduct | src/store/businessStore.ts:125-138 | the product is appended, announced and audited |
| Business.Store.UpdateProduct | src/store/businessStore.ts:140-150 | matching products get the edit; the edit is audited |
| Business.Store.DeleteProduct | src/store/businessStore.ts:152-163 | matching products go; the audit names the product as it was |
| Business.Store.UpdateStock | src/store/businessStore.ts:165-184 | stock updated as Restocked; a MANUAL update also posts its note and audit, a SALE posts nothing |
| Business.Store.DeductLines | src/store/businessStore.ts:195-197 | the loop leaves the catalogue as Deducted, feed and trail untouched |
| Business.Store.RestoreLines | src/store/businessStore.ts:268-270 | the loop leaves the catalogue as Restored, with one note and audit per line |
| Business.Store.CreateOrder | src/store/businessStore.ts:187-189 | the ledger becomes AfterCreate of the old ledger |
| Business.Store.DispatchOrder | src/store/businessStore.ts:191-210 | the ledger becomes AfterDispatch of the old ledger; audited only when the target was PENDING |
| Business.Store.CompleteOrder | src/store/businessStore.ts:212-234 | the ledger becomes AfterComplete of the old ledger; audited with the order's total when there was a target |
| Business.Store.RecordSale | src/store/businessStore.ts:236-262 | the ledger becomes AfterSale of the old ledger; the sale is audited |
| Business.Store.VoidOrder | src/store/businessStore.ts:264-275 | the ledger becomes AfterVoid of the old ledger; a DISPATCHED target posts one note and audit per line |
| Business.Store.GetSalesByWaiter | src/store/businessStore.ts:277-284 | the loop's map is SalesByWaiter of the completed orders, and its values sum to their revenue |
| Business.Store.GetWaiterStats | src/store/businessStore.ts:286-298 | settled and unsettled are the waiter's sums; total is settled plus unsettled |
| Scenarios.LinesTotals | src/store/cartStore.ts:41-48 | 2 × 230 + 1 × 1450 gives subtotal 1910 and tax 305.6 |
| Scenarios.LinesDeducted | src/store/businessStore.ts:195-197 | two Tusker and one Gilbeys come off the opening stock of 450 and 112; the first product is untouched |
| Scenarios.AminaDispatches | src/store/businessStore.ts:191-201 | dispatch leaves 448 Tusker and 111 Gilbeys and one DISPATCHED order, with nothing completed |
| Scenarios.AminaSettles | src/store/businessStore.ts:212-234 | settling the dispatched order leaves stock alone, empties the active list, records it once as PAID and credits its total to the waiter as settled |
| Scenarios.AminaVoids | src/store/businessStore.ts:191-275 | create, dispatch and void return the ledger to its opening state |
| Scenarios.CounterSaleOnce | src/store/businessStore.ts:236-262 | a counter sale never enters the active list, is recorded once as PAID and takes its quantity off once |

## Left out

- `persist` storage, React rendering and the Firebase sync. These are I/O around the stores, not state logic.
- Clock readings. `Date.now()` and `new Date().toISOString()` are read once per store action and passed in as `Clock.Instant`. In the source, each call reads the clock anew. A void of several lines can therefore stamp its notes with different times, where the model gives them all one.
- Generated ids are not unique. `NT-`, `AU-` and `INV-` ids come from the millisecond clock, and nothing in the source makes them unique. `Reconciliation.WellFormed` assumes the active order ids are unique, and `Reconciliation.Legal` assumes a created order is PENDING with a fresh id. Both describe what the checkout screen supplies; the store itself checks neither.
- JavaScript `number`. Prices and quantities are integers, tax rates and totals are reals, and there is no floating-point rounding. The `Number(o.total) || 0` guard against NaN in the reports has no counterpart, since a real total is never NaN.
- Cart.TaxTotal: the model's cart and order totals are what the store computes when each line carries a tax rate. The POS screen never supplies one. Its only `addItem` call (src/app/pos/page.tsx:213) passes a catalogue `Product`, which has no `tax` field. So in the running program `i.price * i.tax * i.quantity` is NaN on every line, `taxTotal` and `total` are NaN after every `addItem`, every order total taken from the cart is NaN, and the reports count such orders as 0. A missing tax rate cannot be expressed in the model.
- Rendered audit text that the model keeps as values. The audit `details` of `updateProduct`, `completeOrder` and `recordSale` render a `JSON.stringify` dump or a JavaScript number. The model keeps these as the values they are rendered from (`Journal.Detail`). Text made only of strings and integers is modelled exactly.
- Reports.SalesByWaiter: the source accumulates into a plain `{}` object, so it inherits keys from `Object.prototype`. For a waiter named like an inherited member, such as `constructor` or `toString`, `sales[name] || 0` yields that inherited function, and adding `o.total` to it gives a string, not a sum. For `__proto__` the assignment is ignored and that waiter's takings vanish from the result. Staff names are free text. The model's map has no inherited keys and always holds the plain sum, so `Reports.SalesByWaiterSumsToRevenue` does not hold of the source for such names.
- Business.Store.GetSalesByWaiter: it returns `Reports.SalesByWaiter`, so it has the same gap for waiter names that `Object.prototype` already defines.
- `CartItem.image`. This optional display field plays no part in any operation.
- Business.Store.GetWaiterStats is a function on the current state, not a method. `getWaiterStats` is a pure filter/reduce with no loop.
- The rest of the M-Pesa route is not part of this model: token fetch, password, timestamp, amount rounding and the HTTP exchange.
- The model follows the store code as written:
  - Disallowed transitions are silently ignored, not rejected.
  - Stock may go negative.
  - A PENDING order can be voided; its stock is untouched.
  - Waiter statistics are keyed by waiter id.
  - The sales breakdown is keyed by waiter name.
