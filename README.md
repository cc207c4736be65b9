# Shop core, modelled in Dafny

This project models the business logic of a small Django storefront: the catalog's derived
product values, carts and their totals, customer accounts, the order status machine with its
stock bookkeeping and notifications, the admin site's order actions and display helpers, the
import form's file check, the registration form's `save`, and the cart that every page is
rendered with.

Files, one module each:

- `base.dfy` (`Base`): `Option`, `Result`, and repeated sequences.
- `text.dfy` (`Text`): decimal rendering and parsing, suffix test, and splitting on a separator.
- `stock.dfy` (`Stock`): a value-level account of stock bookkeeping. An order's items are a
  sequence of `Line(product, qty)`. `Take` and `Give` walk the lines one after the other.
  `Fits` says every check passed. `FirstShort` is the line at which a confirmation stops.
  `Flatten` lays several orders' lines end to end.
- `catalog.dfy` (`Catalog`): `Product`, a class whose only mutable field is the stock
  `quantity`. It also holds `available`, `has_discount`, `discount_percent` and `clean`.
- `carts.dfy` (`Carts`): `CartItem.total_price`, `CartItem.clean`, and the cart totals.
- `customers.dfy` (`Customers`): the account record, `get_full_name`, `create_user` and
  `create_superuser`.
- `orders.dfy` (`Orders`): the following parts.
  - `OrderItem` with its one-time price capture.
  - `Order`, a class with the fields `update_status` and `save` change.
  - `Order.UpdateStatus`, which loops over the items and changes the products' stock in place.
  - `Order.Save`.
  - The notification channel (`Notifier`), whose `sent` log records the notice kinds.
- `admin.dfy` (`Admin`): the following parts.
  - `status_display`, `action_buttons` and `discount_percent_display`.
  - The bulk actions `confirm_orders` and `cancel_orders`, as loops over the selected orders.
  - The single-order actions `confirm_order` and `cancel_order`.
- `forms.dfy` (`Forms`): `clean_file` and `CustomerRegistrationForm.save`.
- `context.dfy` (`CartContext`): `cart_context`.

Conventions:

- Money is in integer cents, because the decimal columns have two places.
- Python truthiness is written out: a zero `old_price` or an empty string is false.
- `int()` of a quotient is truncation toward zero (`TruncDiv`).
- The database is in-memory sequences and objects.
- A raised exception is the `Failure` or `Some` branch of a result.

Where the code departs from the behaviour it evidently intends, the model follows the code:

- A confirmation that meets an item short of stock raises. The items before it are already
  decremented and saved, and their notices sent. A validation step evidently means all-or-nothing.
  See `Stock.PartialTakeOnShortage` and the `err.Some?` case of `Orders.StatusUpdated`.
- Cancelling a `new` order still gives every item's units back, although confirming never took
  them, so the evident intent is to leave the stock alone. `cancel_orders` only ever cancels `new`
  orders, so every bulk cancel adds stock.
- One "confirmed" notice is sent per item, not one per order.

## Model

| member | source | states |
|---|---|---|
| Catalog.TruncDiv | shop/models.py:219 | the quotient is truncated toward zero: its magnitude is the floor of the exact magnitude, and its sign is the sign of the exact quotient |
| Catalog.Product.DiscountPercent | shop/models.py:216-220 | 0 without a discount. With a discount, it is `100*(old-price)/old` truncated toward zero, whatever the signs. With a positive old price it is bracketed by the exact ratio. With a negative old price it is at most 0. For a non-negative price it lies in 0..100, and it is 100 exactly when the price is 0 |
| Catalog.DiscountBounds | shop/models.py:216-220 | the truncated percentage of a discount is bracketed by the exact ratio and lies in 0..100 for a non-negative price |
| Catalog.Product.Available | shop/models.py:205-208 | available exactly when active with at least one unit in stock (see also Carts.AvailableIffOneUnitFits) |
| Catalog.Product.HasDiscount | shop/models.py:210-213 | a null or zero old price is never a discount. Any other old price, negative ones included, is a discount exactly when it exceeds the price. Any discount has an old price above the price |
| Catalog.Product.Clean | shop/models.py:222-227 | passes exactly when quantity and price are non-negative; a negative quantity is reported first |
| Catalog.CleanDiscountInRange | shop/models.py:211-227 | a product that passes `clean` has a discount percentage between 0 and 100 |
| Carts.CartItem.TotalPrice | shop/models.py:529-532 | no units cost nothing, one unit costs the live price, and a non-negative price and quantity give a non-negative total |
| Carts.TotalAmount | shop/models.py:487-489 | an empty cart totals 0, a one-item cart totals that item's price, and non-negative item prices give a non-negative total |
| Carts.TotalQuantity | shop/models.py:492-494 | an empty cart holds 0 units, a one-item cart holds that item's quantity, and with non-negative quantities every item's units are at most the total |
| Carts.CartItem.Clean | shop/models.py:534-540 | refuses exactly when more units are asked than the product has, naming the product and its stock |
| Carts.TotalsAppend | shop/models.py:487-495 | both cart totals add up over a cart split in two |
| Carts.TotalsBounds | shop/models.py:487-495 | with non-negative prices and at least one unit per item, the amount is non-negative and the units are at least the number of items |
| Carts.AvailableIffOneUnitFits | shop/models.py:205-208 | an active product is `available` exactly when one unit of it passes `CartItem.clean` |
| Customers.Customer.FullName | shop/models.py:92-96 | the last name, a space, the first name, then a space and the patronymic only when it is not blank; the length adds up to exactly those parts |
| Customers.FullNameSplits | shop/models.py:92-96 | the full name is last, first and patronymic (only when not blank), separated by single spaces: splitting it gives the parts back |
| Customers.NewUser | shop/models.py:12-28 | blank email fails first and blank phone second (both directions). On success the account has the normalised email and the given fields, and each flag is its default unless set |
| Customers.NewSuperuser | shop/models.py:30-40 | refuses `is_staff=False`, then `is_superuser=False` (both directions). Otherwise it is `create_user` with the flags defaulted to true, and success yields a staff superuser |
| Customers.CustomerManager.CreateUser | shop/models.py:12-28 | returns `NewUser`'s result and saves the account only on success |
| Customers.CustomerManager.CreateSuperuser | shop/models.py:30-40 | returns `NewSuperuser`'s result and saves the account only on success |
| Orders.OrderItem.TotalPrice | shop/models.py:443-446 | no units cost nothing, one unit costs the captured price, and a non-negative price and quantity give a non-negative total |
| Orders.ItemsTotal | shop/models.py:400-409 | the total `save` recomputes: 0 for no items, the captured price times the quantity for one item, and with non-negative captured prices and quantities, at least every single item's total |
| Orders.ItemsTotalAppend | shop/models.py:400-409 | the recomputed order total adds up over the items split in two, so it is the sum of every item's total |
| Orders.Notifier.Send | shop/models.py:374-398 | a notice handed over for delivery is appended to the log, after every earlier one |
| Orders.OrderItem.Save | shop/models.py:448-452 | the first save captures the product's price; a saved item is left as it is |
| Orders.SaveIdempotent | shop/models.py:448-452 | saving twice is saving once: the price is captured only once |
| Orders.CapturedTotalMatchesCart | shop/models.py:443-446 | items that captured their products' prices total what a cart of the same products and units totals at live prices |
| Orders.Order.Save | shop/models.py:400-409 | an order saved before gets its total recomputed from its items, a blank contact phone takes the customer's phone, and nothing else changes |
| Orders.ConfirmItems | shop/models.py:327-338 | the item loop stops at the first item asking more than its product has left. Each earlier item's units are taken with one notice per item, and only the items' own products change |
| Orders.CancelItems | shop/models.py:341-343 | every item's units go back to its product, and only the items' own products change |
| Orders.ConfirmItem | shop/models.py:328-338 | one item: if it asks more than its product has left, the shortage names the product, its stock and the units asked, and nothing changes; otherwise its units are taken and one notice is sent |
| Orders.WalkedStock | shop/models.py:327-343 | after the walk, the products hold the stock the line-by-line walk computes |
| Orders.Order.TakeItems | shop/models.py:327-338 | on a shortage at line k: the error names that line and its stock, the earlier lines are taken, and k notices are sent. Otherwise all lines are taken, no product is negative, and one notice per item is sent |
| Orders.Order.GiveItems | shop/models.py:341-343 | the order's products hold the old stock with every line given back |
| Orders.Order.Commit | shop/models.py:349-351 | the order takes the new status and comment and is saved |
| Orders.Order.ConfirmAndSave | shop/models.py:325-351 | the confirm branch of `update_status` satisfies `StatusUpdated` |
| Orders.Order.CancelAndSave | shop/models.py:340-351 | the cancel branch of `update_status` satisfies `StatusUpdated` |
| Orders.Order.UpdateStatus | shop/models.py:317-355 | `StatusUpdated`, case by case. The same status changes nothing. A confirmation either stops at the first short line (order unchanged, earlier lines taken) or takes every line and commits. A cancellation gives every line back, sends one notice and commits. Any other move only commits, and no "new order" notice is ever sent |
| Stock.FirstShort | shop/models.py:327-335 | None exactly when every line fits. Otherwise it is the first line that does not fit what the lines before it left |
| Stock.FirstShortAt | shop/models.py:327-335 | a short line after lines that all fit is where the walk stops |
| Stock.FitsStep | shop/models.py:328-334 | the check at a line compares its units with the product's stock less what earlier lines asked for |
| Stock.TakeAt | shop/models.py:334 | taking lowers each product by the total units its lines ask for |
| Stock.GiveAt | shop/models.py:342 | giving back raises each product by the total units its lines ask for |
| Stock.GiveUndoesTake | shop/models.py:327-343 | giving back the lines a confirmation took restores the stock |
| Stock.FitsDistinct | shop/models.py:327-335 | when no product appears on two items, the walk passes exactly when every item fits the stock as it was before the confirmation |
| Stock.FitsLeavesNoNegative | shop/models.py:328-334 | lines that all fit leave no product negative |
| Stock.PartialTakeOnShortage | shop/models.py:327-335 | a shortage at the second line leaves the first line's units taken |
| Stock.FirstShortAppend | shop/admin.py:164-167 | when a first part fits and a second part, walked on what the first leaves, stops at its line k, the whole walk stops at the first part's length plus k |
| Stock.FirstShortExtend | shop/admin.py:164-167 | a walk that stops inside its first part stops at the same line when more lines follow |
| Stock.RunsStop | shop/models.py:327-335 | a stop inside one order's run is the first short line of all the runs laid end to end |
| Admin.StatusColor | shop/admin.py:134-145 | new is orange, confirmed green and cancelled red, each in both directions; any other status is gray |
| Admin.StatusLabel | shop/admin.py:134-145 | `new`, `confirmed` and `cancelled` get their own emoji captions, and the label is the stored value itself exactly when the status is none of the three choices |
| Admin.StatusDisplay | shop/admin.py:134-145 | the badge takes the status's colour and caption, and is gray exactly when its caption is the raw stored status |
| Admin.StatusDisplayInjective | shop/admin.py:134-145 | two different statuses never render alike |
| Admin.ActionButtons | shop/admin.py:149-159 | buttons exactly for a new order, and their links lead back to that order's confirm and cancel routes |
| Admin.DiscountLabel | shop/admin.py:77-80 | a discounted product shows its percentage followed by "%", written as `str` writes an int (no leading zero, no "-0"), so the label reads back as the percentage; any other product shows a dash |
| Admin.BulkMessage | shop/admin.py:163-176 | the message is the number of selected orders, whatever was changed, then the word "заказов", then the action's verb |
| Admin.BulkLinesOfNewOrders | shop/admin.py:164-167 | a line is walked by a bulk action exactly when it belongs to a selected order that was new; orders in any other state add none |
| Admin.BulkConfirmNoticeKinds | shop/admin.py:164-167 | a full bulk confirm sends as many notices as it walks lines, and a notice is sent exactly when it confirms a selected order that was new and has items |
| Admin.CountNewAppend | shop/admin.py:172-173 | the number of new orders among those selected adds up over the selection split in two |
| Admin.BulkCancelNotices | shop/admin.py:172-175 | a bulk cancel sends exactly as many notices as there were new orders among those selected, and a notice is sent exactly when it cancels one of them |
| Admin.ConfirmNew | shop/admin.py:165-167 | confirming a new order moves the stock of every product in scope as the order's lines walk it, or stops at the first short line |
| Admin.ConfirmOne | shop/admin.py:165-167 | one pass of the bulk confirm loop: a new order is confirmed or raises; any other order is untouched |
| Admin.ConfirmStep | shop/admin.py:164-167 | the bulk confirm state moves past order i, or records where order i stopped |
| Admin.ConfirmLoop | shop/admin.py:164-167 | the loop ends after the last order or at the first order that raises |
| Admin.ConfirmOrders | shop/admin.py:164-168 | each new order before the stop is confirmed and others keep their state. The stock is the old stock less their lines, their notices went out, and a success reports the selected count. A raise leaves the raising order and all later orders unchanged |
| Admin.BulkConfirmStop | shop/admin.py:164-167 | where bulk confirm stops is the first short line of all new orders' lines end to end, and the stock left there is that walk's |
| Admin.BulkConfirmNotices | shop/admin.py:164-167 | the notices sent before the stop are the end-to-end notices up to that line |
| Admin.CancelNew | shop/admin.py:174-175 | cancelling a new order gives its lines back to the stock in scope, commits it, and sends one notice |
| Admin.CancelOne | shop/admin.py:173-175 | one pass of the bulk cancel loop: only a new order is cancelled |
| Admin.CancelStep | shop/admin.py:172-175 | the bulk cancel state moves past order i |
| Admin.CancelLoop | shop/admin.py:172-175 | every selected order is handled; nothing raises |
| Admin.CancelOrders | shop/admin.py:172-176 | every new order is cancelled and the others keep their state. The stock is the old stock plus all new orders' lines, one notice goes out per new order, and the message reports the selected count |
| Admin.FindOrder | shop/admin.py:192 | the position of the first order with the id; none exactly when no order has it |
| Admin.OrderMessage | shop/admin.py:190-204 | the message is the word "Заказ", then '#' and the digits that read back as the order's id, then the action's verb |
| Admin.ActionMessagesDiffer | shop/admin.py:163-204 | a confirmation's message never equals a cancellation's, for single orders and bulk actions alike, whatever the ids and counts |
| Admin.ConfirmOrder | shop/admin.py:190-196 | a missing id fails and changes nothing. A new order is updated to confirmed, its error propagates, and otherwise the message names the order. Any other order is left alone with no message |
| Admin.CancelOrder | shop/admin.py:198-204 | a missing id fails and changes nothing. A new order is cancelled and the message names it. Any other order is left alone with no message |
| Forms.CleanFile | shop/forms.py:45-49 | accepted exactly when the name ends in ".xlsx" or ".xls". It is returned unchanged, or the fixed message is raised |
| Forms.CleanFileLastChars | shop/forms.py:47 | acceptance depends only on the last four or five characters |
| Forms.CleanFileCaseSensitive | shop/forms.py:47 | "X.XLSX" is refused |
| Forms.CleanFileBareSuffix | shop/forms.py:47 | a name that is just ".xls" is accepted |
| Forms.CleanFileIdempotent | shop/forms.py:45-49 | cleaning a cleaned file changes nothing |
| Forms.FormUser | shop/forms.py:19-24 | the account built from the form carries its email, phone and names, with the model's defaults: no patronymic, not staff, not superuser, active, no username |
| Forms.RegistrationSave | shop/forms.py:19-24 | the returned account has the email as username; it is stored only when `commit` is set, and the stored row has no username, since username is not a column |
| CartContext.FirstWhere | shop/context_processors.py:9 | the first position a filter selects; none exactly when it selects nothing |
| CartContext.ResolveCart | shop/context_processors.py:4-13 | a signed-in customer gets their own cart or none. An anonymous visitor without a session key gets none. With a key, they get an anonymous cart of that session or none, never a customer's cart |
| CartContext.Context | shop/context_processors.py:15-17 | the context has exactly the key "cart" |
| CartContext.ResolvedHasLeastId | shop/context_processors.py:8-13 | with carts in id order, the cart picked has the least id among the candidates |

## Left out

- Telegram delivery: the HTTP call, the bot settings and message formatting. A notice is a
  record appended to the ghost `Notifier.sent` log; delivery failures are never fatal in the
  source anyway.
- Persistence: querysets, `save()` to the database, `using=`, and primary keys.
  - The tables are in-memory sequences and objects.
  - "Has a primary key" is the `saved` flag.
  - `.first()` of an unordered queryset is the first element of a sequence in id order.
- Transactions and concurrency: the source uses none; each action is modelled as one
  sequential run.
- Password hashing (`set_password` and the password fields of `UserCreationForm`) and
  `normalize_email`. These are library calls. `normalize_email` is a function parameter.
- Views, URL routing, templates, the admin's list and fieldset configuration, `format_html`
  markup and `get_urls`. The status badge and action buttons are the values they render.
- The Excel import pipeline: `ProductImport` is not part of this model.
- Orders.OrderItem: modelled as a value, not an object updated in place. Its only update is
  the price captured at its first save, which `Save` returns as a new value. Aliasing of item
  rows between orders is not captured.
- Orders.Order.UpdateStatus: the common tail (set status and comment, then save) is repeated
  in each branch. The unreachable "new order" notification is an `assert false` branch.
- Admin.ConfirmOrders: requires the selected orders to be distinct objects, as the rows of a
  queryset are. The products they refer to are passed as a ghost set `ps`.
- Admin.CancelOrders: requires the same of the selected orders as `Admin.ConfirmOrders`.
- Admin.ConfirmOrder: `Order.objects.get` raising `DoesNotExist` is the `NotFound` result. The
  redirect is not modelled.
- Admin.CancelOrder: the same as `Admin.ConfirmOrder`.
- Customers.NewUser: of `**extra_fields` only the three account flags are modelled. Other keyword
  fields that `create_user` passes on to the model (the patronymic, say) are not, so the account
  it builds always has a blank patronymic.
- Catalog.Product.DiscountPercent: computes the exact truncated ratio. Python computes it in
  `Decimal`; for amounts with two decimal places the two agree.
