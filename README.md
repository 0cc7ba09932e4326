# MM-Tacos till and storefront, modelled in Dafny

MM-Tacos is a restaurant web application. It has two sides:

- the **till** (`AdminPOS`), where staff build a ticket from a static product catalog, take a
  payment on a numpad and record the order under a 3-digit daily number;
- the **storefront**, where customers fill a cart with tacos (with supplements), family menus and
  company menus, choose delivery or collection, and send their orders.

The back office also holds:

- a **cash session** (open, then close with a sales report aggregated per article);
- the list of **client orders**, with their status workflow;
- the **order history** with its search box.

Each core source file is one Dafny module, and the shared pieces have their own modules.

- `Wrappers`: `Option`.
- `Text`: the string operations the code relies on, with their properties. These are JavaScript
  whitespace, `trim`, `toLowerCase` on ASCII, `includes`, decimal `toString`, `parseInt` of a digit
  string, and `padStart`.
- `Seqs`: `filter` and the subsequence relation, plus counting.
- `Receipt`: a till ticket line.
- `Delivery`: the delivery type and the guard shared by the three order forms.
- `MeatSplit`: the viande/poulet split shared by the two menu dialogs.

State that a component or hook updates step by step is a class:

| class | source |
|---|---|
| `AdminPos.Till` | the till |
| `CashSession.Register` | the cash session |
| `Cart.CartStore` | the cart provider |
| `CartDrawer.Drawer` | the cart drawer |
| `OrderModal.Dialog`, `FamilyMenuModal.Dialog`, `EnterpriseMenuModal.Dialog` | the three order dialogs |
| `ClientOrders.Screen` | the client-order list |
| `DeliveryMode.Hook` | the delivery-mode hook |

React `setX(prev => ...)` updaters are pure functions. Each class method assigns through them, and
the lemmas about those functions carry the properties.

Database, storage, clock and random inputs are parameters:

- **Database tables.** The `cash_sessions` table, the fetched `orders` and the `client_orders`
  table are sequences. The client-order query's `.order("created_at", { ascending: false })` is
  not computed: the `client_orders` sequence is required to be newest first already
  (`ClientOrders.NewestFirst`), and `Latest` takes its first 100 rows.
- **Sequence allocator.** The value returned by `get_next_daily_sequence` is an `Option<nat>`.
- **Clock and random values.** The current date parts and the random draw of a session code are
  numbers. So are the generated ids and timestamps.
- **Browser storage.** `localStorage` is a `map<string, string>`.

## Model

| member | source | states |
|---|---|---|
| AdminPos.Total | src/pages/AdminPOS.tsx:48-51 | the ticket total, the sum of price × qty over the lines; its properties are TotalAppend, TotalUpdate and TotalNonNegative |
| AdminPos.WithProduct | src/pages/AdminPOS.tsx:53-61 | the ticket after an add; WithProductExisting, WithProductNew and WithProductInvariant state what it does |
| AdminPos.WithoutItem | src/pages/AdminPOS.tsx:63-65 | the ticket after a removal; WithoutItemAt, WithoutItemAbsent and WithoutItemInvariant state what it does |
| AdminPos.NumpadNext | src/pages/AdminPOS.tsx:67-80 | the numpad string after a key; Till.HandleNumpad states its effect on the paid amount |
| AdminPos.FindLine | src/pages/AdminPOS.tsx:55 | the found index is the first line with that product id; none means no line has it |
| AdminPos.WithProductExisting | src/pages/AdminPOS.tsx:53-58 | adding a product already on the ticket raises only that line's qty by 1, the other lines and the order unchanged |
| AdminPos.WithProductNew | src/pages/AdminPOS.tsx:59 | adding a product not on the ticket appends one line (id, name, qty 1, price) |
| AdminPos.WithProductInvariant | src/pages/AdminPOS.tsx:53-61 | product ids on the ticket stay pairwise distinct and quantities positive after any add of a positively priced product |
| AdminPos.UpdatedLineKeepsInvariant | src/pages/AdminPOS.tsx:55-57 | rewriting one line with the same id and a positive qty and price keeps ids distinct and quantities positive |
| AdminPos.TotalAppend | src/pages/AdminPOS.tsx:48-51 | the ticket total of a concatenation is the sum of the totals |
| AdminPos.TotalUpdate | src/pages/AdminPOS.tsx:48-51 | replacing one line changes the total by the difference of the line amounts |
| AdminPos.TotalOneMore | src/pages/AdminPOS.tsx:48-57 | raising one line's qty by 1 raises the total by that line's price |
| AdminPos.TotalWithExisting | src/pages/AdminPOS.tsx:48-58 | adding a product already on line k raises the total by line k's price |
| AdminPos.TotalWithNew | src/pages/AdminPOS.tsx:48-59 | adding a product not on the ticket raises the total by its price |
| AdminPos.TotalWithProduct | src/pages/AdminPOS.tsx:48-61 | adding a product raises the total by one unit price: the existing line's, or the product's for a new line |
| AdminPos.WithoutItemAbsent | src/pages/AdminPOS.tsx:63-65 | removing an id not on the ticket leaves it unchanged |
| AdminPos.WithoutItemAt | src/pages/AdminPOS.tsx:63-65 | removing the id of line k drops exactly that line, the rest in order |
| AdminPos.RemovedLineKeepsInvariant | src/pages/AdminPOS.tsx:63-65 | dropping one line keeps ids distinct and quantities positive |
| AdminPos.WithoutItemInvariant | src/pages/AdminPOS.tsx:63-65 | removal keeps ids distinct and quantities positive |
| AdminPos.TotalWithoutItem | src/pages/AdminPOS.tsx:48-65 | removing a line lowers the total by that line's price × qty (by nothing when absent) |
| AdminPos.TotalNonNegative | src/pages/AdminPOS.tsx:48-51 | with positive quantities and prices the total is never negative |
| AdminPos.ProductsMatching | src/pages/AdminPOS.tsx:42-46 | the product search: a blank search lists the whole catalog; otherwise exactly the products whose lowercased name contains the lowercased search, as a subsequence, each as often as in the catalog |
| AdminPos.Change | src/pages/AdminPOS.tsx:110 | the change is never negative; it is paid − total when paid covers the total, else 0 |
| AdminPos.SequenceOrOne | src/pages/AdminPOS.tsx:95 | the sequence used is at least 1, and is the allocator's value when that is present and non-zero |
| AdminPos.OrderNumber | src/pages/AdminPOS.tsx:96 | the order number is at least 3 digits whose decimal value is the sequence |
| AdminPos.OrderNumberIsPadStart | src/pages/AdminPOS.tsx:96 | the order number is the decimal form of the sequence left-padded with zeros to 3 characters |
| AdminPos.PaymentRecord | src/pages/AdminPOS.tsx:88-112 | nothing is recorded exactly when paid < total; the record carries the items, total, paid amount, max(0, paid − total) change and the padded number |
| AdminPos.PaymentDisabled | src/pages/AdminPOS.tsx:237 | the payment button is disabled while underpaid, while saving, or for an empty ticket |
| AdminPos.PaymentButtonGuards | src/pages/AdminPOS.tsx:89-237 | whenever handlePayment would refuse the button is disabled, and an enabled button always records an order |
| AdminPos.Till.constructor | src/pages/AdminPOS.tsx:13-19 | empty ticket, till screen, cash payment, nothing paid, number "001" |
| AdminPos.Till.AddProduct | src/pages/AdminPOS.tsx:53-61 | the ticket becomes WithProduct of the old one, its total rises by the price, nothing else changes |
| AdminPos.Till.RemoveItem | src/pages/AdminPOS.tsx:63-65 | the ticket loses that id's line, its total drops by the line amount, nothing else changes |
| AdminPos.Till.GoToPayment | src/pages/AdminPOS.tsx:324 | the payment screen opens only for a non-empty ticket |
| AdminPos.Till.BackToTicket | src/pages/AdminPOS.tsx:159 | "Retour" goes back to the till screen |
| AdminPos.Till.SelectPaymentMethod | src/pages/AdminPOS.tsx:185 | the chosen method becomes current |
| AdminPos.Till.HandleNumpad | src/pages/AdminPOS.tsx:67-80 | "C" clears to "" and 0, "⌫" drops the last digit (paid ÷ 10), a digit appends (paid × 10 + digit); the paid amount always equals the value of the digit string |
| AdminPos.Till.QuickAmount | src/pages/AdminPOS.tsx:82-86 | the paid amount rises by exactly v and the numpad shows its decimal form |
| AdminPos.Till.PayExactTotal | src/pages/AdminPOS.tsx:225 | "Facture" sets the paid amount to the total, shown in decimal |
| AdminPos.Till.HandlePayment | src/pages/AdminPOS.tsx:88-121 | the result is PaymentRecord; when refused nothing changes, otherwise the number is stored and the receipt shows |
| AdminPos.Till.HandleNewOrder | src/pages/AdminPOS.tsx:123-129 | empty ticket, till screen, nothing paid, empty numpad, cash payment |
| PosProducts.CatalogIdsDistinct | src/lib/posProducts.ts:41-105 | product ids are pairwise distinct |
| PosProducts.CatalogSizeNames | src/lib/posProducts.ts:28-84 | every sized product has exactly the sizes M, XL, XXL in that order |
| PosProducts.CatalogBasePriceIsM | src/lib/posProducts.ts:35-84 | a sized product's base price is its M price |
| PosProducts.CatalogSizePricesIncrease | src/lib/posProducts.ts:43-84 | size prices strictly increase from M to XL to XXL |
| PosProducts.CatalogSizedCategories | src/lib/posProducts.ts:43-104 | a product has sizes exactly when it is a tacos or menu product |
| PosProducts.CatalogPricesPositive | src/lib/posProducts.ts:41-105 | every base and size price is positive |
| PosProducts.CatalogProductPricePositive | src/lib/posProducts.ts:41-105 | any catalog product has a positive price |
| CashSession.DropTwo | src/components/admin/CashSession.tsx:42 | `slice(2)` of the year's decimal form; YearDigits states its result for a 4-digit year |
| CashSession.SessionCode | src/components/admin/CashSession.tsx:42 | the generated session code; CodeSlices and SessionCodeRoundTrip state its layout and that it reads back |
| CashSession.ParseSessionCode | src/components/admin/CashSession.tsx:42 | the reading of a code of that layout back into its parts, the partner of SessionCode in ParseParts and SessionCodeRoundTrip |
| CashSession.OrderAmount | src/components/admin/CashSession.tsx:64 | the amount an order adds to the sales: its total, 0 when missing |
| CashSession.SalesTotal | src/components/admin/CashSession.tsx:64 | the sales sum over a list of orders; SalesTotalAppend and SessionOrdersAppend state its properties |
| CashSession.LatestOpen | src/components/admin/CashSession.tsx:25-32 | the result is an open session with the greatest opened_at among open sessions; none exactly when no session is open |
| CashSession.LatestOpenAfterInsert | src/components/admin/CashSession.tsx:44-49 | a new open session opened no earlier than every other becomes the one fetched |
| CashSession.YearDigits | src/components/admin/CashSession.tsx:42 | the last two characters of a 4-digit year are two digits worth year mod 100 |
| CashSession.SuffixDigits | src/components/admin/CashSession.tsx:42 | the random suffix floor(r × 9000 + 1000) is 4 digits in 1000..9999 |
| CashSession.CodeSlices | src/components/admin/CashSession.tsx:42 | the code's fixed positions return the prefix, the three 2-digit parts, the dash and the suffix |
| CashSession.ParseParts | src/components/admin/CashSession.tsx:42 | any code "MM-" + YY + MM + DD + "-" + 4 digits reads back to its parts |
| CashSession.SessionCodeRoundTrip | src/components/admin/CashSession.tsx:42 | the generated code reads back as (year mod 100, month, day, suffix in 1000..9999) |
| CashSession.SalesTotalAppend | src/components/admin/CashSession.tsx:64 | the sales sum (a missing total counting 0) is additive |
| CashSession.SessionOrders | src/components/admin/CashSession.tsx:58-63 | exactly the orders created at or after opened_at, in order, each as often as in the fetched list |
| CashSession.SessionOrdersAppend | src/components/admin/CashSession.tsx:58-65 | one more order adds its amount and 1 to the totals exactly when created at or after opened_at |
| CashSession.Closed | src/components/admin/CashSession.tsx:68-75 | only the session with that id changes, ids and opening times kept |
| CashSession.ClosedIsNoLongerOpen | src/components/admin/CashSession.tsx:68-80 | the closed session is marked closed with both totals and is never fetched as open again |
| CashSession.ClosedIdsDistinct | src/components/admin/CashSession.tsx:68-75 | closing keeps session ids distinct |
| CashSession.NameQty | src/components/admin/CashSession.tsx:94-97 | the summed qty of the items with one name; AbsentNameQty and AggStepSeen/AggStepNew state its properties |
| CashSession.NameRevenue | src/components/admin/CashSession.tsx:95-97 | the summed price × qty of the items with one name; AbsentNameRevenue and AggStepSeen/AggStepNew state its properties |
| CashSession.Aggregated | src/components/admin/CashSession.tsx:89-100 | the per-name rows in first-seen order, which AggregateArticles proves the dictionary loop computes |
| CashSession.Names | src/components/admin/CashSession.tsx:89-100 | the article names are distinct and include every item's name |
| CashSession.RowsFor | src/components/admin/CashSession.tsx:89-100 | one row per name with that name's summed qty and summed price × qty |
| CashSession.StepItem | src/components/admin/CashSession.tsx:93-98 | one more item adds to its name's row, or opens a new row at the end |
| CashSession.RowsForSnoc | src/components/admin/CashSession.tsx:93-98 | the rows for a list of names followed by one more name are those rows followed by that name's row |
| CashSession.RowsQtySnoc | src/components/admin/CashSession.tsx:138 | the quantity sum of rows followed by one more row adds that row's qty |
| CashSession.AbsentNameQty | src/components/admin/CashSession.tsx:89-100 | a name no item carries sums to qty 0 |
| CashSession.AbsentNameRevenue | src/components/admin/CashSession.tsx:89-100 | a name no item carries sums to revenue 0 |
| CashSession.RowsQtyStep | src/components/admin/CashSession.tsx:94-97 | the rows' quantity sum grows by the item's qty when its name is listed |
| CashSession.AggregatedQtySeen | src/components/admin/CashSession.tsx:93-95 | an item whose name already has a row adds its qty to the report's quantity |
| CashSession.AggregatedQtyNew | src/components/admin/CashSession.tsx:96-97 | an item with a new name adds its qty to the report's quantity |
| CashSession.AggregatedQty | src/components/admin/CashSession.tsx:138 | the report's total-row quantity equals the sum of every item qty |
| CashSession.AllItemsStep | src/components/admin/CashSession.tsx:90-91 | the items of the first k+1 orders are those of the first k followed by order k's items (none when absent) |
| CashSession.AggStepSeen | src/components/admin/CashSession.tsx:93-95 | adding to an existing entry keeps the dictionary equal to the per-name sums of the items seen so far, with the same keys |
| CashSession.AggStepNew | src/components/admin/CashSession.tsx:96-97 | creating an entry keeps the dictionary equal to the per-name sums of the items seen so far, the new name appended to the keys |
| CashSession.AggregateLines | src/components/admin/CashSession.tsx:92-99 | the inner loop over one order's items leaves the dictionary equal to the per-name sums of all items seen, including that order's |
| CashSession.AggValues | src/components/admin/CashSession.tsx:102 | the dictionary's values in insertion order are the aggregated rows |
| CashSession.AggregateArticles | src/components/admin/CashSession.tsx:89-100 | the nested loops over a dictionary compute exactly the aggregated rows |
| CashSession.InsertByTotal | src/components/admin/CashSession.tsx:103 | insertion adds exactly the new row |
| CashSession.InsertBounded | src/components/admin/CashSession.tsx:103 | insertion keeps an upper bound on totals |
| CashSession.InsertSorted | src/components/admin/CashSession.tsx:103 | insertion into a list sorted by total descending keeps it sorted |
| CashSession.SortByTotal | src/components/admin/CashSession.tsx:102-103 | the rows sorted by total, non-increasing, as a permutation |
| CashSession.BuildReport | src/components/admin/CashSession.tsx:84-103 | the report's rows are a permutation of the aggregated rows sorted by total descending; its quantity is the sum of item qtys |
| CashSession.Register.constructor | src/components/admin/CashSession.tsx:21-23 | no current session, loading, not closing |
| CashSession.Register.FetchSession | src/components/admin/CashSession.tsx:25-34 | the current session becomes LatestOpen of the table |
| CashSession.Register.OpenCash | src/components/admin/CashSession.tsx:38-50 | one open session with the generated code is inserted, then the current session is refetched (the new one when it is the latest) |
| CashSession.Register.CloseCash | src/components/admin/CashSession.tsx:52-82 | nothing without a current session; otherwise that session is closed with the sums over its orders, the report is built and the current session is cleared |
| Cart.TotalItems | src/contexts/CartContext.tsx:67 | the sum of the quantities; TotalItemsAppend, TotalItemsUpdate and TotalItemsAtLeastLength state its properties |
| Cart.SupplementsTotal | src/contexts/CartContext.tsx:73 | the sum of price × qty over a taco's supplements |
| Cart.TotalPrice | src/contexts/CartContext.tsx:69-75 | the cart price; TotalPriceAppend and AppendedTotals state its properties |
| Cart.Appended | src/contexts/CartContext.tsx:51-54 | one item with the given id is appended, the existing items in order |
| Cart.Removed | src/contexts/CartContext.tsx:56-58 | exactly the items without that id remain, in order, each as often as before |
| Cart.UpdatedQuantity | src/contexts/CartContext.tsx:60-63 | below 1 the same as removal; otherwise only the matching items take the quantity |
| Cart.RemoveUndoesAppend | src/contexts/CartContext.tsx:51-58 | removing a freshly added item restores the cart |
| Cart.AppendedIdsDistinct | src/contexts/CartContext.tsx:51-54 | a fresh id keeps ids distinct |
| Cart.UpdatedQuantityPositive | src/contexts/CartContext.tsx:60-63 | every quantity stays at least 1 under any update |
| Cart.TotalItemsAppend | src/contexts/CartContext.tsx:67 | the item count is additive |
| Cart.TotalPriceAppend | src/contexts/CartContext.tsx:69-75 | the cart price is additive |
| Cart.AppendedTotals | src/contexts/CartContext.tsx:51-75 | adding raises the count by the item's quantity and the price by its line amount |
| Cart.TotalItemsUpdate | src/contexts/CartContext.tsx:67 | replacing an item changes the count by the quantity difference |
| Cart.UpdatedQuantityTotal | src/contexts/CartContext.tsx:62-67 | setting an item's quantity changes the count by exactly the difference |
| Cart.TotalItemsAtLeastLength | src/contexts/CartContext.tsx:67 | with positive quantities the count is at least the number of items |
| Cart.CartStore.constructor | src/contexts/CartContext.tsx:35-45 | the stored cart when present, otherwise empty |
| Cart.CartStore.AddItem | src/contexts/CartContext.tsx:51-54 | the items become Appended, the count rises by the quantity |
| Cart.CartStore.RemoveItem | src/contexts/CartContext.tsx:56-58 | the items become Removed |
| Cart.CartStore.UpdateQuantity | src/contexts/CartContext.tsx:60-63 | the items become UpdatedQuantity, positivity kept |
| Cart.CartStore.ClearCart | src/contexts/CartContext.tsx:65 | the empty cart, count and price 0 |
| CartDrawer.IsPhoneValid | src/components/CartDrawer.tsx:26-29 | at least 11 characters once whitespace is removed; PhoneValidWithoutSpaces and ShortPhoneInvalid state its cases |
| CartDrawer.ItemTotal | src/components/CartDrawer.tsx:119-125 | the amount of one line, which ItemsTotalIsTotalPrice relates to the cart's totalPrice |
| CartDrawer.SubmitBlocked | src/components/CartDrawer.tsx:66-68 | the early returns of handleOrderAll, which ButtonMatchesGuards relates to the button |
| CartDrawer.OrderButtonDisabled | src/components/CartDrawer.tsx:254-259 | the order button's disabled condition, which ButtonMatchesGuards relates to the early returns |
| CartDrawer.SentRecords | src/components/CartDrawer.tsx:74-101 | the records written by the loop; SentRecordsAt, SentRecordsTotal and SentRecordsSpec state their properties |
| CartDrawer.PhoneValidWithoutSpaces | src/components/CartDrawer.tsx:26-29 | a number without whitespace is valid iff it has at least 11 characters |
| CartDrawer.ShortPhoneInvalid | src/components/CartDrawer.tsx:26-29 | fewer than 11 characters is never valid |
| CartDrawer.ItemsTotalIsTotalPrice | src/components/CartDrawer.tsx:119-125 | the drawer's line totals sum to the cart's totalPrice |
| CartDrawer.OrNull | src/components/CartDrawer.tsx:77-78 | an empty or missing string becomes null, any other is kept |
| CartDrawer.PhoneColumn | src/components/CartDrawer.tsx:96 | the phone column has no whitespace, is no longer than the number typed, and is that number when it had none |
| CartDrawer.AddressColumn | src/components/CartDrawer.tsx:98 | the address column is present iff delivery, and is then the trimmed address |
| CartDrawer.RecordFor | src/components/CartDrawer.tsx:75-101 | a record's total is the line total, its type the item's, its phone, delivery type and address the given columns; the details are marked fromCart with the item's name and quantity, and carry a size iff the item has a non-empty one |
| CartDrawer.SentRecordsAt | src/components/CartDrawer.tsx:74-101 | one record per item, the k-th written for the k-th item |
| CartDrawer.SentRecordsTotal | src/components/CartDrawer.tsx:90-100 | the records' totals add up to the drawer's line amounts |
| CartDrawer.SentRecordsSpec | src/components/CartDrawer.tsx:74-125 | the records sent match the items one for one and add up to the cart's totalPrice |
| CartDrawer.ButtonMatchesGuards | src/components/CartDrawer.tsx:65-68 | the button is disabled iff the handler would return early or a send is running |
| CartDrawer.SendAll | src/components/CartDrawer.tsx:74-102 | the loop sends SentRecords: one record per item in cart order, and the records' totals sum to totalPrice |
| CartDrawer.Drawer.constructor | src/components/CartDrawer.tsx:21-24 | no delivery type, empty address, phone "+223", not submitting |
| CartDrawer.Drawer.HandleOrderAll | src/components/CartDrawer.tsx:65-117 | when a guard fails nothing changes; otherwise one record per item, with the whitespace-free phone and the trimmed address for a delivery, adding up to totalPrice, is sent and the cart is emptied |
| OrderModal.SetKey | src/components/OrderModal.tsx:49 | `{ ...prev, [id]: v }`; LookupSet and SetKeyInvariant state what it does |
| OrderModal.RemoveKey | src/components/OrderModal.tsx:46-47 | `{ [id]: _, ...rest }`; LookupRemove and RemoveKeyInvariant state what it does |
| OrderModal.SupplementChange | src/components/OrderModal.tsx:41-51 | the selection after a + or − click; SupplementChangeLookup, SupplementChangeInvariant and SupplementChangeTotal state what it does |
| OrderModal.FindOffer | src/components/OrderModal.tsx:56 | `supplements.find` by id; FindOfferSpec states what it finds |
| OrderModal.PriceOf | src/components/OrderModal.tsx:56-57 | the listed price of a supplement, 0 when unknown; PriceOfSpec states its two cases |
| OrderModal.SelectionTotal | src/components/OrderModal.tsx:53-60 | the supplements sum over the selection; SelectionTotalSet, SelectionTotalRemove and SupplementChangeTotal state how it moves |
| OrderModal.CalculateTotal | src/components/OrderModal.tsx:53-62 | the taco price plus the supplements, times the quantity; Dialog.HandleClose states its value after a reset |
| OrderModal.LookupSet | src/components/OrderModal.tsx:49 | setting a key changes that key's count only |
| OrderModal.LookupRemove | src/components/OrderModal.tsx:46-47 | removing a key deletes only that key |
| OrderModal.SetKeyInvariant | src/components/OrderModal.tsx:49 | setting a positive count keeps keys distinct and no count 0 |
| OrderModal.RemoveKeyInvariant | src/components/OrderModal.tsx:46-47 | removing keeps keys distinct and no count 0 |
| OrderModal.SupplementChangeInvariant | src/components/OrderModal.tsx:41-51 | the map never holds a 0 count |
| OrderModal.SupplementChangeLookup | src/components/OrderModal.tsx:41-51 | the count becomes max(0, old + delta) (absent at 0); other keys unchanged |
| OrderModal.FindOfferSpec | src/components/OrderModal.tsx:56 | the offer found has that id; none iff no offer has it |
| OrderModal.SupplementIdsDistinct | src/components/OrderModal.tsx:26-33 | the six supplement ids are pairwise distinct |
| OrderModal.PriceOfSpec | src/components/OrderModal.tsx:26-57 | an unknown supplement prices at 0, a known one at its listed price |
| OrderModal.SelectionTotalRemove | src/components/OrderModal.tsx:46-60 | removing a key lowers the supplements total by its price × count |
| OrderModal.RemoveAbsent | src/components/OrderModal.tsx:46-47 | removing an absent key changes nothing |
| OrderModal.SelectionTotalSet | src/components/OrderModal.tsx:49-60 | setting a key changes the total by price × the count difference |
| OrderModal.ChangeToZeroTotal | src/components/OrderModal.tsx:46-60 | a change that brings a count to 0 moves the total by price × (0 − old count) |
| OrderModal.ChangeToCountTotal | src/components/OrderModal.tsx:49-60 | a change to a positive count moves the total by price × (new − old count) |
| OrderModal.SupplementChangeTotal | src/components/OrderModal.tsx:41-60 | a change moves the supplements total by price × (new − old count) |
| OrderModal.MessageSupplements | src/components/OrderModal.tsx:65-66 | the message lists exactly the entries with qty > 0, in order, each as often as in the selection |
| OrderModal.MessageListsAll | src/components/OrderModal.tsx:65-66 | with no 0 counts every selected supplement is listed |
| OrderModal.Dialog.constructor | src/components/OrderModal.tsx:36-37 | no supplements, quantity 1 |
| OrderModal.Dialog.HandleSupplementChange | src/components/OrderModal.tsx:41-51 | the selection becomes SupplementChange, its total moved by price × the count difference |
| OrderModal.Dialog.DecrementQuantity | src/components/OrderModal.tsx:118 | max(1, q − 1) |
| OrderModal.Dialog.IncrementQuantity | src/components/OrderModal.tsx:125 | q + 1 |
| OrderModal.Dialog.HandleClose | src/components/OrderModal.tsx:87-91 | no supplements and quantity 1, so the total is the taco price |
| Delivery.ChoiceIncomplete | src/components/CartDrawer.tsx:66-67 | no delivery type, or delivery with a blank address: the guard shared by the three order forms |
| MeatSplit.InitialSplit | src/components/FamilyMenuOrderModal.tsx:39-43 | viande + poulet = q and 0 ≤ viande − poulet ≤ 1 |
| MeatSplit.Clamp | src/components/FamilyMenuOrderModal.tsx:53 | the value lies in [lo, hi] and is unchanged when already inside |
| MeatSplit.MeatChange | src/components/FamilyMenuOrderModal.tsx:51-59 | the changed side is clamped to [0, q] and the other side is the rest, so the sum stays q |
| MeatSplit.MeatChangeMoves | src/components/FamilyMenuOrderModal.tsx:53-58 | inside the bounds exactly delta moves from one side to the other |
| MeatSplit.MeatChangeAtBound | src/components/FamilyMenuOrderModal.tsx:53 | at a bound a step further changes nothing |
| FamilyMenuModal.OrderDisabled | src/components/FamilyMenuOrderModal.tsx:215 | the order button's disabled condition, which OrderFor relates to the handler's guard |
| FamilyMenuModal.BonusLine | src/components/FamilyMenuOrderModal.tsx:70 | the bonus line appears iff the menu has a non-empty bonus |
| FamilyMenuModal.OrderFor | src/components/FamilyMenuOrderModal.tsx:62-72 | no order iff no delivery type or delivery with a blank address, iff the button is disabled; otherwise the split, price, bonus and trimmed address |
| FamilyMenuModal.Dialog.constructor | src/components/FamilyMenuOrderModal.tsx:32-34 | split 0/0, no delivery type, empty address |
| FamilyMenuModal.Dialog.OnOpen | src/components/FamilyMenuOrderModal.tsx:36-47 | the initial split of the menu's quantity, delivery reset |
| FamilyMenuModal.Dialog.HandleMeatChange | src/components/FamilyMenuOrderModal.tsx:51-60 | the split becomes MeatChange; the sum stays the quantity |
| FamilyMenuModal.Dialog.SelectDeliveryType | src/components/FamilyMenuOrderModal.tsx:159-169 | the chosen delivery type |
| FamilyMenuModal.Dialog.HandleOrder | src/components/FamilyMenuOrderModal.tsx:62-77 | the order is OrderFor of the current state |
| EnterpriseMenuModal.OrderDisabled | src/components/EnterpriseMenuOrderModal.tsx:220 | the order button's disabled condition, which OrderFor relates to the handler's guard |
| EnterpriseMenuModal.CompanyLine | src/components/EnterpriseMenuOrderModal.tsx:69 | the company line appears iff the trimmed name is non-empty, with the trimmed name |
| EnterpriseMenuModal.CompanyLineAllSpaces | src/components/EnterpriseMenuOrderModal.tsx:69 | no company line iff the name is all whitespace |
| EnterpriseMenuModal.OrderFor | src/components/EnterpriseMenuOrderModal.tsx:61-71 | no order iff no delivery type or delivery with a blank address, iff the button is disabled; otherwise the split, prices, company line and trimmed address |
| EnterpriseMenuModal.Dialog.constructor | src/components/EnterpriseMenuOrderModal.tsx:30-33 | split 0/0, no delivery type, empty address and company |
| EnterpriseMenuModal.Dialog.OnOpen | src/components/EnterpriseMenuOrderModal.tsx:35-46 | the initial split, the delivery type initialDeliveryMode (or none), address and company reset |
| EnterpriseMenuModal.Dialog.HandleMeatChange | src/components/EnterpriseMenuOrderModal.tsx:50-59 | the split becomes MeatChange; the sum stays the quantity |
| EnterpriseMenuModal.Dialog.HandleOrder | src/components/EnterpriseMenuOrderModal.tsx:61-75 | the order is OrderFor of the current state |
| ClientOrders.Rank | src/components/admin/ClientOrders.tsx:267-293 | the position of a status in the workflow new, confirmed, then completed or cancelled; TransitionsMoveForward and ReachableForward use it |
| ClientOrders.IsNew | src/components/admin/ClientOrders.tsx:174 | the filter of newCount; NewCount, NewCountAfterUpdate and NewCountAfterInsert state its count |
| ClientOrders.OfferedTransitions | src/components/admin/ClientOrders.tsx:267-293 | "new" offers confirmed and cancelled, "confirmed" offers completed, any other status none |
| ClientOrders.TransitionsMoveForward | src/components/admin/ClientOrders.tsx:267-293 | every offered change moves strictly forward in the workflow |
| ClientOrders.ReachableForward | src/components/admin/ClientOrders.tsx:267-293 | any chain of offered changes is at most two long and ends in confirmed, completed or cancelled: the workflow has no cycle |
| ClientOrders.WithStatus | src/components/admin/ClientOrders.tsx:59-62 | only the orders with that id take the new status |
| ClientOrders.NewCount | src/components/admin/ClientOrders.tsx:174 | the count of "new" orders is at most the number of orders |
| ClientOrders.NewCountAfterUpdate | src/components/admin/ClientOrders.tsx:59-62 | changing one order's status (ids distinct) changes the count by what the old and new status contribute: confirming or cancelling a new order lowers it by one |
| ClientOrders.Prepended | src/components/admin/ClientOrders.tsx:112 | the new order in front, the rest in order |
| ClientOrders.NewCountAfterInsert | src/components/admin/ClientOrders.tsx:112 | an inserted order raises the count iff its status is "new" |
| ClientOrders.ToggleExpanded | src/components/admin/ClientOrders.tsx:211 | the clicked card is expanded iff it was not; at most one card is expanded |
| ClientOrders.ToggleTwice | src/components/admin/ClientOrders.tsx:211 | two clicks on the same card collapse it again |
| ClientOrders.Latest | src/components/admin/ClientOrders.tsx:48-51 | the first min(100, table length) rows, newest first |
| ClientOrders.Screen.constructor | src/components/admin/ClientOrders.tsx:42-44 | no orders, loading, nothing expanded |
| ClientOrders.Screen.FetchOrders | src/components/admin/ClientOrders.tsx:46-57 | the list is replaced only when the query succeeds; loading ends |
| ClientOrders.Screen.UpdateStatus | src/components/admin/ClientOrders.tsx:59-64 | the row's status changes, then the list is refetched |
| ClientOrders.Screen.OnInsert | src/components/admin/ClientOrders.tsx:110-112 | the inserted row joins the front of the table and of the list, the count rises iff it is "new" |
| ClientOrders.Screen.ClickOrder | src/components/admin/ClientOrders.tsx:211 | the expanded card toggles |
| OrderHistory.Matches | src/components/admin/OrderHistory.tsx:39-47 | the filter callback: a blank search keeps every order, otherwise MatchesQuery on the lowercased search |
| OrderHistory.MatchesQuery | src/components/admin/OrderHistory.tsx:42-46 | the number, the lowercased ticket code or the total contains the query; FoundByNumberOrTotal and QueryNarrowing state its properties |
| OrderHistory.Filtered | src/components/admin/OrderHistory.tsx:39-47 | a subsequence of the orders; all of them for a blank search; otherwise exactly those matching the lowercased query, each as often as in the list |
| OrderHistory.FoundByNumberOrTotal | src/components/admin/OrderHistory.tsx:41-45 | an order is found by its own lowercase number and by its total typed out |
| OrderHistory.LowerIntToString | src/components/admin/OrderHistory.tsx:42-45 | the decimal form of a total is unchanged by lowercasing, so a typed total is found |
| OrderHistory.ContainsShorter | src/components/admin/OrderHistory.tsx:43-45 | containing a query extended by a character implies containing the query |
| OrderHistory.QueryNarrowing | src/components/admin/OrderHistory.tsx:42-46 | an order matching a longer query matches the shorter one |
| OrderHistory.NotBlankExtended | src/components/admin/OrderHistory.tsx:40 | a non-blank search stays non-blank as characters are typed |
| OrderHistory.MatchesNarrowing | src/components/admin/OrderHistory.tsx:39-47 | typing a character can only remove orders from the list |
| OrderHistory.FilteredNarrowing | src/components/admin/OrderHistory.tsx:39-47 | every order listed after a keystroke was listed before it |
| OrderHistory.ArticleCount | src/components/admin/OrderHistory.tsx:112 | a row's article count, the sum of its lines' quantities |
| OrderHistory.ArticleCountAtLeastLines | src/components/admin/OrderHistory.tsx:112 | with positive quantities a row's ArticleCount is at least its number of lines |
| Delivery.Parse | src/hooks/useDeliveryMode.ts:18 | a recognised stored value is the code of the type read |
| Delivery.ParseCode | src/hooks/useDeliveryMode.ts:18-37 | a stored code reads back as the same type |
| DeliveryMode.StoredMode | src/hooks/useDeliveryMode.ts:15-19 | a mode is adopted iff the stored value is exactly "livraison" or "emporter" |
| DeliveryMode.StoredAddress | src/hooks/useDeliveryMode.ts:16-22 | an address is restored iff the mode is valid and the stored address is non-empty |
| DeliveryMode.Saved | src/hooks/useDeliveryMode.ts:36-42 | the mode is written only when given, the address only when non-empty; other keys untouched |
| DeliveryMode.SavedThenRestored | src/hooks/useDeliveryMode.ts:15-42 | a saved mode and non-empty address are what the next mount restores |
| DeliveryMode.SavedWithoutMode | src/hooks/useDeliveryMode.ts:36-38 | saving without a mode keeps the remembered mode |
| DeliveryMode.Hook.constructor | src/hooks/useDeliveryMode.ts:8-11 | no mode, empty address, modal hidden, not initialized |
| DeliveryMode.Hook.Mount | src/hooks/useDeliveryMode.ts:14-31 | with a valid stored mode the mode and address are restored and the hook is initialized; otherwise the modal timer starts and it stays uninitialized |
| DeliveryMode.Hook.TimerElapsed | src/hooks/useDeliveryMode.ts:25-27 | the pending timer shows the modal |
| DeliveryMode.Hook.Unmount | src/hooks/useDeliveryMode.ts:28 | the timer is cancelled |
| DeliveryMode.Hook.HandleModeChange | src/hooks/useDeliveryMode.ts:34-45 | the mode is taken, the address only when non-empty, storage becomes Saved; modal hidden, initialized |
| DeliveryMode.Hook.HandleViewMenu | src/hooks/useDeliveryMode.ts:48-51 | modal hidden, initialized, mode and address unchanged |
| OpenStatus.IsOpenAt | src/components/OpenStatus.tsx:8-14 | for an hour in 0..23, open iff the hour is not in 4..8 |
| OpenStatus.OpenBoundaries | src/components/OpenStatus.tsx:14 | 9 h and 3 h are open, 4 h and 8 h closed |
| OpenStatus.OnlyTheHourMatters | src/components/OpenStatus.tsx:8-14 | two readings with the same hour agree whatever the minutes or date |
| OpenStatus.OpenHoursBefore | src/components/OpenStatus.tsx:14 | the number of open hours among 0 to n − 1, at most n; NightHours, DayHours and OpenHoursPerDay state its values |
| OpenStatus.NightHours | src/components/OpenStatus.tsx:14 | up to any hour from 4 to 9 exactly four hours (0 to 3) are open, so 4 to 8 are closed |
| OpenStatus.DayHours | src/components/OpenStatus.tsx:14 | up to hour n from 9 to 24 exactly n − 5 hours are open, so every hour from 9 on is open |
| OpenStatus.OpenHoursPerDay | src/components/OpenStatus.tsx:11-14 | the shop is open 19 of the 24 hours |

## Left out

- Supabase I/O is not modelled: selects, inserts, updates, the `get_next_daily_sequence` RPC, auth and role checks. Tables and results are parameters and fields.
- Failure paths of network calls are not modelled: the rejected payment insert, the failed session update, and a send in `handleOrderAll` that throws midway. Each call is taken to succeed. The one exception is the client-order query, whose failure is a `queryOk` flag.
- Realtime subscriptions, the alert sound and browser notifications are not modelled. Only the list update on insert is kept.
- HTML generation, printing, `window.open`, WhatsApp message texts, URL encoding and `toLocaleString` formatting are presentation.
- Dates and times are integers. The session's `closed_at` is the supplied `now`.
- `toLowerCase` is modelled on ASCII letters only.
- `Math.random` is a parameter: the session-code draw in 0..8999 and the cart id.
- Product images and the catalog's `image` field are not modelled.
- The cart's `localStorage` persistence and JSON parsing in `loadCart` are not modelled. The constructor receives the parsed cart or none.
- Storage failures in `useDeliveryMode` are not modelled.
- `order_details` of a fetched client order is not modelled. It is an untyped JSON value.
- The cart drawer's `phone` and `delivery_address` columns are computed once before the send loop, not once per insert. They depend only on the drawer's state, which the loop does not change.
- The history screen's fetch and the receipt it opens are not modelled. `filtered` works on any list of orders.
- CashSession.SortByTotal: states sorted descending and a permutation, not the stability of JavaScript's sort for equal totals.
- CashSession.BuildReport: the same gap; its rows are sorted and a permutation, but the order of rows with equal totals is not stated.
- CashSession.Register.CloseCash: the same gap, through BuildReport.
- CashSession.LatestOpen: among several open sessions with the same `opened_at`, the database may return any one. The model returns the last in table order.
- CashSession.AggregateArticles: plain dictionary keys are assumed. JavaScript's special order for integer-like keys in `Object.values` is not modelled, and neither are names that collide with prototype properties.
- CashSession.Register.CloseCash: the orders are taken in the order given, not re-sorted by `created_at`. Order does not affect the totals or the sorted report rows.
- AdminPos.Till.HandleNumpad, AdminPos.Till.QuickAmount, AdminPos.Till.PayExactTotal: amounts are exact unbounded integers. JavaScript numbers are doubles, so the source agrees with the model only below 2^53 (`parseInt` of 17 or more digits rounds) and while `toString` gives plain digits (from 1e21 it gives exponent form). The same holds for `AdminPos.Till.Valid`'s "amount paid is the value of the numpad string".
- CartDrawer.IsPhoneValid: `length` counts characters here, while JavaScript counts UTF-16 code units, so a character outside the Basic Multilingual Plane (an emoji) counts 2 in the source and 1 in the model.
- ClientOrders.Screen.OnInsert: requires the inserted row to be no older than the newest row of the table, which the database's `created_at` default gives for a fresh insert; an out-of-order event is not modelled.
- The client-order query's descending sort on `created_at` is not modelled. The table is held newest first instead, as `ClientOrders.Screen.Valid` requires.
- Totals of an unclosed session: `total_sales`/`total_orders` of a session that has not been closed are `None`. In the database they take its column defaults.
- The operational-day and shift-handoff tables exist only in the generated schema. No code opens, closes or aggregates them, so they are not part of this model.
