# Tienda point of sale, modelled in Dafny

This project models the two stateful parts of the Tienda shop application.

- The point-of-sale screen (`js/pos.js`): a cart of product entries, the chosen payment method, the chosen customer, and the totals on display. It covers adding, removing and re-quantifying entries, clearing the cart, and the guards and request of a checkout.
- The JSON action endpoint (`pages/api.php`): an action switch whose handlers create, read and update products, employees and suppliers, and record a sale in one transaction that inserts the order, its detail rows and the stock decrements.

Layout, one module per file:

- `wrappers.dfy` (`Wrappers`): the `Option` type.
- `values.dfy` (`PhpValues`): decoded JSON values and the PHP and SQL conversions the handlers apply to them: `empty()`, `isset()`, `??`, truthiness, `< 0`, and how a bound id selects an INT primary key.
- `store.dfy` (`Store`): the database rows, the responses, and the sale transaction as pure functions, with their lemmas.
- `api.dfy` (`Api`): class `Database`, with one method per `case` of the switch and the dispatcher. All handlers keep the database invariant `Consistent`; the sale's item loop leaves it to the sale to restore.
- `cart.dfy` (`Cart`): the cart operations, totals and checkout request as pure functions, with their lemmas.
- `pos.dfy` (`Pos`): class `Terminal`, the screen's state. Its handlers are proved to change the cart exactly as the `Cart` functions say, and to keep the displayed totals equal to the cart's.
- `checkout.dfy` (`Checkout`): the two halves together. It shows what the endpoint records for the request a checkout sends.

Write failures are a parameter. Each writing handler takes `fails: Statement -> bool`, which says which write statements throw. `process_sale` names its statements by position: the header insert, the k-th detail insert, the k-th stock update, and the commit. Money is exact `real`. `password_hash` is an opaque value, `PasswordHash(password, salt)`, and the salt is a parameter. An uncaught PHP error, which ends the script without a JSON answer, is the response `Crash`.

## Model

| member | source | states |
|---|---|---|
| PhpValues.RowKey | pages/api.php:122-123 | A bound id selects the row whose key is the number SQL reads from it; a non-integral or unreadable id selects none |
| PhpValues.SqlMinus | pages/api.php:68 | `stock_actual - ?` is NULL exactly when an operand is not a number SQL can read; otherwise it is the difference of the two numbers SQL reads |
| PhpValues.Empty | pages/api.php:89 | Apart from null, `empty()` holds exactly of the set values 0, "", "0", false and empty arrays, the ones `isset()` lets through, so `adjust_stock` accepts a stock of 0 |
| PhpValues.IsSet | pages/api.php:165 | Whatever `isset()` refuses, `empty()` refuses too |
| PhpValues.BelowZero | pages/api.php:170 | On every value SQL reads as a number, PHP's `< 0` agrees with that number's sign |
| PhpValues.DigitStringKey | pages/api.php:116-123 | A query-string id made of digits selects the row with that decimal number |
| Store.SaleDetails | pages/api.php:57-66 | One detail row per item, in item order, each with the order id and the item's id, quantity and price |
| Store.ApplySale | pages/api.php:68-73 | The stock updates of a sale keep every product row and change nothing but stock |
| Store.SaleStep | pages/api.php:57-74 | One more loop iteration appends that item's detail row and applies that item's decrement |
| Store.SaleHeader | pages/api.php:43-53 | The order gets the given id and is recorded as 'fisica' and 'pagado'; a missing or null customer or employee becomes 1 and a given one is kept |
| Store.Decrement | pages/api.php:68-73 | One stock update keeps every product row; the product the item names, if any, gets `stock - cantidad` as SQL computes it, and every other row is unchanged |
| Store.EmptySale | pages/api.php:57-76 | A sale without items records no detail rows and changes no product |
| Store.ApplySaleUntouched | pages/api.php:68-73 | A product no item names keeps its row |
| Store.ApplySaleStock | pages/api.php:57-74 | Each product's stock drops by the total quantity its items order, repeated items adding up, with no lower bound |
| Store.StockCanGoNegative | pages/api.php:68-73 | Selling 2 of a product with stock 1 leaves stock -1 |
| Api.UpdateWhere | pages/api.php:147-157 | `UPDATE ... WHERE id = ?` edits only the row the id selects, if there is one, and keeps the set of rows |
| Api.Database.ProcessSale | pages/api.php:36-84 | It succeeds exactly when no statement fails. Then it appends one order with the next id, the detail rows and the stock decrements. Otherwise it reports the driver error and rolls back orders, details and stock; only an already-advanced order counter remains |
| Api.Database.InsertSaleItems | pages/api.php:57-74 | The loop writes all detail rows and decrements exactly when no detail insert or stock update fails; it touches nothing else |
| Api.Database.RollBack | pages/api.php:80-82 | The rollback restores orders, details and products to the transaction's start and keeps the invariant |
| Api.Database.CreateProduct | pages/api.php:86-113 | Empty sku or nombre is refused; an existing sku is refused; otherwise one active product is inserted with the given stock and the next id. A refusal or failure leaves the store unchanged |
| Api.Database.GetProduct | pages/api.php:115-131 | Empty id gives 'ID requerido'; otherwise it returns the selected row, or 'Producto no encontrado' |
| Api.Database.UpdateProduct | pages/api.php:133-160 | Missing id, sku or nombre is refused; a sku held by another id is refused, the product's own sku is allowed; stock and the active flag never change; only the selected row changes |
| Api.Database.AdjustStock | pages/api.php:162-179 | Empty id or unset stock is refused; a negative stock is refused; 0 is accepted; otherwise stock becomes exactly the value sent and nothing else changes |
| Api.Database.CreateUser | pages/api.php:181-201 | nombre, email and password are required; an existing email is refused; an array or object password makes `password_hash` throw an uncaught TypeError, so nothing is written and no JSON is sent; otherwise one active employee is inserted with the hash of the password |
| Api.Database.GetUser | pages/api.php:203-219 | Empty id gives 'ID requerido'; otherwise the selected employee's public columns without the password, or 'Usuario no encontrado' |
| Api.Database.UpdateUser | pages/api.php:221-245 | An email held by another id is refused. An empty password keeps every stored hash. A non-empty array or object password makes `password_hash` throw an uncaught TypeError and nothing is written. Any other non-empty one stores a fresh hash that verifies that password |
| Api.Database.ToggleUser | pages/api.php:247-260 | Empty id gives 'ID requerido'; otherwise activo is stored as sent and the message says activado or desactivado after its truthiness |
| Api.Database.CreateSupplier | pages/api.php:262-279 | empresa and contacto are required; otherwise one active supplier is inserted with the next id |
| Api.Database.GetSupplier | pages/api.php:281-297 | Empty id gives 'ID requerido'; otherwise the selected row or 'Proveedor no encontrado' |
| Api.Database.UpdateSupplier | pages/api.php:299-317 | id, empresa and contacto are required; only the selected row's four columns change |
| Api.ParseAction | pages/api.php:9-319 | The `action` parameter selects the case whose label it is; anything else, the missing parameter included, reaches the default branch |
| Api.ParseLabel | pages/api.php:9-319 | Every case label selects its own case |
| Api.Database.Dispatch | pages/api.php:7-326 | An unknown action gives 'Acción no válida' and changes nothing. Reading actions change nothing. A sale succeeds exactly when none of its statements fails, and then the store holds its header, detail rows and stock decrements; a single-row write succeeds exactly when its action accepts the request and the write goes through, with that action's message and that action's insert or update applied to the store. Any other answer leaves the store as it was, except for an order id a failed sale consumed |
| Api.Database.ReadAction | pages/api.php:12-297 | Listings (lines 12-34) succeed; `get_product`, `get_user` and `get_supplier` (lines 115-131, 203-219, 281-297) each answer with their own kind of row, and with 'ID requerido' exactly for an empty id |
| Api.Database.WriteAction | pages/api.php:86-317 | Each write action reaches its own handler: it succeeds exactly when that action's required fields, uniqueness lookup, stock sign and password checks pass and the write goes through, answers with that action's message, leaves the store as that action's insert or `UPDATE ... WHERE id = ?` makes it, and otherwise leaves the store unchanged |
| Api.Database.WriteProducts | pages/api.php:86-179 | The same, for the three product actions |
| Api.Database.WriteEmployees | pages/api.php:181-260 | The same, for the three employee actions |
| Api.Database.WriteSuppliers | pages/api.php:262-317 | The same, for the two supplier actions |
| Api.SaleKeepsInvariant | pages/api.php:43-76 | A committed sale keeps ids increasing, details pointing at recorded orders and SKUs unique |
| Api.ProductInsertKeepsInvariant | pages/api.php:94-110 | Inserting a product with a new sku keeps the invariant |
| Api.ProductEditKeepsInvariant | pages/api.php:141-157 | Editing products without duplicating a sku keeps the invariant |
| Api.EmployeeInsertKeepsInvariant | pages/api.php:189-198 | Inserting an employee with a new email keeps the invariant |
| Api.EmployeeEditKeepsInvariant | pages/api.php:229-242 | Editing employees without duplicating an email keeps the invariant |
| Api.SupplierInsertKeepsInvariant | pages/api.php:270-276 | Inserting a supplier keeps the invariant |
| Api.SupplierEditKeepsInvariant | pages/api.php:307-314 | Editing suppliers keeps the invariant |
| Api.SkuEditKeepsUnique | pages/api.php:141-157 | Writing a sku no other row holds into the selected row keeps SKUs unique |
| Api.EmailEditKeepsUnique | pages/api.php:229-242 | Writing an email no other row holds into the selected row keeps emails unique |
| Api.SkuKeepingEditKeepsUnique | pages/api.php:175-176 | An edit that keeps the sku keeps SKUs unique |
| Api.EmailKeepingEditKeepsUnique | pages/api.php:255-256 | An edit that keeps the email keeps emails unique |
| Cart.Added | js/pos.js:37-52 | Adding leaves the cart as it was exactly when the add is refused; it either keeps the length or appends the product's new entry; entries with other ids never change |
| Cart.QuantityUpdated | js/pos.js:64-79 | A quantity change never lengthens the cart, changes nothing when refused, and leaves only entries of other ids that were already there |
| Cart.Find | js/pos.js:38 | `cart.find` gives the first entry with the id, or none when no entry has it |
| Cart.Removed | js/pos.js:59 | Filtering never lengthens the cart |
| Cart.PayloadItems | js/pos.js:181-185 | One request item per entry, in cart order, with the entry's id, quantity and price |
| Cart.CheckoutRequest | js/pos.js:159-186 | An empty cart is refused first, then a missing or zero payment id. Otherwise the request has employee 1, the selected customer and payment, the cart's subtotal, 16% tax and their sum, and the cart's items |
| Cart.FindDistinct | js/pos.js:38 | With distinct ids, an entry is found at its own position |
| Cart.AddNew | js/pos.js:47-51 | Adding a product not in the cart appends exactly one entry with quantity 1 and the product's data, and leaves the others unchanged |
| Cart.AddExisting | js/pos.js:38-46 | A product already in the cart goes up by one exactly when its quantity is below the stock just supplied, and nothing else changes; otherwise the cart is unchanged and the add is refused |
| Cart.UpdateCases | js/pos.js:64-79 | A new quantity of 0 or less removes the entry and keeps the rest in order. One within the stored stock is set. A larger one is refused and changes nothing |
| Cart.UpdateUnknown | js/pos.js:65-66 | An unknown id changes nothing |
| Cart.AddIgnoresStockOfNewEntry | js/pos.js:47-51 | A new entry is added even with no stock: only increments are checked |
| Cart.RemovedSplice | js/pos.js:58-59 | Removing an id takes out exactly its entry and keeps the rest in order |
| Cart.RemovedMembers | js/pos.js:59 | After removal the cart holds exactly the entries with another id |
| Cart.RemovedAbsent | js/pos.js:59 | Removing an id no entry has changes nothing |
| Cart.RemoveIdempotent | js/pos.js:58-59 | Removing twice is removing once |
| Cart.RemoveKeepsWellFormed | js/pos.js:59 | Removal keeps ids distinct and quantities at least 1 |
| Cart.AddKeepsWellFormed | js/pos.js:37-52 | Adding keeps ids distinct and quantities at least 1 |
| Cart.UpdateKeepsWellFormed | js/pos.js:64-79 | Changing a quantity keeps ids distinct and quantities at least 1 |
| Cart.RunKeepsWellFormed | js/pos.js:37-79 | After any sequence of adds, removes and quantity changes, ids are distinct and every quantity is at least 1 |
| Cart.StepKeepsStoredStock | js/pos.js:41-42 | No operation refreshes an entry's stored stock, SKU or price |
| Cart.SameIdSameEntry | js/pos.js:38 | With distinct ids, the entry with an entry's id is that entry |
| Cart.SubtotalAppend | js/pos.js:121 | The subtotal of two carts laid end to end is the sum of their subtotals |
| Cart.SubtotalSplit | js/pos.js:121 | An entry between two parts of a cart adds its line total to theirs |
| Cart.SubtotalReplace | js/pos.js:121 | Replacing one entry changes the subtotal by the difference of the line totals |
| Cart.LineTotalIncrement | js/pos.js:121 | One more unit adds one price to the line total |
| Cart.SubtotalIncrement | js/pos.js:42 | One more unit of an entry adds its price to the subtotal |
| Cart.SubtotalAfterAppend | js/pos.js:48-51 | Appending an entry adds its line total |
| Cart.SubtotalAfterAdd | js/pos.js:37-56 | Adding a product not in the cart raises the subtotal by its reported price. Adding one already there raises it by the price stored in the entry when accepted, even if the search now reports another price, and leaves it when refused |
| Cart.AddNewSubtotal | js/pos.js:48-51 | Adding a product not in the cart adds its price |
| Cart.AddIncSubtotal | js/pos.js:41-42 | Adding one more unit of an entry adds the price stored in the entry |
| Cart.SubtotalAfterRemove | js/pos.js:58-61 | Removing an entry takes its line total off the subtotal |
| Cart.SubtotalSplice | js/pos.js:121 | Leaving one entry out takes its line total off the subtotal |
| Cart.Subtotal | js/pos.js:121 | Non-negative prices and quantities give a non-negative subtotal |
| Cart.Summary | js/pos.js:120-123 | The summary's subtotal is the cart's; tax is 16% of it and the total 116% of it; an empty cart gives zeros |
| Cart.SummaryExample | js/pos.js:120-123 | 2 × 50.00 + 1 × 100.00 gives 200.00, 32.00 tax, 232.00 total |
| Checkout.ItemValues | js/pos.js:181-185 | The decoded items are the payload's items, one for one |
| Checkout.BodyFields | js/pos.js:174-194 | The decoded body's fields are the payload's |
| Checkout.ItemFields | js/pos.js:182-184 | A decoded item's id, cantidad and precio are the item's |
| Checkout.ItemRefers | pages/api.php:63-72 | A decoded item names exactly the product with its id, and SQL reads its quantity |
| Checkout.QuantityForNone | pages/api.php:57-73 | Items none of which name a product order none of it |
| Checkout.QuantityForOne | pages/api.php:57-73 | Items only one of which names a product order that item's quantity of it |
| Checkout.CheckoutHeader | js/pos.js:174-180 | The order recorded for a checkout has the selected customer, employee 1, the chosen payment, the cart's totals, and 'fisica'/'pagado' |
| Checkout.CheckoutDetails | js/pos.js:181-185 | A checkout records one detail row per cart entry, in cart order, with its product, quantity and price |
| Checkout.CheckoutItems | js/pos.js:181-194 | The items a checkout posts are the cart's entries in order |
| Checkout.CartItemsRefer | js/pos.js:181-185 | With distinct ids, only an entry's own item names its product |
| Checkout.CartQuantityFor | pages/api.php:57-73 | With distinct ids, a cart's items order each product exactly its entry's quantity |
| Checkout.CheckoutStock | pages/api.php:57-74 | Selling a well-formed cart lowers each product's stock by exactly its entry's quantity, with no lower bound |
| Pos.Terminal.constructor | js/pos.js:3-5 | The screen starts with an empty cart, no payment and zero totals, and with the customer the selector lists first (customers sorted by name, none marked selected) |
| Pos.Terminal.UpdateSummary | js/pos.js:120-128 | The totals shown become the cart's subtotal, tax and total; nothing else changes |
| Pos.Terminal.AddToCart | js/pos.js:37-56 | The cart becomes `Added` of the old cart; the add is refused exactly when `AddRefused` holds; payment and customer stay; the invariant is kept |
| Pos.Terminal.RemoveFromCart | js/pos.js:58-62 | The cart becomes the old one without the id's entries, exactly those |
| Pos.Terminal.UpdateQuantity | js/pos.js:64-79 | The cart becomes `QuantityUpdated` of the old cart; a refusal changes nothing |
| Pos.Terminal.SelectPayment | js/pos.js:130-132 | Stores the method and payment id; nothing else changes |
| Pos.Terminal.SelectCustomer | js/pos.js:229-230 | Stores the customer; nothing else changes |
| Pos.Terminal.ClearCart | js/pos.js:144-157 | A confirmed clear of a non-empty cart empties it and forgets the payment; an empty cart or a declined confirmation changes nothing |
| Pos.Terminal.ProcessCheckout | js/pos.js:159-218 | The request is `CheckoutRequest` of the old state. After a sent and accepted sale, the cart, payment and customer reset; otherwise nothing changes |

## Left out

- `search_product` and `get_customers` (pages/api.php:12-34) answer `Ok(Listing)`. Their SQL `LIKE` search, `LIMIT 10` and row contents are not modelled.
- The product search box (js/pos.js:8-35) is not modelled; `AddToCart` takes the product as it would build it. `parseFloat`/`parseInt` of the reported price and stock, and a NaN stock, are not modelled.
- `renderCart`, `formatCurrency`, notifications, button styling and the customer modal are DOM output and are not modelled.
- The `confirm` dialog is the `confirmed` parameter of `ClearCart`. The server's answer to a checkout is the `accepted` parameter of `ProcessCheckout`; a failed request counts as not accepted.
- JSON encoding and decoding, HTTP and `fetch` are not modelled. The endpoint takes the decoded body as a `Value` and the query string as a map.
- JavaScript floating-point rounding of money is not modelled: prices, totals and tax are exact reals.
- `password_hash` internals are not modelled. A hash is its password plus a random salt, and `password_verify` accepts exactly that password.
- The database schema's own checks are not modelled: foreign keys, NOT NULL columns and column types. A statement they reject is one the `fails` oracle marks as failing.
- Read queries are assumed to succeed, and a failed connection is not modelled.
- Concurrent requests and stock races are not modelled; every call runs alone.
- MySQL's case-insensitive collation for sku and email comparisons is not modelled; values compare exactly.
- MySQL's lenient string-to-number conversion is not modelled. Only JSON numbers and plain digit strings are read as numbers, so an id like "5abc" selects no row.
- PhpValues.BelowZero: reads only plain and negated digit strings as numbers. Other numeric strings such as "1e3" or " 5" compare with 0 as strings.
- PhpValues.Elements: the source iterates a JSON object's values, since the body is decoded into arrays; the model iterates nothing for an object, because a Dafny map has no order to iterate in.
- Api.Database.ProcessSale: does not advance the order counter when the header insert fails; whether InnoDB consumes an id then depends on server settings.
- Api.Database.CreateProduct: leaves the product id counter unchanged when the INSERT fails, although InnoDB usually consumes an AUTO_INCREMENT value then.
- Api.Database.CreateUser: leaves the employee id counter unchanged when the INSERT fails, although InnoDB usually consumes an AUTO_INCREMENT value then.
- Api.Database.CreateSupplier: leaves the supplier id counter unchanged when the INSERT fails, although InnoDB usually consumes an AUTO_INCREMENT value then.
- Api.Database.ReadAction: states only the kind of row a get action returns; the exact row is in the contracts of `GetProduct`, `GetUser` and `GetSupplier`.
- The customer selector's options (pages/pos.php:32, 81-87) are not modelled; the terminal is constructed with the customer the selector shows first.
- Array or object values in request fields other than a password are bound as they were decoded; PDO's conversion of them to the string "Array" is not modelled.
- The HTML pages, the dashboard, `js/inventory.js`, `js/users.js`, `js/suppliers.js`, `includes/db.php`'s connection setup and `index.php` are not part of this model.
- Stock is kept non-negative only by `adjust_stock`, which refuses a negative value (pages/api.php:170-172). `process_sale` has no sufficiency check (pages/api.php:68), so a sale can take stock below zero; `Store.StockCanGoNegative` shows it.
