# CosmoShop inventory and sales records, modelled in Dafny

This project models the domain core of the CosmoShop point-of-sale backend:
the `Product` catalog entry and its `StockReceipt` shipments
(`cosmo/backend/inventory/models.py`), and the `Sale` receipt header with its
`SaleItem` lines (`cosmo/backend/sales/models.py`).

Money is exact: every `DecimalField(max_digits=10, decimal_places=2)` amount
is a whole number of cents (`Money.Cents`), so `Decimal('18.00')` is `1800`
and the valid prices are the integers 1 to 9 999 999 999.

Modules, leaf to root:

- `Money` (`money.dfy`): cents, the digit bound and the minimum-value validators.
- `Results` (`results.dfy`): `Result` and the database errors (`ValidationError`,
  `DoesNotExist`, `IntegrityError`, `ProtectedError`).
- `Inventory` (`inventory.dfy`): `Product` with its defaults (stock 0, threshold 10,
  active), `NeedsRestock`, `ProfitPerUnit`, `ProfitPercentage`, `StockReceipt`,
  and the documented stock increase `Receive`. These are pure, like the source.
- `SaleRecords` (`sale_records.dfy`): the stored rows of a sale and an item, the
  generated `#ORD-XXXXXXXX` order id, the truthiness-based defaulting that
  `SaleItem.save` performs, and the documented aggregates (a sale's subtotal
  is the sum of its items; total = subtotal + tax).
- `Persistence` (`persistence.dfy`): a `Store` class holding the four tables and the
  principals. It enforces unique `sku`, unique `order_id`, foreign keys that
  PROTECT products and users, and the CASCADE from a sale to its items.
  `RecordReceipt` is the documented receiving flow.
- `Sales` (`sales.dfy`): `Sale` and `SaleItem` as classes. Their `Save` methods
  overwrite fields of the instance and then write its row, as the source's
  `save` overrides do.

The store's invariant `Store.Valid()` holds: no dangling reference, unique
skus and order ids, every key below its table's counter. Stock counters are
natural numbers, because the source uses `PositiveIntegerField`. Every
state-changing method keeps the invariant and states the new content of
every table. A failed write changes nothing.

The model follows the code as written, also where the source's own comments or help texts suggest otherwise:

- A sale's `profit` has no lower-bound validator, so it may be negative.
- `needs_restock` uses `<=`, although the field's help text says "falls below".
- The generated order id is `#ORD-` plus 8 upper-case hex digits. A comment in
  `save` shows a different sample format (`#ORD-2024-893`).
- Saving a sale whose generated id is already taken fails with `IntegrityError`.
  Nothing in `save` retries.
- The aggregate rule is only documented (help texts and the docstring). No
  code enforces it. It is stated as `SaleRecords.TotalsConsistent`, with lemmas
  about it; no operation here maintains it.

## Model

| member | source | states |
|---|---|---|
| `Money.MaxCentsIsTenDigits` | cosmo/backend/inventory/models.py:51-62 | the largest amount is 10^10 - 1 cents: 10 digits, 2 of them after the point |
| `Inventory.ValidProduct` | cosmo/backend/inventory/models.py:29-62 | what the product's validators accept: sku, name and brand non-blank within 50, 200 and 100 characters; both prices at least 0.01 and within 10 digits |
| `Inventory.NeedsRestock` | cosmo/backend/inventory/models.py:91-96 | the restock alert: stock at or below the threshold |
| `Inventory.NeedsRestockAtThreshold` | cosmo/backend/inventory/models.py:91-96 | stock equal to the threshold already needs a restock; needing one is exactly "stock not above the threshold" |
| `Inventory.NewProductNeedsRestock` | cosmo/backend/inventory/models.py:65-78 | a product built with the field defaults is active, has stock 0 and threshold 10, and so starts needing a restock |
| `Inventory.ProfitPerUnit` | cosmo/backend/inventory/models.py:98-100 | the margin is positive iff selling > cost and zero iff they are equal; for a valid product it lies strictly within the 10-digit range |
| `Inventory.ProfitPerUnitMayBeNegative` | cosmo/backend/inventory/models.py:51-62 | the validators admit a product that sells below cost, so the margin can be negative |
| `Inventory.ProfitPercentage` | cosmo/backend/inventory/models.py:102-106 | margin over cost times 100 when cost is positive, else 0, as an exact quotient |
| `Inventory.ProfitPercentageSign` | cosmo/backend/inventory/models.py:102-106 | the percentage is 0 when cost <= 0; otherwise it is positive, negative or zero exactly as the margin is, and zero iff selling == cost |
| `Inventory.ProfitPercentageAboveMinusHundred` | cosmo/backend/inventory/models.py:102-106 | for a valid product (selling >= 0.01) the percentage is above -100 |
| `Inventory.Receive` | cosmo/backend/inventory/models.py:122-127 | receiving raises the stock by exactly the quantity and changes no other field |
| `Inventory.ReceiveClearsRestock` | cosmo/backend/inventory/models.py:122-127 | receiving past the threshold clears the restock alert |
| `Inventory.ReceiveAdds` | cosmo/backend/inventory/models.py:122-127 | two receipts of a and b units equal one receipt of a + b |
| `Inventory.ValidReceipt` | cosmo/backend/inventory/models.py:134-150 | what the receipt's validators accept: quantity at least 1, cost at least 0.01 within 10 digits, supplier name within 200 characters |
| `Inventory.ReceivedQuantityAppend` | cosmo/backend/inventory/models.py:112-127 | appending a receipt to the ledger adds its quantity to its own product's received total and to no other |
| `SaleRecords.Upper` | cosmo/backend/sales/models.py:99 | upper-casing keeps the length and maps each character by ASCII upper-case |
| `SaleRecords.GeneratedOrderId` | cosmo/backend/sales/models.py:95-100 | the generated id is `#ORD-` followed by 8 upper-case hex digits, 13 characters, within max_length 20 |
| `SaleRecords.SavedOrderId` | cosmo/backend/sales/models.py:97-99 | after save the order id is non-empty; a present id is kept; an empty one is replaced by a well-formed generated id |
| `SaleRecords.GeneratedOrderIdInjective` | cosmo/backend/sales/models.py:99 | two generated ids are equal iff the first 8 digits of their uuids are, so uniqueness rests on those 32 bits alone |
| `SaleRecords.SavedOrderIdIdempotent` | cosmo/backend/sales/models.py:95-100 | saving twice yields the order id of saving once, whatever uuid the second save draws |
| `SaleRecords.ValidSaleRow` | cosmo/backend/sales/models.py:31-69 | what the sale's validators accept: order id within 20 characters, subtotal, tax and total at least 0.00, profit only within 10 digits |
| `SaleRecords.ValidItemRow` | cosmo/backend/sales/models.py:136-162 | what the item's validators accept: quantity at least 1, amounts within 10 digits |
| `SaleRecords.Defaulted` | cosmo/backend/sales/models.py:173-176 | the truthiness test of save: a supplied value that is neither None nor 0 is kept, otherwise the computed one is used |
| `SaleRecords.LineSubtotal` | cosmo/backend/sales/models.py:174 | unit price times quantity |
| `SaleRecords.LineProfit` | cosmo/backend/sales/models.py:176 | unit price less unit cost, times quantity |
| `SaleRecords.DefaultedKeepsSupplied` | cosmo/backend/sales/models.py:173-176 | None and 0 are both replaced by the computed value; any non-zero supplied value is kept, even one that disagrees |
| `SaleRecords.DefaultedIdempotent` | cosmo/backend/sales/models.py:168-177 | defaulting again with the same snapshots gives the same value |
| `SaleRecords.LineProfitMeaning` | cosmo/backend/sales/models.py:153-162 | line profit = line subtotal - unit cost x quantity; for quantity >= 1 it is positive or negative exactly as price vs cost |
| `SaleRecords.ItemsOf` | cosmo/backend/sales/models.py:125-129 | a sale's item list holds only rows of that sale that are in the table |
| `SaleRecords.TotalsConsistent` | cosmo/backend/sales/models.py:46-69 | the documented rule: subtotal is the sum of item subtotals, profit the sum of item profits, total is subtotal plus tax |
| `SaleRecords.SumSubtotalsAppend` | cosmo/backend/sales/models.py:46-51 | the item-subtotal sum is additive over concatenation |
| `SaleRecords.SumProfitsAppend` | cosmo/backend/sales/models.py:64-69 | the item-profit sum is additive over concatenation |
| `SaleRecords.AddedItemShiftsTotals` | cosmo/backend/sales/models.py:46-51 | adding an item adds its subtotal and profit to the item sums, so a header consistent with the documented rule stops being so when an item with a non-zero subtotal is added and the header is not updated |
| `SaleRecords.ComputedSubtotalsNonNegative` | cosmo/backend/sales/models.py:46-51 | items computed by save from non-negative unit prices sum to a non-negative subtotal |
| `SaleRecords.ComputedProfitIsSubtotalLessCost` | cosmo/backend/sales/models.py:64-69 | over computed items, the profit sum is the subtotal sum less the snapshot costs |
| `SaleRecords.ConsistentTotalsMeetValidators` | cosmo/backend/sales/models.py:46-63 | a header following the documented rule over such items, with a valid tax, passes every sale field validator (subtotal, tax, total >= 0.00) |
| `SaleRecords.DocumentedExample` | cosmo/backend/sales/models.py:115-119 | 2 x 18.00 = 36.00 and 36.00 + 45.00 = 81.00 satisfy the documented rule |
| `SaleRecords.ItemsOfNone` | cosmo/backend/sales/models.py:125-129 | with no row of a sale left, its item list is empty |
| `SaleRecords.ItemsOfComplete` | cosmo/backend/sales/models.py:164-166 | every row of a sale below the bound appears in its id-ordered item list |
| `SaleRecords.ItemsOfInsert` | cosmo/backend/sales/models.py:164-166 | a row added under the next id is appended to its own sale's list and leaves other sales' lists alone |
| `Persistence.WithoutItemsOfCascade` | cosmo/backend/sales/models.py:125-129 | after the cascade the deleted sale lists no items, and every other sale lists exactly the items it listed before |
| `Persistence.PutKeepsSkusUnique` | cosmo/backend/inventory/models.py:29-34 | writing a product whose sku no other row has keeps skus unique |
| `Persistence.PutKeepsOrderIdsUnique` | cosmo/backend/sales/models.py:31-36 | writing a sale whose order id no other row has keeps order ids unique |
| `Persistence.Store.Valid` | cosmo/backend/sales/models.py:31-43 | the store invariant: unique skus and order ids, every receipt, sale and item refers to an existing product, user or sale, and keys lie below their counters |
| `Persistence.Store.SaleItems` | cosmo/backend/sales/models.py:125-129 | a sale's items (related name `items`) in id order |
| `Persistence.Store.PutProduct` | cosmo/backend/inventory/models.py:29-34 | a product write fails with IntegrityError iff another row has its sku; it never touches receipts, sales or items nor any sale's item list, so sale snapshots survive price changes |
| `Persistence.Store.RecordReceipt` | cosmo/backend/inventory/models.py:122-143 | validation error iff quantity < 1, cost < 0.01 or out of range, or supplier name too long; otherwise missing product or user fails; on success the receipt is appended and that product's stock and received total both rise by the quantity; failure changes nothing; no sale's item list changes |
| `Persistence.Store.PutSale` | cosmo/backend/sales/models.py:31-43 | a sale write fails iff the cashier is unknown or another sale has the order id; on success only the sales table changes |
| `Persistence.Store.PutItem` | cosmo/backend/sales/models.py:125-138 | an item write fails iff its sale or product is missing; a new item is appended to its sale's item list |
| `Persistence.Store.DeleteProduct` | cosmo/backend/inventory/models.py:129-133 | deletion is refused with ProtectedError iff a receipt or a sale item refers to the product; no sale's item list changes |
| `Persistence.Store.DeleteSale` | cosmo/backend/sales/models.py:125-129 | deleting a sale removes its items and no others, and leaves products, receipts and users untouched |
| `Persistence.Store.DeleteUser` | cosmo/backend/inventory/models.py:157-161 | deleting a principal is refused iff a receipt or a sale refers to it; no sale's item list changes |
| `Sales.Sale.constructor` | cosmo/backend/sales/models.py:64-69 | a new sale has no key, and its order id, profit and notes default to "", 0.00 and "" |
| `Sales.Sale.Save` | cosmo/backend/sales/models.py:95-100 | the order id becomes the saved order id (kept if present, generated if empty) even if the write fails; no other field changes; the row is written iff the cashier exists and the id is free; no sale's item list changes |
| `Sales.SaleItem.constructor` | cosmo/backend/sales/models.py:136-162 | a new item has no key and may leave subtotal and profit unset |
| `Sales.SaleItem.Save` | cosmo/backend/sales/models.py:168-177 | subtotal and profit become their defaulted values; sale, product, quantity and both snapshots are unchanged; a new row is appended to its own sale's items and every other sale's list is unchanged |
| `Sales.PriceChangeAfterSale` | cosmo/backend/sales/models.py:121-122 | an item sold at 18.00 (cost 10.00) x 2 is stored as 36.00 with 16.00 profit and stays so after the product is repriced to 25.00 |

## Left out

- `Inventory.ProfitPercentage`: exact real division. Python's `Decimal` division rounds to the context precision. Rounding to significant digits keeps the sign and zero, so the sign lemmas still describe the source.
- Field validators (`MinValueValidator`, digit and length limits) run only when a model is cleaned or passed through a serializer, never in `save`. They are stated as predicates (`ValidProduct`, `ValidReceipt`, `ValidSaleRow`, `ValidItemRow`). `RecordReceipt` checks the receipt's validators before writing; that is a choice of this model (the checks `full_clean` or a serializer would apply), since the documented flow has no validation step and `StockReceipt` does not override `save`. `Store.PutProduct`, `Sale.Save` and `SaleItem.Save` do not. So the store can hold a sale item of quantity 0 or a product priced 0.00, as the source's database can.
- `Category` and `PaymentMethod` are closed datatypes. In the source, `choices` are checked only by `full_clean`, and a choice field given no value saves as "", so the source's database can hold a sale with `payment_method` "" or a product with category ""; this model cannot.
- Fields without defaults are mandatory constructor arguments: a sale item's `quantity`, `unit_price` and `unit_cost`, and a sale's `subtotal`, `tax` and `total`. So two error paths are not modelled: the `TypeError` `SaleItem.save` raises when `unit_price` or `quantity` is None, and the NOT NULL `IntegrityError` the database raises when such a field is missing on save.
- Database column widths (10 digits, `max_length`) are not enforced on write: these checks are not modelled. SQLite, the configured backend, does not enforce `max_length`; whether a decimal wider than 10 digits is refused on save depends on the Django version, which the source does not pin.
- `Persistence.Store.RecordReceipt`: the source only documents this flow in a docstring (the view performing it is not part of this model). It is modelled as one all-or-nothing step.
- The randomness of `uuid.uuid4()`: the 32 hex digits are a parameter of `Sale.Save`. Uniqueness is not probabilistic here. A collision fails with `IntegrityError` from the unique index.
- Django ORM mechanics: `Meta` ordering and indexes except the id order of items, `db_table`, `auto_now`/`auto_now_add` timestamps (an opaque `Timestamp` parameter), `ImageField` uploads, `__str__` formatting, `created_at`/`updated_at`.
- The `PositiveIntegerField` upper bound (2147483647) is not modelled. Stock counters are unbounded naturals.
- The user model: principals are opaque ids in `Store.users`. Role checks are not modelled. Only the PROTECT references from receipts and sales are.
- The sale-creation workflow (stock check, stock decrement, tax policy, atomic commit of a header and its items) is not part of the source files modelled here. `SaleRecords.TotalsConsistent` states the documented aggregate rule without an operation that establishes it.
- Deleting a stock receipt or a single sale item: the source places no rule on either, and neither is modelled.
- Concurrency and transaction isolation: the model is sequential.
