/**
  The two models of sales/models.py as objects: their save methods
  overwrite fields of the instance (the generated order id; the item's
  subtotal and profit) and then persist the instance's row.
 */
module Sales {
  import opened Results
  import opened Money
  import opened Inventory
  import opened SaleRecords
  import opened Persistence

  /** A complete POS transaction: the receipt header. */
  class Sale {
    var pk: Option<SaleId>
    var orderId: string
    var cashier: UserId
    var subtotal: Cents
    var tax: Cents
    var total: Cents
    var profit: Cents
    var paymentMethod: PaymentMethod
    var notes: string

    /** An unsaved sale; order id, profit and notes default to "", 0.00 and "". */
    constructor (cashier: UserId, subtotal: Cents, tax: Cents, total: Cents,
                 paymentMethod: PaymentMethod,
                 orderId: string := "", profit: Cents := 0, notes: string := "")
      ensures pk == None
      ensures this.orderId == orderId && this.cashier == cashier
      ensures this.subtotal == subtotal && this.tax == tax && this.total == total
      ensures this.profit == profit && this.paymentMethod == paymentMethod && this.notes == notes
    {
      this.pk := None;
      this.orderId := orderId;
      this.cashier := cashier;
      this.subtotal := subtotal;
      this.tax := tax;
      this.total := total;
      this.profit := profit;
      this.paymentMethod := paymentMethod;
      this.notes := notes;
    }

    /** The row this instance persists as. */
    function Row(): SaleRow
      reads this
    {
      SaleRow(orderId, cashier, subtotal, tax, total, profit, paymentMethod, notes)
    }

    /**
      Sale.save: fills in a generated order id only when none is present,
      then writes the row. `uuidHex` stands for the uuid4 value drawn for
      the id. The order id stays on the instance even when the write fails.
     */
    method Save(db: Store, uuidHex: string) returns (r: Result<SaleId, DbError>)
      requires db.Valid()
      requires IsUuidHex(uuidHex)
      modifies this, db
      ensures db.Valid()
      ensures orderId == SavedOrderId(old(orderId), uuidHex)
      ensures cashier == old(cashier) && subtotal == old(subtotal) && tax == old(tax)
      ensures total == old(total) && profit == old(profit)
      ensures paymentMethod == old(paymentMethod) && notes == old(notes)
      ensures r.Ok? <==> cashier in old(db.users) && !OrderIdTaken(old(db.sales), orderId, old(pk))
      ensures r.Ok? ==> (pk == Some(r.value) && r.value == TargetKey(old(pk), old(db.nextSaleId)) &&
                         db.sales == old(db.sales)[r.value := Row()])
      ensures r.Err? ==> r.error == IntegrityError && pk == old(pk) && unchanged(db)
      ensures db.users == old(db.users) && db.products == old(db.products)
      ensures db.receipts == old(db.receipts) && db.items == old(db.items)
      ensures db.nextItemId == old(db.nextItemId)
      ensures forall s :: db.SaleItems(s) == old(db.SaleItems(s))
    {
      if orderId == "" {
        orderId := GeneratedOrderId(uuidHex);
      }
      r := db.PutSale(pk, Row());
      if r.Ok? {
        pk := Some(r.value);
      }
    }
  }

  /** One line of a sale, with the unit price and cost snapshotted at sale time. */
  class SaleItem {
    var pk: Option<ItemId>
    var sale: SaleId
    var product: ProductId
    var quantity: nat
    var unitPrice: Cents
    var unitCost: Cents
    /** None stands for a field never assigned. */
    var subtotal: Option<Cents>
    var profit: Option<Cents>

    /** An unsaved item; subtotal and profit may be supplied or left for save to fill in. */
    constructor (sale: SaleId, product: ProductId, quantity: nat, unitPrice: Cents, unitCost: Cents,
                 subtotal: Option<Cents> := None, profit: Option<Cents> := None)
      ensures pk == None
      ensures this.sale == sale && this.product == product && this.quantity == quantity
      ensures this.unitPrice == unitPrice && this.unitCost == unitCost
      ensures this.subtotal == subtotal && this.profit == profit
    {
      this.pk := None;
      this.sale := sale;
      this.product := product;
      this.quantity := quantity;
      this.unitPrice := unitPrice;
      this.unitCost := unitCost;
      this.subtotal := subtotal;
      this.profit := profit;
    }

    /** The row this instance persists as, once both derived fields are filled in. */
    function Row(): ItemRow
      reads this
      requires subtotal.Some? && profit.Some?
    {
      ItemRow(sale, product, quantity, unitPrice, unitCost, subtotal.value, profit.value)
    }

    /**
      SaleItem.save: fills in subtotal = unit_price x quantity and
      profit = (unit_price - unit_cost) x quantity where they are unset or
      zero, then writes the row. The snapshots and the quantity are never
      touched.
     */
    method Save(db: Store) returns (r: Result<ItemId, DbError>)
      requires db.Valid()
      modifies this, db
      ensures db.Valid()
      ensures subtotal == Some(Defaulted(old(subtotal), LineSubtotal(unitPrice, quantity)))
      ensures profit == Some(Defaulted(old(profit), LineProfit(unitPrice, unitCost, quantity)))
      ensures sale == old(sale) && product == old(product) && quantity == old(quantity)
      ensures unitPrice == old(unitPrice) && unitCost == old(unitCost)
      ensures r.Ok? <==> sale in old(db.sales) && product in old(db.products)
      ensures r.Ok? ==> (pk == Some(r.value) && r.value == TargetKey(old(pk), old(db.nextItemId)) &&
                         db.items == old(db.items)[r.value := Row()])
      ensures r.Ok? ==> db.nextItemId == if r.value < old(db.nextItemId) then old(db.nextItemId) else r.value + 1
      ensures r.Ok? && old(pk) == None ==>
        forall s :: db.SaleItems(s) == old(db.SaleItems(s)) + (if s == sale then [Row()] else [])
      ensures r.Err? ==> r.error == IntegrityError && pk == old(pk) && unchanged(db)
      ensures db.users == old(db.users) && db.products == old(db.products)
      ensures db.receipts == old(db.receipts) && db.sales == old(db.sales)
    {
      if !IsTruthy(subtotal) {
        subtotal := Some(LineSubtotal(unitPrice, quantity));
      }
      if !IsTruthy(profit) {
        profit := Some(LineProfit(unitPrice, unitCost, quantity));
      }
      r := db.PutItem(pk, Row());
      if r.Ok? {
        pk := Some(r.value);
      }
    }
  }

  /**
    The docstring's snapshot promise, traced through the model's operations: a product at
    18.00 (cost 10.00) sold twice gives an item of 36.00 with 16.00 profit;
    raising the product's price to 25.00 afterwards leaves the item as it was.
   */
  method PriceChangeAfterSale(uuidHex: string) returns (item: ItemRow, now: Product, orderId: string)
    requires IsUuidHex(uuidHex)
    ensures item.unitPrice == 1800 && item.unitCost == 1000 && item.quantity == 2
    ensures item.subtotal == 3600 && item.profit == 1600
    ensures now.sellingPrice == 2500
    ensures IsOrderIdFormat(orderId)
  {
    var cashier: UserId := 7;
    var db := new Store({cashier});
    var lipstick := Product("LIP-001", "Velvet Lipstick", "Cosmo", Lips, "", 1000, 1800, 5);
    var pr := db.PutProduct(None, lipstick);
    var sale := new Sale(cashier, 3600, 0, 3600, Cash);
    var sr := sale.Save(db, uuidHex);
    var line := new SaleItem(sr.value, pr.value, 2, lipstick.sellingPrice, lipstick.costPrice);
    var ir := line.Save(db);
    var repriced := db.PutProduct(Some(pr.value), lipstick.(sellingPrice := 2500));
    item, now, orderId := db.items[ir.value], db.products[pr.value], sale.orderId;
  }
}
