/**
  The database the two model files persist into: four tables (products,
  stock_receipts, sales, sale_items) plus the principals of the user
  model, with the constraints the models declare: unique sku, unique
  order_id, foreign keys that PROTECT, and the one CASCADE from a sale to
  its items.
 */
module Persistence {
  import opened Results
  import opened Money
  import opened Inventory
  import opened SaleRecords

  // ---------------------------------------------------------------------
  // Table constraints, as predicates on the table contents

  predicate UniqueSkus(products: map<ProductId, Product>) {
    forall a, b :: a in products && b in products && products[a].sku == products[b].sku ==> a == b
  }

  predicate UniqueOrderIds(sales: map<SaleId, SaleRow>) {
    forall a, b :: a in sales && b in sales && sales[a].orderId == sales[b].orderId ==> a == b
  }

  /** Some product other than row `except` already has this sku. */
  predicate SkuTaken(products: map<ProductId, Product>, sku: string, except: Option<ProductId>) {
    exists k :: k in products && products[k].sku == sku && except != Some(k)
  }

  /** Some sale other than row `except` already has this order id. */
  predicate OrderIdTaken(sales: map<SaleId, SaleRow>, orderId: string, except: Option<SaleId>) {
    exists k :: k in sales && sales[k].orderId == orderId && except != Some(k)
  }

  predicate ReceiptsIntact(receipts: seq<StockReceipt>, products: map<ProductId, Product>, users: set<UserId>) {
    forall i :: 0 <= i < |receipts| ==> receipts[i].product in products && receipts[i].receivedBy in users
  }

  predicate SalesIntact(sales: map<SaleId, SaleRow>, users: set<UserId>) {
    forall k :: k in sales ==> sales[k].cashier in users
  }

  predicate ItemsIntact(items: map<ItemId, ItemRow>, sales: map<SaleId, SaleRow>, products: map<ProductId, Product>) {
    forall k :: k in items ==> items[k].sale in sales && items[k].product in products
  }

  /** A receipt or a sale item still refers to the product: deleting it is refused. */
  predicate ProductReferenced(receipts: seq<StockReceipt>, items: map<ItemId, ItemRow>, pid: ProductId) {
    || (exists i :: 0 <= i < |receipts| && receipts[i].product == pid)
    || (exists k :: k in items && items[k].product == pid)
  }

  /** A receipt or a sale still refers to the principal: deleting it is refused. */
  predicate UserReferenced(receipts: seq<StockReceipt>, sales: map<SaleId, SaleRow>, u: UserId) {
    || (exists i :: 0 <= i < |receipts| && receipts[i].receivedBy == u)
    || (exists k :: k in sales && sales[k].cashier == u)
  }

  /** The row a save writes to: the instance's own key, or the next free one. */
  function TargetKey(pk: Option<nat>, next: nat): nat {
    if pk.Some? then pk.value else next
  }

  /** The items table without the rows of sale `sid`: the CASCADE. */
  function WithoutItemsOf(items: map<ItemId, ItemRow>, sid: SaleId): map<ItemId, ItemRow> {
    map k | k in items && items[k].sale != sid :: items[k]
  }

  /**
    The cascade seen through item lists: after removing sale `sid`'s rows
    it has no items, and every other sale keeps exactly its items.
   */
  lemma WithoutItemsOfCascade(items: map<ItemId, ItemRow>, sid: SaleId, n: nat)
    ensures ItemsOf(WithoutItemsOf(items, sid), sid, n) == []
    ensures forall s :: s != sid ==> ItemsOf(WithoutItemsOf(items, sid), s, n) == ItemsOf(items, s, n)
  {
    var kept := WithoutItemsOf(items, sid);
    ItemsOfNone(kept, sid, n);
    forall s | s != sid
      ensures ItemsOf(kept, s, n) == ItemsOf(items, s, n)
    {
      ItemsOfFrame(kept, items, s, n);
    }
  }

  /** Writing a product whose sku nobody else has keeps skus unique. */
  lemma PutKeepsSkusUnique(products: map<ProductId, Product>, key: ProductId, pk: Option<ProductId>, p: Product)
    requires UniqueSkus(products)
    requires !SkuTaken(products, p.sku, pk)
    requires pk.Some? ==> key == pk.value
    requires pk.None? ==> key !in products
    ensures UniqueSkus(products[key := p])
  {
  }

  /** Writing a sale whose order id nobody else has keeps order ids unique. */
  lemma PutKeepsOrderIdsUnique(sales: map<SaleId, SaleRow>, key: SaleId, pk: Option<SaleId>, s: SaleRow)
    requires UniqueOrderIds(sales)
    requires !OrderIdTaken(sales, s.orderId, pk)
    requires pk.Some? ==> key == pk.value
    requires pk.None? ==> key !in sales
    ensures UniqueOrderIds(sales[key := s])
  {
  }

  class Store {
    var users: set<UserId>
    var products: map<ProductId, Product>
    /** The receiving ledger; a receipt's id is its position. */
    var receipts: seq<StockReceipt>
    var sales: map<SaleId, SaleRow>
    var items: map<ItemId, ItemRow>
    var nextProductId: nat
    var nextSaleId: nat
    var nextItemId: nat

    /** Unique skus and order ids, and no reference to a missing row. */
    ghost predicate Valid()
      reads this
    {
      && (forall k :: k in products ==> k < nextProductId)
      && (forall k :: k in sales ==> k < nextSaleId)
      && (forall k :: k in items ==> k < nextItemId)
      && UniqueSkus(products)
      && UniqueOrderIds(sales)
      && ReceiptsIntact(receipts, products, users)
      && SalesIntact(sales, users)
      && ItemsIntact(items, sales, products)
    }

    /** The items of sale `sid` in id order. */
    function SaleItems(sid: SaleId): seq<ItemRow>
      reads this
    {
      ItemsOf(items, sid, nextItemId)
    }

    constructor (principals: set<UserId>)
      ensures Valid()
      ensures users == principals
      ensures products == map[] && receipts == [] && sales == map[] && items == map[]
    {
      users := principals;
      products := map[];
      receipts := [];
      sales := map[];
      items := map[];
      nextProductId, nextSaleId, nextItemId := 0, 0, 0;
    }

    /**
      Product.save: insert (no key yet) or overwrite the product's row.
      Sale items keep their own price snapshots whatever the product
      becomes.
     */
    method PutProduct(pk: Option<ProductId>, p: Product) returns (r: Result<ProductId, DbError>)
      requires Valid()
      modifies this
      ensures Valid()
      ensures r.Ok? <==> !SkuTaken(old(products), p.sku, pk)
      ensures r.Err? ==> r.error == IntegrityError && unchanged(this)
      ensures r.Ok? ==> (r.value == TargetKey(pk, old(nextProductId)) &&
                         products == old(products)[r.value := p])
      ensures users == old(users) && receipts == old(receipts)
      ensures sales == old(sales) && items == old(items)
      ensures nextItemId == old(nextItemId)
      ensures forall s :: SaleItems(s) == old(SaleItems(s))
    {
      if SkuTaken(products, p.sku, pk) {
        return Err(IntegrityError);
      }
      var key := TargetKey(pk, nextProductId);
      PutKeepsSkusUnique(products, key, pk, p);
      products := products[key := p];
      if key >= nextProductId {
        nextProductId := key + 1;
      }
      r := Ok(key);
    }

    /**
      The documented receiving flow: the receipt is written to the ledger
      and the product's stock increases by its quantity, all or nothing.
      Checking the receipt's field validators first is a choice of this
      model (the checks full_clean or a serializer would apply); the
      documented flow itself does not validate.
     */
    method RecordReceipt(product: ProductId, quantity: int, costPriceAtReceipt: Cents,
                         supplierName: string, supplierNotes: string,
                         receivedBy: UserId, receivedAt: Timestamp)
      returns (r: Result<nat, DbError>)
      requires Valid()
      modifies this
      ensures Valid()
      ensures r.Err? ==> unchanged(this)
      ensures r == Err(ValidationError) <==>
        !(quantity >= 1 && ValidPrice(costPriceAtReceipt) && |supplierName| <= SupplierNameMaxLength)
      ensures r.Ok? <==>
        && quantity >= 1 && ValidPrice(costPriceAtReceipt) && |supplierName| <= SupplierNameMaxLength
        && product in old(products) && receivedBy in old(users)
      ensures r.Ok? ==>
        && r.value == |old(receipts)|
        && receipts == old(receipts) + [StockReceipt(product, quantity, costPriceAtReceipt,
                                                    supplierName, supplierNotes, receivedBy, receivedAt)]
        && products == old(products)[product := Receive(old(products)[product], quantity)]
        && ReceivedQuantity(receipts, product) == ReceivedQuantity(old(receipts), product) + quantity
        && (forall pid :: pid != product ==>
              ReceivedQuantity(receipts, pid) == ReceivedQuantity(old(receipts), pid))
      ensures users == old(users) && sales == old(sales) && items == old(items)
      ensures nextItemId == old(nextItemId)
      ensures forall s :: SaleItems(s) == old(SaleItems(s))
    {
      if !(quantity >= 1 && ValidPrice(costPriceAtReceipt) && |supplierName| <= SupplierNameMaxLength) {
        return Err(ValidationError);
      }
      if product !in products || receivedBy !in users {
        return Err(DoesNotExist);
      }
      var receipt := StockReceipt(product, quantity, costPriceAtReceipt,
                                  supplierName, supplierNotes, receivedBy, receivedAt);
      assert ValidReceipt(receipt);
      var p := products[product];
      PutKeepsSkusUnique(products, product, Some(product), Receive(p, quantity));
      forall pid
        ensures ReceivedQuantity(receipts + [receipt], pid)
             == ReceivedQuantity(receipts, pid) + (if pid == product then quantity else 0)
      {
        ReceivedQuantityAppend(receipts, receipt, pid);
      }
      r := Ok(|receipts|);
      receipts := receipts + [receipt];
      products := products[product := Receive(p, quantity)];
    }

    /** Writes a sale row (the persisting half of Sale.save). */
    method PutSale(pk: Option<SaleId>, row: SaleRow) returns (r: Result<SaleId, DbError>)
      requires Valid()
      modifies this
      ensures Valid()
      ensures r.Ok? <==> row.cashier in old(users) && !OrderIdTaken(old(sales), row.orderId, pk)
      ensures r.Err? ==> r.error == IntegrityError && unchanged(this)
      ensures r.Ok? ==> (r.value == TargetKey(pk, old(nextSaleId)) &&
                         sales == old(sales)[r.value := row])
      ensures users == old(users) && products == old(products) && receipts == old(receipts)
      ensures items == old(items) && nextItemId == old(nextItemId)
    {
      if row.cashier !in users || OrderIdTaken(sales, row.orderId, pk) {
        return Err(IntegrityError);
      }
      var key := TargetKey(pk, nextSaleId);
      PutKeepsOrderIdsUnique(sales, key, pk, row);
      sales := sales[key := row];
      if key >= nextSaleId {
        nextSaleId := key + 1;
      }
      r := Ok(key);
    }

    /** Writes a sale item row (the persisting half of SaleItem.save). */
    method PutItem(pk: Option<ItemId>, row: ItemRow) returns (r: Result<ItemId, DbError>)
      requires Valid()
      modifies this
      ensures Valid()
      ensures r.Ok? <==> row.sale in old(sales) && row.product in old(products)
      ensures r.Err? ==> r.error == IntegrityError && unchanged(this)
      ensures r.Ok? ==> (r.value == TargetKey(pk, old(nextItemId)) &&
                         items == old(items)[r.value := row])
      ensures r.Ok? ==> nextItemId == if r.value < old(nextItemId) then old(nextItemId) else r.value + 1
      ensures r.Ok? && pk.None? ==>
        forall sid :: SaleItems(sid) == old(SaleItems(sid)) + (if row.sale == sid then [row] else [])
      ensures users == old(users) && products == old(products) && receipts == old(receipts)
      ensures sales == old(sales)
    {
      if row.sale !in sales || row.product !in products {
        return Err(IntegrityError);
      }
      var key := TargetKey(pk, nextItemId);
      if pk.None? {
        forall sid
          ensures ItemsOf(items[key := row], sid, key + 1)
               == ItemsOf(items, sid, key) + (if row.sale == sid then [row] else [])
        {
          ItemsOfInsert(items, key, row, sid);
        }
      }
      items := items[key := row];
      if key >= nextItemId {
        nextItemId := key + 1;
      }
      r := Ok(key);
    }

    /** Product.delete: refused while a receipt or a sale item refers to the product. */
    method DeleteProduct(pid: ProductId) returns (r: Result<(), DbError>)
      requires Valid()
      modifies this
      ensures Valid()
      ensures r.Err? <==> ProductReferenced(old(receipts), old(items), pid)
      ensures r.Err? ==> r.error == ProtectedError && unchanged(this)
      ensures r.Ok? ==> products == old(products) - {pid}
      ensures users == old(users) && receipts == old(receipts)
      ensures sales == old(sales) && items == old(items)
      ensures nextItemId == old(nextItemId)
      ensures forall s :: SaleItems(s) == old(SaleItems(s))
    {
      if ProductReferenced(receipts, items, pid) {
        return Err(ProtectedError);
      }
      products := products - {pid};
      r := Ok(());
    }

    /** Sale.delete: always allowed, and takes the sale's items with it. */
    method DeleteSale(sid: SaleId)
      requires Valid()
      modifies this
      ensures Valid()
      ensures sales == old(sales) - {sid}
      ensures items == WithoutItemsOf(old(items), sid)
      ensures SaleItems(sid) == []
      ensures forall s :: s != sid ==> SaleItems(s) == old(SaleItems(s))
      ensures users == old(users) && products == old(products) && receipts == old(receipts)
      ensures nextItemId == old(nextItemId)
    {
      WithoutItemsOfCascade(items, sid, nextItemId);
      items := WithoutItemsOf(items, sid);
      sales := sales - {sid};
    }

    /** Deleting a principal: refused while a receipt or a sale refers to it. */
    method DeleteUser(u: UserId) returns (r: Result<(), DbError>)
      requires Valid()
      modifies this
      ensures Valid()
      ensures r.Err? <==> UserReferenced(old(receipts), old(sales), u)
      ensures r.Err? ==> r.error == ProtectedError && unchanged(this)
      ensures r.Ok? ==> users == old(users) - {u}
      ensures products == old(products) && receipts == old(receipts)
      ensures sales == old(sales) && items == old(items)
      ensures nextItemId == old(nextItemId)
      ensures forall s :: SaleItems(s) == old(SaleItems(s))
    {
      if UserReferenced(receipts, sales, u) {
        return Err(ProtectedError);
      }
      users := users - {u};
      r := Ok(());
    }
  }
}
