/**
  The catalog and the receiving records of inventory/models.py: Product, its
  three derived quantities, and StockReceipt with the stock increase its
  docstring documents.
 */
module Inventory {
  import opened Money

  type ProductId = nat
  /** An authenticated principal (the user model is not part of this model). */
  type UserId = nat
  /** An opaque auto_now_add timestamp. */
  type Timestamp = int

  datatype Category = Lips | Eyes | Face | Skincare | Accessories

  const SkuMaxLength: nat := 50
  const NameMaxLength: nat := 200
  const BrandMaxLength: nat := 100
  const SupplierNameMaxLength: nat := 200

  /**
    A product row. The defaults are the field defaults of the source:
    stock 0, restock threshold 10, active. The two counters are natural
    numbers because both are PositiveIntegerFields, which the database
    keeps non-negative.
   */
  datatype Product = Product(
    sku: string,
    name: string,
    brand: string,
    category: Category,
    description: string,
    costPrice: Cents,
    sellingPrice: Cents,
    stockQuantity: nat := 0,
    restockThreshold: nat := 10,
    isActive: bool := true)

  /** What the field validators accept: non-blank bounded strings and two prices of at least 0.01. */
  predicate ValidProduct(p: Product) {
    && 1 <= |p.sku| <= SkuMaxLength
    && 1 <= |p.name| <= NameMaxLength
    && 1 <= |p.brand| <= BrandMaxLength
    && ValidPrice(p.costPrice)
    && ValidPrice(p.sellingPrice)
  }

  /** The dashboard alert: stock at or below the threshold. */
  predicate NeedsRestock(p: Product) {
    p.stockQuantity <= p.restockThreshold
  }

  /** Margin per unit; nothing forces the selling price above the cost, so it may be negative. */
  function ProfitPerUnit(p: Product): (r: Cents)
    ensures r > 0 <==> p.sellingPrice > p.costPrice
    ensures r == 0 <==> p.sellingPrice == p.costPrice
    ensures ValidProduct(p) ==> -MaxCents < r < MaxCents
  {
    p.sellingPrice - p.costPrice
  }

  /**
    Profit as a percentage of cost, or 0 when the cost is not positive.
    The source divides Decimals, which rounds to the context precision;
    this is the exact quotient.
   */
  function ProfitPercentage(p: Product): real {
    if p.costPrice > 0 then (ProfitPerUnit(p) as real / p.costPrice as real) * 100.0 else 0.0
  }

  /** Step 4 of the documented receiving flow: stock grows by the received quantity. */
  function Receive(p: Product, quantity: nat): (q: Product)
    ensures q.stockQuantity - p.stockQuantity == quantity
    ensures q.(stockQuantity := p.stockQuantity) == p
  {
    p.(stockQuantity := p.stockQuantity + quantity)
  }

  /** An incoming shipment. */
  datatype StockReceipt = StockReceipt(
    product: ProductId,
    quantity: nat,
    costPriceAtReceipt: Cents,
    supplierName: string,
    supplierNotes: string,
    receivedBy: UserId,
    receivedAt: Timestamp)

  /** What the receipt's field validators accept. */
  predicate ValidReceipt(r: StockReceipt) {
    && r.quantity >= 1
    && ValidPrice(r.costPriceAtReceipt)
    && |r.supplierName| <= SupplierNameMaxLength
  }

  /** Total quantity the receipts in `rs` brought in for product `pid`. */
  function ReceivedQuantity(rs: seq<StockReceipt>, pid: ProductId): nat {
    if rs == [] then 0
    else (if rs[0].product == pid then rs[0].quantity else 0) + ReceivedQuantity(rs[1..], pid)
  }

  // ---------------------------------------------------------------------
  // Properties of the derived quantities

  /** Stock equal to the threshold already counts as needing a restock. */
  lemma NeedsRestockAtThreshold(p: Product)
    ensures p.stockQuantity == p.restockThreshold ==> NeedsRestock(p)
  {
  }

  /** A product created with the default counters starts active and needing a restock. */
  lemma NewProductNeedsRestock(sku: string, name: string, brand: string, category: Category,
                               description: string, cost: Cents, price: Cents)
    ensures var p := Product(sku, name, brand, category, description, cost, price);
      p.isActive && p.stockQuantity == 0 && p.restockThreshold == 10 && NeedsRestock(p)
  {
  }

  /** The validators admit products that sell below cost. */
  lemma ProfitPerUnitMayBeNegative()
    ensures exists p :: ValidProduct(p) && ProfitPerUnit(p) < 0
  {
    var p := Product("LIP-001", "Velvet Lipstick", "Cosmo", Lips, "", 1800, 1000);
    assert ValidProduct(p) && ProfitPerUnit(p) < 0;
  }

  /** The percentage has the sign of the margin, and is 0 when the cost is not positive. */
  lemma ProfitPercentageSign(p: Product)
    ensures p.costPrice <= 0 ==> ProfitPercentage(p) == 0.0
    ensures p.costPrice > 0 ==>
      && (ProfitPercentage(p) > 0.0 <==> ProfitPerUnit(p) > 0)
      && (ProfitPercentage(p) < 0.0 <==> ProfitPerUnit(p) < 0)
      && (ProfitPercentage(p) == 0.0 <==> p.sellingPrice == p.costPrice)
  {
  }

  /** A valid product cannot lose everything: its percentage stays above -100. */
  lemma ProfitPercentageAboveMinusHundred(p: Product)
    requires ValidProduct(p)
    ensures ProfitPercentage(p) > -100.0
  {
    var m := ProfitPerUnit(p) as real;
    var c := p.costPrice as real;
    var q := m / c;
    assert q * c == m;
    var d := q + 1.0;
    assert d * c == m + c;
    assert d * c > 0.0;
    assert d > 0.0;
  }

  // ---------------------------------------------------------------------
  // Properties of receiving

  /** Receiving enough stock clears the restock alert. */
  lemma ReceiveClearsRestock(p: Product, quantity: nat)
    requires p.stockQuantity + quantity > p.restockThreshold
    ensures !NeedsRestock(Receive(p, quantity))
  {
  }

  /** Two receipts add up to one receipt of their total. */
  lemma ReceiveAdds(p: Product, a: nat, b: nat)
    ensures Receive(Receive(p, a), b) == Receive(p, a + b)
  {
  }

  /** Appending a receipt to the ledger adds its quantity to its own product only. */
  lemma {:induction false} ReceivedQuantityAppend(rs: seq<StockReceipt>, r: StockReceipt, pid: ProductId)
    ensures ReceivedQuantity(rs + [r], pid)
         == ReceivedQuantity(rs, pid) + (if r.product == pid then r.quantity else 0)
  {
    if rs == [] {
      assert rs + [r] == [r];
      assert [r][1..] == [];
    } else {
      assert (rs + [r])[1..] == rs[1..] + [r];
      ReceivedQuantityAppend(rs[1..], r, pid);
    }
  }
}
