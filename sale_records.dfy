/**
  The values behind sales/models.py: the stored shape of a Sale and of a
  SaleItem, the generated order id, the defaulting SaleItem.save performs,
  and the documented aggregate rule linking a sale to its items.
 */
module SaleRecords {
  import opened Money
  import opened Inventory

  type SaleId = nat
  type ItemId = nat

  datatype PaymentMethod = Cash | Card | Upi

  datatype Option<+T> = None | Some(value: T)

  // ---------------------------------------------------------------------
  // Stored rows

  /** A stored sales row. */
  datatype SaleRow = SaleRow(
    orderId: string,
    cashier: UserId,
    subtotal: Cents,
    tax: Cents,
    total: Cents,
    profit: Cents,
    paymentMethod: PaymentMethod,
    notes: string)

  /** A stored sale_items row; unitPrice and unitCost are the snapshots taken at sale time. */
  datatype ItemRow = ItemRow(
    sale: SaleId,
    product: ProductId,
    quantity: nat,
    unitPrice: Cents,
    unitCost: Cents,
    subtotal: Cents,
    profit: Cents)

  const OrderIdMaxLength: nat := 20

  /**
    What the sale's field validators accept: subtotal, tax and total at
    least 0.00; profit has no lower bound, only the digit limit.
   */
  predicate ValidSaleRow(s: SaleRow) {
    && 1 <= |s.orderId| <= OrderIdMaxLength
    && ValidAmount(s.subtotal)
    && ValidAmount(s.tax)
    && ValidAmount(s.total)
    && FitsDecimalField(s.profit)
  }

  /** What the item's field validators accept: at least one unit, amounts within the digit limit. */
  predicate ValidItemRow(i: ItemRow) {
    && i.quantity >= 1
    && FitsDecimalField(i.unitPrice)
    && FitsDecimalField(i.unitCost)
    && FitsDecimalField(i.subtotal)
    && FitsDecimalField(i.profit)
  }

  // ---------------------------------------------------------------------
  // Generated order ids: "#ORD-" and the first 8 digits of a uuid4 hex, upper-cased

  const OrderIdPrefix: string := "#ORD-"
  const OrderIdSuffixLength: nat := 8

  predicate IsLowerHexDigit(c: char) {
    '0' <= c <= '9' || 'a' <= c <= 'f'
  }

  predicate IsUpperHexDigit(c: char) {
    '0' <= c <= '9' || 'A' <= c <= 'F'
  }

  /** The shape of uuid.uuid4().hex: 32 lower-case hexadecimal digits. */
  predicate IsUuidHex(h: string) {
    |h| == 32 && forall i :: 0 <= i < |h| ==> IsLowerHexDigit(h[i])
  }

  /** The `#ORD-XXXXXXXX` pattern with 8 upper-case hexadecimal digits. */
  predicate IsOrderIdFormat(s: string) {
    && |s| == |OrderIdPrefix| + OrderIdSuffixLength
    && s[..|OrderIdPrefix|] == OrderIdPrefix
    && forall i :: |OrderIdPrefix| <= i < |s| ==> IsUpperHexDigit(s[i])
  }

  /** str.upper on one ASCII character. */
  function UpperChar(c: char): char {
    if 'a' <= c <= 'z' then (c as int - 32) as char else c
  }

  /** str.upper on an ASCII string, character by character. */
  function Upper(s: string): (r: string)
    ensures |r| == |s|
    ensures forall i :: 0 <= i < |s| ==> r[i] == UpperChar(s[i])
  {
    if s == [] then [] else [UpperChar(s[0])] + Upper(s[1..])
  }

  /** The id Sale.save generates from one uuid4 value. */
  function GeneratedOrderId(uuidHex: string): (id: string)
    requires IsUuidHex(uuidHex)
    ensures IsOrderIdFormat(id)
    ensures |id| <= OrderIdMaxLength
  {
    OrderIdPrefix + Upper(uuidHex[..OrderIdSuffixLength])
  }

  /** The order id after Sale.save: generated only when none is present. */
  function SavedOrderId(current: string, uuidHex: string): (id: string)
    requires IsUuidHex(uuidHex)
    ensures id != ""
    ensures current != "" ==> id == current
    ensures current == "" ==> IsOrderIdFormat(id)
  {
    if current == "" then GeneratedOrderId(uuidHex) else current
  }

  // ---------------------------------------------------------------------
  // SaleItem.save defaulting

  /** Python truthiness of an optional Decimal: None and zero are both false. */
  predicate IsTruthy(v: Option<Cents>) {
    v.Some? && v.value != 0
  }

  /** A supplied truthy value is kept; otherwise the computed one is used. */
  function Defaulted(supplied: Option<Cents>, computed: Cents): Cents {
    if IsTruthy(supplied) then supplied.value else computed
  }

  function LineSubtotal(unitPrice: Cents, quantity: nat): Cents {
    unitPrice * quantity
  }

  function LineProfit(unitPrice: Cents, unitCost: Cents, quantity: nat): Cents {
    (unitPrice - unitCost) * quantity
  }

  // ---------------------------------------------------------------------
  // Aggregates

  function SumSubtotals(items: seq<ItemRow>): Cents {
    if items == [] then 0 else items[0].subtotal + SumSubtotals(items[1..])
  }

  function SumProfits(items: seq<ItemRow>): Cents {
    if items == [] then 0 else items[0].profit + SumProfits(items[1..])
  }

  /** What the snapshot costs of the items add up to. */
  function SumCosts(items: seq<ItemRow>): Cents {
    if items == [] then 0 else items[0].unitCost * items[0].quantity + SumCosts(items[1..])
  }

  /**
    The documented rule: a sale's subtotal is the sum of its items'
    subtotals, its profit the sum of their profits, and total = subtotal + tax.
   */
  predicate TotalsConsistent(s: SaleRow, items: seq<ItemRow>) {
    && s.subtotal == SumSubtotals(items)
    && s.profit == SumProfits(items)
    && s.total == s.subtotal + s.tax
  }

  /** An item whose subtotal and profit are the ones SaleItem.save computes. */
  predicate IsComputedItem(i: ItemRow) {
    && i.subtotal == LineSubtotal(i.unitPrice, i.quantity)
    && i.profit == LineProfit(i.unitPrice, i.unitCost, i.quantity)
  }

  /**
    The items of sale `sid` among the rows with ids below `n`, in id order
    (the items' default ordering).
   */
  function ItemsOf(items: map<ItemId, ItemRow>, sid: SaleId, n: nat): (r: seq<ItemRow>)
    ensures forall x :: x in r ==> x.sale == sid && x in items.Values
    ensures |r| <= n
  {
    if n == 0 then []
    else ItemsOf(items, sid, n - 1)
         + (if n - 1 in items && items[n - 1].sale == sid then [items[n - 1]] else [])
  }

  // ---------------------------------------------------------------------
  // Properties of order ids

  /** Distinct uuid prefixes give distinct order ids, so uniqueness rests on the 8 digits alone. */
  lemma GeneratedOrderIdInjective(h1: string, h2: string)
    requires IsUuidHex(h1) && IsUuidHex(h2)
    ensures GeneratedOrderId(h1) == GeneratedOrderId(h2) <==> h1[..8] == h2[..8]
  {
  }

  /** Saving twice gives the order id of saving once, whatever the second uuid. */
  lemma SavedOrderIdIdempotent(current: string, h1: string, h2: string)
    requires IsUuidHex(h1) && IsUuidHex(h2)
    ensures SavedOrderId(SavedOrderId(current, h1), h2) == SavedOrderId(current, h1)
  {
  }

  // ---------------------------------------------------------------------
  // Properties of SaleItem.save defaulting

  /**
    None and zero both count as absent and are replaced by the computed
    value; any non-zero supplied value is kept, even one that disagrees.
   */
  lemma DefaultedKeepsSupplied(v: Cents, computed: Cents)
    ensures Defaulted(None, computed) == computed
    ensures Defaulted(Some(0), computed) == computed
    ensures v != 0 ==> Defaulted(Some(v), computed) == v
  {
  }

  /** Defaulting a second time with the same inputs changes nothing. */
  lemma DefaultedIdempotent(supplied: Option<Cents>, computed: Cents)
    ensures Defaulted(Some(Defaulted(supplied, computed)), computed) == Defaulted(supplied, computed)
  {
  }

  /** The line profit is the line subtotal less the line cost, and has the sign of the unit margin. */
  lemma LineProfitMeaning(unitPrice: Cents, unitCost: Cents, quantity: nat)
    ensures LineProfit(unitPrice, unitCost, quantity) == LineSubtotal(unitPrice, quantity) - unitCost * quantity
    ensures quantity >= 1 ==>
      && (LineProfit(unitPrice, unitCost, quantity) > 0 <==> unitPrice > unitCost)
      && (LineProfit(unitPrice, unitCost, quantity) < 0 <==> unitPrice < unitCost)
  {
  }

  // ---------------------------------------------------------------------
  // Properties of the aggregates

  lemma {:induction false} SumSubtotalsAppend(a: seq<ItemRow>, b: seq<ItemRow>)
    ensures SumSubtotals(a + b) == SumSubtotals(a) + SumSubtotals(b)
  {
    if a == [] {
      assert a + b == b;
    } else {
      assert (a + b)[1..] == a[1..] + b;
      SumSubtotalsAppend(a[1..], b);
    }
  }

  lemma {:induction false} SumProfitsAppend(a: seq<ItemRow>, b: seq<ItemRow>)
    ensures SumProfits(a + b) == SumProfits(a) + SumProfits(b)
  {
    if a == [] {
      assert a + b == b;
    } else {
      assert (a + b)[1..] == a[1..] + b;
      SumProfitsAppend(a[1..], b);
    }
  }

  /**
    Adding an item to a sale adds its subtotal and profit to the sums, so
    a header that followed the documented rule no longer does once an item
    with a non-zero subtotal is added and the header is left as it was.
   */
  lemma AddedItemShiftsTotals(s: SaleRow, items: seq<ItemRow>, row: ItemRow)
    ensures SumSubtotals(items + [row]) == SumSubtotals(items) + row.subtotal
    ensures SumProfits(items + [row]) == SumProfits(items) + row.profit
    ensures TotalsConsistent(s, items) && row.subtotal != 0 ==> !TotalsConsistent(s, items + [row])
  {
    SumSubtotalsAppend(items, [row]);
    SumProfitsAppend(items, [row]);
    assert [row][1..] == [];
  }

  /**
    Items computed by SaleItem.save from non-negative unit prices have a
    non-negative sum, so the documented sale subtotal passes the >= 0.00
    validator, and so does the total when the tax does.
   */
  lemma {:induction false} ComputedSubtotalsNonNegative(items: seq<ItemRow>)
    requires forall k :: 0 <= k < |items| ==> IsComputedItem(items[k]) && items[k].unitPrice >= 0
    ensures SumSubtotals(items) >= 0
  {
    if items != [] {
      ComputedSubtotalsNonNegative(items[1..]);
    }
  }

  /** A consistent sale's profit is its subtotal less what its computed items cost. */
  lemma {:induction false} ComputedProfitIsSubtotalLessCost(items: seq<ItemRow>)
    requires forall k :: 0 <= k < |items| ==> IsComputedItem(items[k])
    ensures SumProfits(items) == SumSubtotals(items) - SumCosts(items)
  {
    if items != [] {
      LineProfitMeaning(items[0].unitPrice, items[0].unitCost, items[0].quantity);
      ComputedProfitIsSubtotalLessCost(items[1..]);
    }
  }

  /**
    A header that follows the documented rule over computed items with
    non-negative unit prices, a valid tax and an order id, and whose total
    and profit fit the column, passes every field validator of the sale.
   */
  lemma ConsistentTotalsMeetValidators(s: SaleRow, items: seq<ItemRow>)
    requires TotalsConsistent(s, items)
    requires forall k :: 0 <= k < |items| ==> IsComputedItem(items[k]) && items[k].unitPrice >= 0
    requires ValidAmount(s.tax) && 1 <= |s.orderId| <= OrderIdMaxLength
    requires s.total <= MaxCents && FitsDecimalField(s.profit)
    ensures ValidSaleRow(s)
  {
    ComputedSubtotalsNonNegative(items);
  }

  /** The docstring's example: 2 x 18.00 = 36.00 and 36.00 + 45.00 = 81.00. */
  lemma DocumentedExample()
    ensures var items := [ItemRow(1, 1, 2, 1800, 1000, LineSubtotal(1800, 2), LineProfit(1800, 1000, 2)),
                          ItemRow(1, 2, 1, 4500, 3000, LineSubtotal(4500, 1), LineProfit(4500, 3000, 1))];
      && items[0].subtotal == 3600
      && SumSubtotals(items) == 8100
      && TotalsConsistent(SaleRow("#ORD-1A2B3C4D", 7, 8100, 0, 8100, 3100, Cash, ""), items)
  {
  }

  // ---------------------------------------------------------------------
  // Properties of ItemsOf

  /** With no row of sale `sid`, the sale has no items. */
  lemma {:induction false} ItemsOfNone(items: map<ItemId, ItemRow>, sid: SaleId, n: nat)
    requires forall k :: k in items ==> items[k].sale != sid
    ensures ItemsOf(items, sid, n) == []
  {
    if n > 0 {
      ItemsOfNone(items, sid, n - 1);
    }
  }

  /** Every row of sale `sid` with an id below `n` is listed. */
  lemma {:induction false} ItemsOfComplete(items: map<ItemId, ItemRow>, sid: SaleId, n: nat, k: ItemId)
    requires k in items && k < n && items[k].sale == sid
    ensures items[k] in ItemsOf(items, sid, n)
  {
    if k < n - 1 {
      ItemsOfComplete(items, sid, n - 1, k);
    }
  }

  /** Two tables that agree on the rows of sale `sid` below `n` list the same items for it. */
  lemma {:induction false} ItemsOfFrame(m1: map<ItemId, ItemRow>, m2: map<ItemId, ItemRow>, sid: SaleId, n: nat)
    requires forall k :: 0 <= k < n ==> (k in m1 && m1[k].sale == sid) == (k in m2 && m2[k].sale == sid)
    requires forall k :: 0 <= k < n && k in m1 && k in m2 && m1[k].sale == sid ==> m1[k] == m2[k]
    ensures ItemsOf(m1, sid, n) == ItemsOf(m2, sid, n)
  {
    if n > 0 {
      ItemsOfFrame(m1, m2, sid, n - 1);
    }
  }

  /** Adding a row under the next free id appends it to its sale's items and leaves other sales alone. */
  lemma ItemsOfInsert(items: map<ItemId, ItemRow>, n: nat, row: ItemRow, sid: SaleId)
    requires forall k :: k in items ==> k < n
    ensures ItemsOf(items[n := row], sid, n + 1)
         == ItemsOf(items, sid, n) + (if row.sale == sid then [row] else [])
  {
    ItemsOfFrame(items, items[n := row], sid, n);
  }
}
