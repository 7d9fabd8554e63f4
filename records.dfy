/**
 * The two kinds of ledger record, sales orders and purchases, with the items
 * they embed, and the shallow merge `{ ...record, ...patch }` the ledger uses
 * to update one.
 */
module Records {
  import opened Wrappers

  datatype PaymentMethod = Cash | Upi | Card

  datatype OrderStatus = Completed | Pending

  datatype OrderItem = OrderItem(
    productId: string,
    productName: string,
    productBarcode: string,
    quantity: int,
    pricePerUnit: real,
    totalPrice: real)

  datatype Order = Order(
    id: string,
    date: string,
    customerName: string,
    items: seq<OrderItem>,
    subtotal: real,
    tax: real,
    total: real,
    paymentMethod: PaymentMethod,
    paidAmount: real,
    remainingAmount: real,
    status: OrderStatus)

  datatype PurchaseStatus = Paid | PurchasePending

  datatype PurchaseItem = PurchaseItem(
    productId: string,
    productName: string,
    quantity: int,
    costPricePerUnit: real,
    totalCost: real)

  datatype Purchase = Purchase(
    id: string,
    date: string,
    supplierName: string,
    items: seq<PurchaseItem>,
    totalCost: real,
    paidAmount: real,
    remainingAmount: real,
    status: PurchaseStatus)

  /** `Partial<Order>`: each field is either given or absent. */
  datatype OrderPatch = OrderPatch(
    id: Option<string>,
    date: Option<string>,
    customerName: Option<string>,
    items: Option<seq<OrderItem>>,
    subtotal: Option<real>,
    tax: Option<real>,
    total: Option<real>,
    paymentMethod: Option<PaymentMethod>,
    paidAmount: Option<real>,
    remainingAmount: Option<real>,
    status: Option<OrderStatus>)

  /** `Partial<Purchase>`. */
  datatype PurchasePatch = PurchasePatch(
    id: Option<string>,
    date: Option<string>,
    supplierName: Option<string>,
    items: Option<seq<PurchaseItem>>,
    totalCost: Option<real>,
    paidAmount: Option<real>,
    remainingAmount: Option<real>,
    status: Option<PurchaseStatus>)

  const EmptyOrderPatch := OrderPatch(None, None, None, None, None, None, None, None, None, None, None)

  const EmptyPurchasePatch := PurchasePatch(None, None, None, None, None, None, None, None)

  /** A patch field that is absent, or given with the value the record already has. */
  predicate Agrees<T(==)>(field: Option<T>, value: T)
  {
    field.None? || field.value == value
  }

  /** `{ ...o, ...p }`: a field the patch gives wins, every other field is the record's. */
  function MergeOrder(o: Order, p: OrderPatch): (r: Order)
    ensures r == o <==>
      && Agrees(p.id, o.id) && Agrees(p.date, o.date) && Agrees(p.customerName, o.customerName)
      && Agrees(p.items, o.items) && Agrees(p.subtotal, o.subtotal) && Agrees(p.tax, o.tax)
      && Agrees(p.total, o.total) && Agrees(p.paymentMethod, o.paymentMethod)
      && Agrees(p.paidAmount, o.paidAmount) && Agrees(p.remainingAmount, o.remainingAmount)
      && Agrees(p.status, o.status)
  {
    Order(p.id.GetOr(o.id), p.date.GetOr(o.date), p.customerName.GetOr(o.customerName),
          p.items.GetOr(o.items), p.subtotal.GetOr(o.subtotal), p.tax.GetOr(o.tax),
          p.total.GetOr(o.total), p.paymentMethod.GetOr(o.paymentMethod),
          p.paidAmount.GetOr(o.paidAmount), p.remainingAmount.GetOr(o.remainingAmount),
          p.status.GetOr(o.status))
  }

  function MergePurchase(r: Purchase, p: PurchasePatch): (m: Purchase)
    ensures m == r <==>
      && Agrees(p.id, r.id) && Agrees(p.date, r.date) && Agrees(p.supplierName, r.supplierName)
      && Agrees(p.items, r.items) && Agrees(p.totalCost, r.totalCost)
      && Agrees(p.paidAmount, r.paidAmount) && Agrees(p.remainingAmount, r.remainingAmount)
      && Agrees(p.status, r.status)
  {
    Purchase(p.id.GetOr(r.id), p.date.GetOr(r.date), p.supplierName.GetOr(r.supplierName),
             p.items.GetOr(r.items), p.totalCost.GetOr(r.totalCost),
             p.paidAmount.GetOr(r.paidAmount), p.remainingAmount.GetOr(r.remainingAmount),
             p.status.GetOr(r.status))
  }

  /** A patched field takes the patch's value; an absent one keeps the record's. */
  lemma MergeOrderFields(o: Order, p: OrderPatch)
    ensures var m := MergeOrder(o, p);
      && (p.id.Some? ==> m.id == p.id.value) && (p.id.None? ==> m.id == o.id)
      && (p.date.Some? ==> m.date == p.date.value) && (p.date.None? ==> m.date == o.date)
      && (p.customerName.Some? ==> m.customerName == p.customerName.value)
      && (p.customerName.None? ==> m.customerName == o.customerName)
      && (p.items.Some? ==> m.items == p.items.value) && (p.items.None? ==> m.items == o.items)
      && (p.subtotal.Some? ==> m.subtotal == p.subtotal.value) && (p.subtotal.None? ==> m.subtotal == o.subtotal)
      && (p.tax.Some? ==> m.tax == p.tax.value) && (p.tax.None? ==> m.tax == o.tax)
      && (p.total.Some? ==> m.total == p.total.value) && (p.total.None? ==> m.total == o.total)
      && (p.paymentMethod.Some? ==> m.paymentMethod == p.paymentMethod.value)
      && (p.paymentMethod.None? ==> m.paymentMethod == o.paymentMethod)
      && (p.paidAmount.Some? ==> m.paidAmount == p.paidAmount.value)
      && (p.paidAmount.None? ==> m.paidAmount == o.paidAmount)
      && (p.remainingAmount.Some? ==> m.remainingAmount == p.remainingAmount.value)
      && (p.remainingAmount.None? ==> m.remainingAmount == o.remainingAmount)
      && (p.status.Some? ==> m.status == p.status.value) && (p.status.None? ==> m.status == o.status)
  {
  }

  /** An empty patch changes nothing, and applying a patch twice is applying it once. */
  lemma MergeOrderLaws(o: Order, p: OrderPatch)
    ensures MergeOrder(o, EmptyOrderPatch) == o
    ensures MergeOrder(MergeOrder(o, p), p) == MergeOrder(o, p)
  {
  }

  lemma MergePurchaseFields(r: Purchase, p: PurchasePatch)
    ensures var m := MergePurchase(r, p);
      && (p.id.Some? ==> m.id == p.id.value) && (p.id.None? ==> m.id == r.id)
      && (p.date.Some? ==> m.date == p.date.value) && (p.date.None? ==> m.date == r.date)
      && (p.supplierName.Some? ==> m.supplierName == p.supplierName.value)
      && (p.supplierName.None? ==> m.supplierName == r.supplierName)
      && (p.items.Some? ==> m.items == p.items.value) && (p.items.None? ==> m.items == r.items)
      && (p.totalCost.Some? ==> m.totalCost == p.totalCost.value)
      && (p.totalCost.None? ==> m.totalCost == r.totalCost)
      && (p.paidAmount.Some? ==> m.paidAmount == p.paidAmount.value)
      && (p.paidAmount.None? ==> m.paidAmount == r.paidAmount)
      && (p.remainingAmount.Some? ==> m.remainingAmount == p.remainingAmount.value)
      && (p.remainingAmount.None? ==> m.remainingAmount == r.remainingAmount)
      && (p.status.Some? ==> m.status == p.status.value) && (p.status.None? ==> m.status == r.status)
  {
  }

  lemma MergePurchaseLaws(r: Purchase, p: PurchasePatch)
    ensures MergePurchase(r, EmptyPurchasePatch) == r
    ensures MergePurchase(MergePurchase(r, p), p) == MergePurchase(r, p)
  {
  }
}
