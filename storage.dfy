/**
 * The ledger store: two record collections (orders under the key
 * `wholesale_orders`, purchases under `wholesale_purchases`), each kept as one
 * stored value holding the whole list, most recent record first.
 */
module Storage {
  import opened Wrappers
  import opened Seqs
  import opened Text
  import opened Records
  import opened Statistics

  /** What the browser's storage holds under one key: nothing, something unreadable, or a list. */
  datatype Blob<T> = Absent | Malformed | Parsed(records: seq<T>)

  /** Reading a key never fails: an absent or unreadable value reads as the empty list. */
  function Load<T>(b: Blob<T>): (r: seq<T>)
    ensures b.Parsed? ==> r == b.records
    ensures !b.Parsed? ==> r == []
  {
    match b
    case Parsed(records) => records
    case _ => []
  }

  function OrderIdIs(id: string): Order -> bool
  {
    (o: Order) => o.id == id
  }

  function PurchaseIdIs(id: string): Purchase -> bool
  {
    (p: Purchase) => p.id == id
  }

  function OrderPatchedBy(updates: OrderPatch): Order -> Order
  {
    (o: Order) => MergeOrder(o, updates)
  }

  function PurchasePatchedBy(updates: PurchasePatch): Purchase -> Purchase
  {
    (p: Purchase) => MergePurchase(p, updates)
  }

  class LedgerStore {
    var orders: Blob<Order>
    var purchases: Blob<Purchase>

    constructor (orders: Blob<Order>, purchases: Blob<Purchase>)
      ensures this.orders == orders && this.purchases == purchases
    {
      this.orders := orders;
      this.purchases := purchases;
    }

    /** `getOrders()`. */
    function GetOrders(): (r: seq<Order>)
      reads this
      ensures orders.Parsed? ==> r == orders.records
      ensures !orders.Parsed? ==> r == []
    {
      Load(orders)
    }

    /** `getPurchases()`. */
    function GetPurchases(): (r: seq<Purchase>)
      reads this
      ensures purchases.Parsed? ==> r == purchases.records
      ensures !purchases.Parsed? ==> r == []
    {
      Load(purchases)
    }

    /** `getOrderStatistics()`. */
    function OrderStatistics(): (r: OrderStats)
      reads this
      ensures r.total == |GetOrders()| && r.completed + r.pending == r.total
    {
      OrderStatisticsOf(GetOrders())
    }

    /** `getPurchaseStatistics()`. */
    function PurchaseStatistics(): (r: PurchaseStats)
      reads this
      ensures r.total == |GetPurchases()| && r.paid + r.pending == r.total
    {
      PurchaseStatisticsOf(GetPurchases())
    }

    /** `calculateProfitLoss(startDate, endDate)`. */
    function ProfitLoss(startDate: Option<string>, endDate: Option<string>): (r: ProfitLossReport)
      reads this
      ensures r.profitLoss == r.totalSales - r.totalPurchases
      ensures r.totalSales <= 0.0 ==> r.margin == 0.0
      ensures !(Given(startDate) && Given(endDate)) ==>
        r.totalSales == SumOf(GetOrders(), OrderTotal) && r.totalPurchases == SumOf(GetPurchases(), PurchaseCost)
    {
      ProfitLossOf(GetOrders(), GetPurchases(), startDate, endDate)
    }

    /** Load the orders, put the new one in front, write the whole list back. */
    method SaveOrder(order: Order)
      modifies this
      ensures orders == Parsed([order] + old(GetOrders()))
      ensures purchases == old(purchases)
      ensures |GetOrders()| == |old(GetOrders())| + 1 && GetOrders()[1..] == old(GetOrders())
      ensures OrderStatistics().total == old(OrderStatistics()).total + 1
      ensures OrderStatistics().totalRevenue == old(OrderStatistics()).totalRevenue + order.total
      ensures OrderStatistics().totalCollected == old(OrderStatistics()).totalCollected + order.paidAmount
    {
      var list := GetOrders();
      OrderStatisticsPrepend(order, list);
      list := [order] + list;
      orders := Parsed(list);
    }

    /** Load the purchases, put the new one in front, write the whole list back. */
    method SavePurchase(purchase: Purchase)
      modifies this
      ensures purchases == Parsed([purchase] + old(GetPurchases()))
      ensures orders == old(orders)
      ensures |GetPurchases()| == |old(GetPurchases())| + 1 && GetPurchases()[1..] == old(GetPurchases())
      ensures PurchaseStatistics().total == old(PurchaseStatistics()).total + 1
      ensures PurchaseStatistics().totalExpense == old(PurchaseStatistics()).totalExpense + purchase.totalCost
      ensures PurchaseStatistics().totalPaid == old(PurchaseStatistics()).totalPaid + purchase.paidAmount
    {
      var list := GetPurchases();
      PurchaseStatisticsPrepend(purchase, list);
      list := [purchase] + list;
      purchases := Parsed(list);
    }

    /**
     * Merge `updates` into the first order with id `orderId` and write the list
     * back; when there is no such order nothing is written.
     */
    method UpdateOrder(orderId: string, updates: OrderPatch)
      modifies this
      ensures purchases == old(purchases)
      ensures FirstIndex(old(GetOrders()), OrderIdIs(orderId)) == -1 ==> orders == old(orders)
      ensures FirstIndex(old(GetOrders()), OrderIdIs(orderId)) != -1 ==>
        orders == Parsed(ReplaceFirst(old(GetOrders()), OrderIdIs(orderId), OrderPatchedBy(updates)))
    {
      var list := GetOrders();
      var index := FindIndex(list, OrderIdIs(orderId));
      if index != -1 {
        ReplaceFirstAt(list, OrderIdIs(orderId), OrderPatchedBy(updates));
        list := list[index := MergeOrder(list[index], updates)];
        orders := Parsed(list);
      }
    }

    /**
     * Merge `updates` into the first purchase with id `purchaseId` and write
     * the list back; when there is no such purchase nothing is written.
     */
    method UpdatePurchase(purchaseId: string, updates: PurchasePatch)
      modifies this
      ensures orders == old(orders)
      ensures FirstIndex(old(GetPurchases()), PurchaseIdIs(purchaseId)) == -1 ==> purchases == old(purchases)
      ensures FirstIndex(old(GetPurchases()), PurchaseIdIs(purchaseId)) != -1 ==>
        purchases == Parsed(ReplaceFirst(old(GetPurchases()), PurchaseIdIs(purchaseId), PurchasePatchedBy(updates)))
    {
      var list := GetPurchases();
      var index := FindIndex(list, PurchaseIdIs(purchaseId));
      if index != -1 {
        ReplaceFirstAt(list, PurchaseIdIs(purchaseId), PurchasePatchedBy(updates));
        list := list[index := MergePurchase(list[index], updates)];
        purchases := Parsed(list);
      }
    }
  }

  /**
   * What an update does to a list: with no matching id the list is unchanged;
   * otherwise only the first match is replaced by its merge with the patch.
   */
  lemma UpdateOrdersEffect(list: seq<Order>, orderId: string, updates: OrderPatch)
    ensures var r := ReplaceFirst(list, OrderIdIs(orderId), OrderPatchedBy(updates));
      && |r| == |list|
      && ((forall i :: 0 <= i < |list| ==> list[i].id != orderId) ==> r == list)
      && forall k :: (0 <= k < |list| && list[k].id == orderId &&
           (forall j :: 0 <= j < k ==> list[j].id != orderId)) ==>
           r[k] == MergeOrder(list[k], updates) &&
           forall j :: 0 <= j < |list| && j != k ==> r[j] == list[j]
  {
    var m := OrderIdIs(orderId);
    var f := OrderPatchedBy(updates);
    if forall i :: 0 <= i < |list| ==> !m(list[i]) {
      ReplaceFirstAbsent(list, m, f);
    } else {
      ReplaceFirstAt(list, m, f);
    }
  }

  lemma UpdatePurchasesEffect(list: seq<Purchase>, purchaseId: string, updates: PurchasePatch)
    ensures var r := ReplaceFirst(list, PurchaseIdIs(purchaseId), PurchasePatchedBy(updates));
      && |r| == |list|
      && ((forall i :: 0 <= i < |list| ==> list[i].id != purchaseId) ==> r == list)
      && forall k :: (0 <= k < |list| && list[k].id == purchaseId &&
           (forall j :: 0 <= j < k ==> list[j].id != purchaseId)) ==>
           r[k] == MergePurchase(list[k], updates) &&
           forall j :: 0 <= j < |list| && j != k ==> r[j] == list[j]
  {
    var m := PurchaseIdIs(purchaseId);
    var f := PurchasePatchedBy(updates);
    if forall i :: 0 <= i < |list| ==> !m(list[i]) {
      ReplaceFirstAbsent(list, m, f);
    } else {
      ReplaceFirstAt(list, m, f);
    }
  }

  /** `Math.floor(Math.random() * 1000)` for a draw in [0, 1). */
  function RandomPart(draw: real): (r: nat)
    requires 0.0 <= draw < 1.0
    ensures r < 1000
    ensures r as real <= draw * 1000.0 < r as real + 1.0
  {
    (draw * 1000.0).Floor
  }

  /** `generateId(prefix)`: `prefix-timestamp-random`, the clock and the draw passed in. */
  function GenerateId(prefix: string, timestamp: nat, draw: real): (id: string)
    requires 0.0 <= draw < 1.0
    ensures |id| >= |prefix| + 4 && id[..|prefix| + 1] == prefix + "-"
    ensures forall k :: |prefix| < k < |id| ==> id[k] == '-' || IsDigit(id[k])
    ensures IsDigit(id[|id| - 1])
  {
    prefix + "-" + Decimal(timestamp) + "-" + Decimal(RandomPart(draw))
  }

  lemma {:induction false} SplitAtDash(a: string, b: string, c: string, d: string)
    requires forall k :: 0 <= k < |a| ==> IsDigit(a[k])
    requires forall k :: 0 <= k < |c| ==> IsDigit(c[k])
    requires a + "-" + b == c + "-" + d
    ensures a == c && b == d
  {
    var s := a + "-" + b;
    assert s[|a|] == '-' && forall k :: 0 <= k < |a| ==> s[k] == a[k];
    assert s[|c|] == '-' && forall k :: 0 <= k < |c| ==> s[k] == c[k];
    assert |a| == |c|;
    assert a == s[..|a|] && c == s[..|c|];
    assert b == s[|a| + 1..] && d == s[|c| + 1..];
  }

  /** For one prefix, equal ids come from the same timestamp and the same random part. */
  lemma GenerateIdInjective(prefix: string, t1: nat, d1: real, t2: nat, d2: real)
    requires 0.0 <= d1 < 1.0 && 0.0 <= d2 < 1.0
    requires GenerateId(prefix, t1, d1) == GenerateId(prefix, t2, d2)
    ensures t1 == t2 && RandomPart(d1) == RandomPart(d2)
  {
    var a, b := Decimal(t1), Decimal(RandomPart(d1));
    var c, d := Decimal(t2), Decimal(RandomPart(d2));
    var s1 := prefix + "-" + a + "-" + b;
    var s2 := prefix + "-" + c + "-" + d;
    assert s1 == prefix + "-" + (a + "-" + b);
    assert s2 == prefix + "-" + (c + "-" + d);
    assert a + "-" + b == s1[|prefix| + 1..];
    assert c + "-" + d == s2[|prefix| + 1..];
    SplitAtDash(a, b, c, d);
    DecimalInjective(t1, t2);
    DecimalInjective(RandomPart(d1), RandomPart(d2));
  }

  /** Any two draws in the same thousandth, in the same millisecond, give the same id. */
  lemma GenerateIdCollision(prefix: string, timestamp: nat, k: nat, d1: real, d2: real)
    requires k as real <= d1 * 1000.0 < k as real + 1.0 && d1 < 1.0
    requires k as real <= d2 * 1000.0 < k as real + 1.0 && d2 < 1.0
    ensures GenerateId(prefix, timestamp, d1) == GenerateId(prefix, timestamp, d2)
  {
    assert RandomPart(d1) == k == RandomPart(d2);
  }
}
