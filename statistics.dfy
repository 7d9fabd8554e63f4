/**
 * The read side of the ledger: counts and sums over the loaded orders and
 * purchases, and the profit/loss report over an optional date range.
 */
module Statistics {
  import opened Wrappers
  import opened Seqs
  import opened Text
  import opened Records

  datatype OrderStats = OrderStats(
    total: nat,
    completed: nat,
    pending: nat,
    totalRevenue: real,
    totalCollected: real,
    totalPending: real)

  datatype PurchaseStats = PurchaseStats(
    total: nat,
    paid: nat,
    pending: nat,
    totalExpense: real,
    totalPaid: real,
    totalPending: real)

  predicate IsCompleted(o: Order) { o.status == Completed }
  predicate IsPendingOrder(o: Order) { o.status == Pending }
  function OrderTotal(o: Order): real { o.total }
  function OrderPaid(o: Order): real { o.paidAmount }
  function OrderRemaining(o: Order): real { o.remainingAmount }

  predicate IsPaid(p: Purchase) { p.status == Paid }
  predicate IsPendingPurchase(p: Purchase) { p.status == PurchasePending }
  function PurchaseCost(p: Purchase): real { p.totalCost }
  function PurchasePaid(p: Purchase): real { p.paidAmount }
  function PurchaseRemaining(p: Purchase): real { p.remainingAmount }

  /** Counts by status and sums of the three amounts over all orders. */
  function OrderStatisticsOf(orders: seq<Order>): (r: OrderStats)
    ensures r.total == |orders|
    ensures r.completed + r.pending == r.total
  {
    FilterPartition(orders, IsCompleted, IsPendingOrder);
    OrderStats(|orders|, |Filter(orders, IsCompleted)|, |Filter(orders, IsPendingOrder)|,
               SumOf(orders, OrderTotal), SumOf(orders, OrderPaid), SumOf(orders, OrderRemaining))
  }

  /** Counts by status and sums of the three amounts over all purchases. */
  function PurchaseStatisticsOf(purchases: seq<Purchase>): (r: PurchaseStats)
    ensures r.total == |purchases|
    ensures r.paid + r.pending == r.total
  {
    FilterPartition(purchases, IsPaid, IsPendingPurchase);
    PurchaseStats(|purchases|, |Filter(purchases, IsPaid)|, |Filter(purchases, IsPendingPurchase)|,
                  SumOf(purchases, PurchaseCost), SumOf(purchases, PurchasePaid),
                  SumOf(purchases, PurchaseRemaining))
  }

  /** A new order at the head moves each statistic by exactly that order's share. */
  lemma OrderStatisticsPrepend(o: Order, orders: seq<Order>)
    ensures var before, after := OrderStatisticsOf(orders), OrderStatisticsOf([o] + orders);
      && after.total == before.total + 1
      && after.completed == before.completed + (if o.status == Completed then 1 else 0)
      && after.pending == before.pending + (if o.status == Pending then 1 else 0)
      && after.totalRevenue == before.totalRevenue + o.total
      && after.totalCollected == before.totalCollected + o.paidAmount
      && after.totalPending == before.totalPending + o.remainingAmount
  {
    assert ([o] + orders)[1..] == orders;
  }

  /** A new purchase at the head moves each statistic by exactly that purchase's share. */
  lemma PurchaseStatisticsPrepend(p: Purchase, purchases: seq<Purchase>)
    ensures var before, after := PurchaseStatisticsOf(purchases), PurchaseStatisticsOf([p] + purchases);
      && after.total == before.total + 1
      && after.paid == before.paid + (if p.status == Paid then 1 else 0)
      && after.pending == before.pending + (if p.status == PurchasePending then 1 else 0)
      && after.totalExpense == before.totalExpense + p.totalCost
      && after.totalPaid == before.totalPaid + p.paidAmount
      && after.totalPending == before.totalPending + p.remainingAmount
  {
    assert ([p] + purchases)[1..] == purchases;
  }

  /** When every order's remaining amount is its total less its payment, so is the outstanding sum. */
  lemma OrderPendingBalance(orders: seq<Order>)
    requires forall i :: 0 <= i < |orders| ==>
      orders[i].remainingAmount == orders[i].total - orders[i].paidAmount
    ensures var s := OrderStatisticsOf(orders); s.totalPending == s.totalRevenue - s.totalCollected
  {
    SumDifference(orders, OrderTotal, OrderPaid, OrderRemaining);
  }

  /** When every purchase's remaining amount is its cost less its payment, so is the outstanding sum. */
  lemma PurchasePendingBalance(purchases: seq<Purchase>)
    requires forall i :: 0 <= i < |purchases| ==>
      purchases[i].remainingAmount == purchases[i].totalCost - purchases[i].paidAmount
    ensures var s := PurchaseStatisticsOf(purchases); s.totalPending == s.totalExpense - s.totalPaid
  {
    SumDifference(purchases, PurchaseCost, PurchasePaid, PurchaseRemaining);
  }

  datatype ProfitLossReport = ProfitLossReport(
    totalSales: real,
    totalPurchases: real,
    profitLoss: real,
    margin: real)

  /** A date bound takes part only when it is given and is not the empty string. */
  predicate Given(bound: Option<string>): (b: bool)
    ensures b ==> bound.Some?
    ensures bound.Some? ==> (b <==> |bound.value| > 0)
  {
    bound.Some? && bound.value != ""
  }

  /**
   * `d >= startDate && d <= endDate`: inclusive at both ends, by string order.
   * Only an ordered range holds anything, a one-day range holds exactly that
   * day, and a date outside lies strictly before the start or strictly after the end.
   */
  predicate InRange(date: string, startDate: string, endDate: string): (b: bool)
    ensures b ==> LexLe(startDate, endDate)
    ensures startDate == endDate ==> (b <==> date == startDate)
    ensures !b ==> (LexLe(date, startDate) && date != startDate) || (LexLe(endDate, date) && date != endDate)
  {
    if LexLe(startDate, date) && LexLe(date, endDate) then
      LexLeTransitive(startDate, date, endDate);
      if startDate == endDate then LexLeAntisymmetric(startDate, date); true else true
    else
      LexLeReflexive(date);
      LexLeTotal(startDate, date);
      LexLeTotal(date, endDate);
      false
  }

  /** Both bounds belong to the range they delimit. */
  lemma BoundsInRange(startDate: string, endDate: string)
    requires LexLe(startDate, endDate)
    ensures InRange(startDate, startDate, endDate) && InRange(endDate, startDate, endDate)
  {
    LexLeReflexive(startDate);
    LexLeReflexive(endDate);
  }

  function OrderDatedIn(startDate: string, endDate: string): Order -> bool
  {
    (o: Order) => InRange(o.date, startDate, endDate)
  }

  function PurchaseDatedIn(startDate: string, endDate: string): Purchase -> bool
  {
    (p: Purchase) => InRange(p.date, startDate, endDate)
  }

  function OrdersInRange(orders: seq<Order>, startDate: string, endDate: string): (r: seq<Order>)
    ensures IsSubsequence(r, orders)
    ensures forall o :: o in r <==> o in orders && InRange(o.date, startDate, endDate)
  {
    FilterIsSubsequence(orders, OrderDatedIn(startDate, endDate));
    Filter(orders, OrderDatedIn(startDate, endDate))
  }

  function PurchasesInRange(purchases: seq<Purchase>, startDate: string, endDate: string): (r: seq<Purchase>)
    ensures IsSubsequence(r, purchases)
    ensures forall p :: p in r <==> p in purchases && InRange(p.date, startDate, endDate)
  {
    FilterIsSubsequence(purchases, PurchaseDatedIn(startDate, endDate));
    Filter(purchases, PurchaseDatedIn(startDate, endDate))
  }

  /** The report for given sales and purchase totals; the margin is a percentage of sales, 0 unless sales are positive. */
  function Report(totalSales: real, totalPurchases: real): (r: ProfitLossReport)
    ensures r.totalSales == totalSales && r.totalPurchases == totalPurchases
    ensures r.profitLoss == totalSales - totalPurchases
    ensures totalSales > 0.0 ==> r.margin * totalSales == r.profitLoss * 100.0
    ensures totalSales <= 0.0 ==> r.margin == 0.0
  {
    var profitLoss := totalSales - totalPurchases;
    var margin := if totalSales > 0.0 then profitLoss / totalSales * 100.0 else 0.0;
    ProfitLossReport(totalSales, totalPurchases, profitLoss, margin)
  }

  /** `calculateProfitLoss`: the report over every record, or over the records dated in range when both bounds are given. */
  function ProfitLossOf(orders: seq<Order>, purchases: seq<Purchase>,
                        startDate: Option<string>, endDate: Option<string>): (r: ProfitLossReport)
    ensures r.profitLoss == r.totalSales - r.totalPurchases
    ensures r.totalSales > 0.0 ==> r.margin * r.totalSales == r.profitLoss * 100.0
    ensures r.totalSales <= 0.0 ==> r.margin == 0.0
    ensures !(Given(startDate) && Given(endDate)) ==>
      r.totalSales == SumOf(orders, OrderTotal) && r.totalPurchases == SumOf(purchases, PurchaseCost)
    ensures Given(startDate) && Given(endDate) ==>
      && r.totalSales == SumOf(OrdersInRange(orders, startDate.value, endDate.value), OrderTotal)
      && r.totalPurchases == SumOf(PurchasesInRange(purchases, startDate.value, endDate.value), PurchaseCost)
  {
    var ranged := Given(startDate) && Given(endDate);
    var sold := if ranged then OrdersInRange(orders, startDate.value, endDate.value) else orders;
    var bought := if ranged then PurchasesInRange(purchases, startDate.value, endDate.value) else purchases;
    Report(SumOf(sold, OrderTotal), SumOf(bought, PurchaseCost))
  }

  /** A range that covers every record's date reports the same as no range at all. */
  lemma ProfitLossCoveringRange(orders: seq<Order>, purchases: seq<Purchase>, startDate: string, endDate: string)
    requires forall i :: 0 <= i < |orders| ==> InRange(orders[i].date, startDate, endDate)
    requires forall i :: 0 <= i < |purchases| ==> InRange(purchases[i].date, startDate, endDate)
    ensures ProfitLossOf(orders, purchases, Some(startDate), Some(endDate)) == ProfitLossOf(orders, purchases, None, None)
  {
    var inOrders, inPurchases := OrderDatedIn(startDate, endDate), PurchaseDatedIn(startDate, endDate);
    assert forall i :: 0 <= i < |orders| ==> inOrders(orders[i]);
    assert forall i :: 0 <= i < |purchases| ==> inPurchases(purchases[i]);
    FilterAll(orders, inOrders);
    FilterAll(purchases, inPurchases);
    assert OrdersInRange(orders, startDate, endDate) == orders;
    assert PurchasesInRange(purchases, startDate, endDate) == purchases;
  }

  /** With a bound missing or empty, no record is filtered out. */
  lemma ProfitLossOneBound(orders: seq<Order>, purchases: seq<Purchase>, bound: Option<string>)
    ensures ProfitLossOf(orders, purchases, bound, None) == ProfitLossOf(orders, purchases, None, None)
    ensures ProfitLossOf(orders, purchases, None, bound) == ProfitLossOf(orders, purchases, None, None)
    ensures ProfitLossOf(orders, purchases, bound, Some("")) == ProfitLossOf(orders, purchases, None, None)
    ensures ProfitLossOf(orders, purchases, Some(""), bound) == ProfitLossOf(orders, purchases, None, None)
  {
  }

  /** A purchase saved at the head adds its cost to a ranged report exactly when it is dated in range. */
  lemma ProfitLossPrependPurchase(orders: seq<Order>, p: Purchase, purchases: seq<Purchase>,
                                  startDate: string, endDate: string)
    requires startDate != "" && endDate != ""
    ensures var before := ProfitLossOf(orders, purchases, Some(startDate), Some(endDate));
      var after := ProfitLossOf(orders, [p] + purchases, Some(startDate), Some(endDate));
      && after.totalSales == before.totalSales
      && after.totalPurchases == before.totalPurchases + (if InRange(p.date, startDate, endDate) then p.totalCost else 0.0)
  {
    var dated := PurchaseDatedIn(startDate, endDate);
    FilterConcat([p], purchases, dated);
    var head := Filter([p], dated);
    assert head == if InRange(p.date, startDate, endDate) then [p] else [];
    SumConcat(head, Filter(purchases, dated), PurchaseCost);
    assert SumOf(head, PurchaseCost) == if InRange(p.date, startDate, endDate) then p.totalCost else 0.0;
  }

  /** An order saved at the head adds its total to a ranged report exactly when it is dated in range. */
  lemma ProfitLossPrependOrder(o: Order, orders: seq<Order>, purchases: seq<Purchase>,
                               startDate: string, endDate: string)
    requires startDate != "" && endDate != ""
    ensures var before := ProfitLossOf(orders, purchases, Some(startDate), Some(endDate));
      var after := ProfitLossOf([o] + orders, purchases, Some(startDate), Some(endDate));
      && after.totalPurchases == before.totalPurchases
      && after.totalSales == before.totalSales + (if InRange(o.date, startDate, endDate) then o.total else 0.0)
  {
    var dated := OrderDatedIn(startDate, endDate);
    FilterConcat([o], orders, dated);
    var head := Filter([o], dated);
    assert head == if InRange(o.date, startDate, endDate) then [o] else [];
    SumConcat(head, Filter(orders, dated), OrderTotal);
    assert SumOf(head, OrderTotal) == if InRange(o.date, startDate, endDate) then o.total else 0.0;
  }

  /** The worked example: paid 100 of 100, and 50 of 200. */
  lemma PurchaseStatisticsExample()
    ensures PurchaseStatisticsOf([
      Purchase("PUR-1", "2024-01-01", "A", [], 100.0, 100.0, 0.0, Paid),
      Purchase("PUR-2", "2024-01-02", "B", [], 200.0, 50.0, 150.0, PurchasePending)])
      == PurchaseStats(2, 1, 1, 300.0, 150.0, 150.0)
  {
  }
}
