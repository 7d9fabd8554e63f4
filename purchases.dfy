/**
 * The purchase page: a working list of purchase lines (one per product, each
 * with the unit cost last entered for it), the form fields around it, and the
 * confirm step that turns the list into a `Purchase` and saves it.
 */
module Purchases {
  import opened Wrappers
  import opened Seqs
  import opened Text
  import opened Catalog
  import opened Records
  import opened Storage
  import opened Statistics

  datatype PurchaseCartItem = PurchaseCartItem(
    productId: string,
    productName: string,
    quantity: int,
    costPricePerUnit: real)

  function LineProductId(line: PurchaseCartItem): string { line.productId }

  function LineIs(productId: string): PurchaseCartItem -> bool
  {
    (line: PurchaseCartItem) => line.productId == productId
  }

  function LineIsNot(productId: string): PurchaseCartItem -> bool
  {
    (line: PurchaseCartItem) => line.productId != productId
  }

  /** A line as the catalog and the add handler allow it: a known product, its name, a positive cost, quantity at least 1. */
  predicate LineOk(line: PurchaseCartItem, catalog: seq<Product>)
  {
    && line.quantity >= 1
    && line.costPricePerUnit > 0.0
    && FindProduct(catalog, line.productId).Some?
    && FindProduct(catalog, line.productId).value.name == line.productName
  }

  /** The cart invariant: at most one line per product, and every line acceptable. */
  predicate ValidCart(cart: seq<PurchaseCartItem>, catalog: seq<Product>)
  {
    KeysDistinct(cart, LineProductId) && forall line :: line in cart ==> LineOk(line, catalog)
  }

  /** `cart.find(item => item.productId === productId)` finds something. */
  predicate InCart(cart: seq<PurchaseCartItem>, productId: string): (b: bool)
    ensures b <==> FirstIndex(cart, LineIs(productId)) != -1
  {
    exists i :: 0 <= i < |cart| && cart[i].productId == productId
  }

  /** The line after another unit at `cost` was added to it: quantity up by one, the new cost wins. */
  function Bumped(cost: real): (f: PurchaseCartItem -> PurchaseCartItem)
    ensures forall line :: f(line).quantity == line.quantity + 1 && f(line).costPricePerUnit == cost
    ensures forall line :: f(line).productId == line.productId && f(line).productName == line.productName
  {
    (line: PurchaseCartItem) => line.(quantity := line.quantity + 1, costPricePerUnit := cost)
  }

  /** The cart after adding one unit of `product` at `cost`. */
  function AddedLine(cart: seq<PurchaseCartItem>, product: Product, cost: real): (r: seq<PurchaseCartItem>)
    ensures InCart(cart, product.id) ==> (|r| == |cart| &&
      forall i :: 0 <= i < |cart| ==>
        r[i] == if cart[i].productId == product.id
                then cart[i].(quantity := cart[i].quantity + 1, costPricePerUnit := cost)
                else cart[i])
    ensures !InCart(cart, product.id) ==>
      r == cart + [PurchaseCartItem(product.id, product.name, 1, cost)]
  {
    if InCart(cart, product.id) then MapWhere(cart, LineIs(product.id), Bumped(cost))
    else cart + [PurchaseCartItem(product.id, product.name, 1, cost)]
  }

  /** `cart.filter(item => item.productId !== productId)`. */
  function WithoutProduct(cart: seq<PurchaseCartItem>, productId: string): (r: seq<PurchaseCartItem>)
    ensures IsSubsequence(r, cart)
    ensures forall line :: line in r <==> line in cart && line.productId != productId
  {
    FilterIsSubsequence(cart, LineIsNot(productId));
    Filter(cart, LineIsNot(productId))
  }

  function SetQuantity(quantity: int): PurchaseCartItem -> PurchaseCartItem
  {
    (line: PurchaseCartItem) => line.(quantity := quantity)
  }

  /** The cart after `updateQuantity(productId, quantity)`. */
  function WithQuantity(cart: seq<PurchaseCartItem>, productId: string, quantity: int): (r: seq<PurchaseCartItem>)
    ensures quantity <= 0 ==> r == WithoutProduct(cart, productId)
    ensures quantity > 0 ==> (|r| == |cart| &&
      forall i :: 0 <= i < |cart| ==>
        r[i] == if cart[i].productId == productId then cart[i].(quantity := quantity) else cart[i])
  {
    if quantity <= 0 then WithoutProduct(cart, productId)
    else MapWhere(cart, LineIs(productId), SetQuantity(quantity))
  }

  /** Adding a known product at a positive cost keeps the cart invariant, and the product is then in the cart. */
  lemma AddKeepsValid(cart: seq<PurchaseCartItem>, catalog: seq<Product>, product: Product, cost: real)
    requires ValidCart(cart, catalog)
    requires FindProduct(catalog, product.id) == Some(product)
    requires cost > 0.0
    ensures ValidCart(AddedLine(cart, product, cost), catalog)
    ensures InCart(AddedLine(cart, product, cost), product.id)
    ensures |AddedLine(cart, product, cost)| == |cart| + (if InCart(cart, product.id) then 0 else 1)
  {
    if InCart(cart, product.id) {
      AddPresentKeepsValid(cart, catalog, product, cost);
    } else {
      AddAbsentKeepsValid(cart, catalog, product, cost);
    }
  }

  /** The case of `AddKeepsValid` where the product already has a line. */
  lemma AddPresentKeepsValid(cart: seq<PurchaseCartItem>, catalog: seq<Product>, product: Product, cost: real)
    requires ValidCart(cart, catalog) && InCart(cart, product.id)
    requires cost > 0.0
    ensures ValidCart(AddedLine(cart, product, cost), catalog)
    ensures InCart(AddedLine(cart, product, cost), product.id)
    ensures |AddedLine(cart, product, cost)| == |cart|
  {
    var r := AddedLine(cart, product, cost);
    MapWhereKeepsDistinct(cart, LineProductId, LineIs(product.id), Bumped(cost));
    forall i | 0 <= i < |r| ensures LineOk(r[i], catalog) {
      assert cart[i] in cart;
      assert r[i].productId == cart[i].productId && r[i].productName == cart[i].productName;
      assert r[i].quantity >= cart[i].quantity;
      assert r[i].costPricePerUnit == cart[i].costPricePerUnit || r[i].costPricePerUnit == cost;
    }
    assert forall line | line in r :: LineOk(line, catalog);
    var k :| 0 <= k < |cart| && cart[k].productId == product.id;
    assert r[k].productId == product.id;
  }

  /** The case of `AddKeepsValid` where the product is new to the cart. */
  lemma AddAbsentKeepsValid(cart: seq<PurchaseCartItem>, catalog: seq<Product>, product: Product, cost: real)
    requires ValidCart(cart, catalog) && !InCart(cart, product.id)
    requires FindProduct(catalog, product.id) == Some(product)
    requires cost > 0.0
    ensures ValidCart(AddedLine(cart, product, cost), catalog)
    ensures InCart(AddedLine(cart, product, cost), product.id)
    ensures |AddedLine(cart, product, cost)| == |cart| + 1
  {
    var r := AddedLine(cart, product, cost);
    forall i, j | 0 <= i < j < |r| ensures r[i].productId != r[j].productId {
      if j == |cart| {
        assert r[i] == cart[i];
      } else {
        assert r[i] == cart[i] && r[j] == cart[j];
      }
    }
    assert r[|cart|].productId == product.id;
  }

  lemma WithoutKeepsValid(cart: seq<PurchaseCartItem>, catalog: seq<Product>, productId: string)
    requires ValidCart(cart, catalog)
    ensures ValidCart(WithoutProduct(cart, productId), catalog)
    ensures !InCart(WithoutProduct(cart, productId), productId)
  {
    FilterKeepsDistinct(cart, LineProductId, LineIsNot(productId));
  }

  /** Setting a quantity keeps the cart invariant whatever the number. */
  lemma WithQuantityKeepsValid(cart: seq<PurchaseCartItem>, catalog: seq<Product>, productId: string, quantity: int)
    requires ValidCart(cart, catalog)
    ensures ValidCart(WithQuantity(cart, productId, quantity), catalog)
  {
    if quantity <= 0 {
      WithoutKeepsValid(cart, catalog, productId);
    } else {
      var r := WithQuantity(cart, productId, quantity);
      MapWhereKeepsDistinct(cart, LineProductId, LineIs(productId), SetQuantity(quantity));
      forall line | line in r ensures LineOk(line, catalog) {
        var i :| 0 <= i < |r| && r[i] == line;
        assert cart[i] in cart;
      }
    }
  }

  /** Updating or removing a product that has no line leaves the cart as it is. */
  lemma AbsentLineUnchanged(cart: seq<PurchaseCartItem>, productId: string, quantity: int)
    requires !InCart(cart, productId)
    ensures WithQuantity(cart, productId, quantity) == cart
    ensures WithoutProduct(cart, productId) == cart
  {
    FilterAll(cart, LineIsNot(productId));
  }

  function LineCost(line: PurchaseCartItem): real
  {
    line.costPricePerUnit * line.quantity as real
  }

  function ItemCost(item: PurchaseItem): real { item.totalCost }

  /** `totalCost`: the sum over the lines of unit cost times quantity. */
  function CartTotal(cart: seq<PurchaseCartItem>): (r: real)
    ensures cart == [] ==> r == 0.0
    ensures |cart| == 1 ==> r == cart[0].costPricePerUnit * cart[0].quantity as real
  {
    SumOf(cart, LineCost)
  }

  /** A valid cart costs something unless it is empty. */
  lemma {:induction false} CartTotalPositive(cart: seq<PurchaseCartItem>, catalog: seq<Product>)
    requires forall line :: line in cart ==> LineOk(line, catalog)
    ensures cart == [] ==> CartTotal(cart) == 0.0
    ensures cart != [] ==> CartTotal(cart) > 0.0
  {
    if cart != [] {
      assert cart[0] in cart;
      assert forall line :: line in cart[1..] ==> line in cart;
      CartTotalPositive(cart[1..], catalog);
    }
  }
  /** `CartTotalPositive` for a cart that may or may not be valid. */
  lemma CartTotalOfValid(cart: seq<PurchaseCartItem>, catalog: seq<Product>)
    ensures ValidCart(cart, catalog) ==> (CartTotal(cart) == 0.0 <==> cart == []) && CartTotal(cart) >= 0.0
  {
    if ValidCart(cart, catalog) {
      CartTotalPositive(cart, catalog);
    }
  }


  /** The lines as the saved record's items, each with its total. */
  function ToItems(cart: seq<PurchaseCartItem>): (items: seq<PurchaseItem>)
    ensures |items| == |cart|
    ensures forall i :: 0 <= i < |cart| ==>
      items[i] == PurchaseItem(cart[i].productId, cart[i].productName, cart[i].quantity,
                               cart[i].costPricePerUnit, cart[i].costPricePerUnit * cart[i].quantity as real)
  {
    if cart == [] then []
    else
      [PurchaseItem(cart[0].productId, cart[0].productName, cart[0].quantity,
                    cart[0].costPricePerUnit, cart[0].costPricePerUnit * cart[0].quantity as real)]
      + ToItems(cart[1..])
  }

  /** The cart's total is the sum of the items' totals. */
  lemma {:induction false} ItemsTotal(cart: seq<PurchaseCartItem>)
    ensures SumOf(ToItems(cart), ItemCost) == CartTotal(cart)
  {
    if cart != [] {
      ItemsTotal(cart[1..]);
      assert ToItems(cart)[1..] == ToItems(cart[1..]);
    }
  }

  /** The purchase record built from the cart at confirmation. */
  function BuildPurchase(cart: seq<PurchaseCartItem>, supplierName: string, paid: real,
                         id: string, date: string): (p: Purchase)
    ensures p.id == id && p.date == date && p.supplierName == supplierName && p.paidAmount == paid
    ensures p.items == ToItems(cart)
    ensures p.totalCost == SumOf(p.items, ItemCost)
    ensures p.remainingAmount == p.totalCost - p.paidAmount
    ensures p.status == Paid <==> p.paidAmount >= p.totalCost
  {
    ItemsTotal(cart);
    var total := CartTotal(cart);
    Purchase(id, date, supplierName, ToItems(cart), total, paid, total - paid,
             if paid >= total then Paid else PurchasePending)
  }

  datatype Rejection = EmptyCart | MissingSupplier | NegativePaid

  /** `parseFloat(paidAmount) || 0`: a blank or unreadable entry counts as nothing paid. */
  function PaidValue(paidAmount: Option<real>): (r: real)
    ensures paidAmount.None? ==> r == 0.0
    ensures r != 0.0 ==> paidAmount == Some(r)
    ensures r >= 0.0 <==> paidAmount.None? || paidAmount.value >= 0.0
  {
    paidAmount.GetOr(0.0)
  }

  /** The confirm checks, in the order the handler makes them. */
  function CheckForm(cart: seq<PurchaseCartItem>, supplierName: string, paidAmount: Option<real>): (r: Option<Rejection>)
    ensures r.None? <==>
      cart != [] && (exists k :: 0 <= k < |supplierName| && !IsWhitespace(supplierName[k])) &&
      PaidValue(paidAmount) >= 0.0
    ensures r == Some(EmptyCart) <==> cart == []
    ensures r == Some(MissingSupplier) <==>
      cart != [] && forall k :: 0 <= k < |supplierName| ==> IsWhitespace(supplierName[k])
  {
    TrimEmptyIff(supplierName);
    if cart == [] then Some(EmptyCart)
    else if Trim(supplierName) == [] then Some(MissingSupplier)
    else if PaidValue(paidAmount) < 0.0 then Some(NegativePaid)
    else None
  }

  datatype ConfirmOutcome = Rejected(reason: Rejection) | Recorded(purchase: Purchase)

  class PurchasesPage {
    const store: LedgerStore
    const catalog: seq<Product>
    var purchases: seq<Purchase>
    var stats: PurchaseStats
    var cart: seq<PurchaseCartItem>
    var supplierName: string
    var selectedProduct: string
    var costPrice: Option<real>
    var paidAmount: Option<real>

    ghost predicate Valid()
      reads this
    {
      ValidCart(cart, catalog)
    }

    /** The page as it mounts: an empty form, then `loadPurchases()`. */
    constructor (store: LedgerStore, catalog: seq<Product>)
      ensures Valid()
      ensures this.store == store && this.catalog == catalog
      ensures cart == [] && supplierName == "" && selectedProduct == "" && costPrice == None && paidAmount == None
      ensures purchases == store.GetPurchases() && stats == store.PurchaseStatistics()
    {
      this.store := store;
      this.catalog := catalog;
      cart := [];
      supplierName := "";
      selectedProduct := "";
      costPrice := None;
      paidAmount := None;
      purchases := store.GetPurchases();
      stats := store.PurchaseStatistics();
    }

    /** `totalCost` as the page shows it. */
    function TotalCost(): (r: real)
      reads this
      ensures ValidCart(cart, catalog) ==> (r == 0.0 <==> cart == []) && r >= 0.0
    {
      CartTotalOfValid(cart, catalog);
      CartTotal(cart)
    }

    /** `loadPurchases()`: refresh the list and the statistics from the store. */
    method LoadPurchases()
      modifies this
      ensures purchases == store.GetPurchases() && stats == store.PurchaseStatistics()
      ensures cart == old(cart) && supplierName == old(supplierName) && selectedProduct == old(selectedProduct)
      ensures costPrice == old(costPrice) && paidAmount == old(paidAmount)
    {
      purchases := store.GetPurchases();
      stats := store.PurchaseStatistics();
    }

    method SetSupplierName(name: string)
      modifies this`supplierName
      ensures supplierName == name
    {
      supplierName := name;
    }

    method SetSelectedProduct(productId: string)
      modifies this`selectedProduct
      ensures selectedProduct == productId
    {
      selectedProduct := productId;
    }

    /** The cost field; `None` is the empty field. */
    method SetCostPrice(cost: Option<real>)
      modifies this`costPrice
      ensures costPrice == cost
    {
      costPrice := cost;
    }

    /** The paid field; `None` is an empty or unreadable field. */
    method SetPaidAmount(paid: Option<real>)
      modifies this`paidAmount
      ensures paidAmount == paid
    {
      paidAmount := paid;
    }

    /**
     * `addToCart()`: nothing happens without a product and a cost, for an
     * unknown product or for a cost that is not positive; otherwise the unit
     * is added and both fields are cleared.
     */
    method AddToCart()
      requires Valid()
      modifies this`cart, this`selectedProduct, this`costPrice
      ensures Valid()
      ensures var found := FindProduct(catalog, old(selectedProduct));
        if old(selectedProduct) == "" || old(costPrice).None? || found.None? || old(costPrice).value <= 0.0
        then cart == old(cart) && selectedProduct == old(selectedProduct) && costPrice == old(costPrice)
        else (cart == AddedLine(old(cart), found.value, old(costPrice).value)
              && selectedProduct == "" && costPrice == None)
    {
      if selectedProduct == "" || costPrice.None? {
        return;
      }
      var found := FindProduct(catalog, selectedProduct);
      if found.None? {
        return;
      }
      var cost := costPrice.value;
      if cost <= 0.0 {
        return;
      }
      AddKeepsValid(cart, catalog, found.value, cost);
      cart := AddedLine(cart, found.value, cost);
      selectedProduct := "";
      costPrice := None;
    }

    /** `updateQuantity(productId, quantity)`: a quantity of 0 or less removes the line. */
    method UpdateQuantity(productId: string, quantity: int)
      requires Valid()
      modifies this`cart
      ensures Valid()
      ensures cart == WithQuantity(old(cart), productId, quantity)
    {
      WithQuantityKeepsValid(cart, catalog, productId, quantity);
      if quantity <= 0 {
        RemoveFromCart(productId);
        return;
      }
      cart := MapWhere(cart, LineIs(productId), SetQuantity(quantity));
    }

    /** `removeFromCart(productId)`. */
    method RemoveFromCart(productId: string)
      requires Valid()
      modifies this`cart
      ensures Valid()
      ensures cart == WithoutProduct(old(cart), productId)
    {
      WithoutKeepsValid(cart, catalog, productId);
      cart := WithoutProduct(cart, productId);
    }

    /** `handleClearForm()`: the product and cost fields are left as they are. */
    method ClearForm()
      modifies this`cart, this`supplierName, this`paidAmount
      ensures Valid()
      ensures cart == [] && supplierName == "" && paidAmount == None
    {
      cart := [];
      supplierName := "";
      paidAmount := None;
    }

    /**
     * `handleConfirmPurchase()`: reject an empty cart, a blank supplier or a
     * negative payment without touching anything; otherwise save the purchase
     * with a fresh id and today's date, clear the form and reload.
     */
    method ConfirmPurchase(timestamp: nat, draw: real, today: string) returns (outcome: ConfirmOutcome)
      requires Valid()
      requires 0.0 <= draw < 1.0
      modifies this, store
      ensures Valid()
      ensures var check := CheckForm(old(cart), old(supplierName), old(paidAmount));
        check.Some? ==>
          && outcome == Rejected(check.value)
          && cart == old(cart) && supplierName == old(supplierName) && paidAmount == old(paidAmount)
          && store.purchases == old(store.purchases) && store.orders == old(store.orders)
          && purchases == old(purchases) && stats == old(stats)
      ensures CheckForm(old(cart), old(supplierName), old(paidAmount)).None? ==>
        && outcome == Recorded(BuildPurchase(old(cart), Trim(old(supplierName)), PaidValue(old(paidAmount)),
                                             GenerateId("PUR", timestamp, draw), today))
        && store.purchases == Parsed([outcome.purchase] + old(store.GetPurchases()))
        && store.orders == old(store.orders)
        && cart == [] && supplierName == "" && paidAmount == None
        && purchases == store.GetPurchases() && stats == store.PurchaseStatistics()
      ensures selectedProduct == old(selectedProduct) && costPrice == old(costPrice)
    {
      var check := CheckForm(cart, supplierName, paidAmount);
      if check.Some? {
        return Rejected(check.value);
      }
      var paid := PaidValue(paidAmount);
      var purchase := BuildPurchase(cart, Trim(supplierName), paid, GenerateId("PUR", timestamp, draw), today);
      store.SavePurchase(purchase);
      ClearForm();
      LoadPurchases();
      return Recorded(purchase);
    }
  }

  /** What a successful confirm records, read off the record itself. */
  lemma RecordedPurchaseFacts(cart: seq<PurchaseCartItem>, catalog: seq<Product>, supplierName: string,
                              paid: real, id: string, date: string)
    requires ValidCart(cart, catalog) && cart != [] && paid >= 0.0
    ensures var p := BuildPurchase(cart, supplierName, paid, id, date);
      && p.totalCost > 0.0
      && (paid == p.totalCost ==> p.status == Paid && p.remainingAmount == 0.0)
      && (paid < p.totalCost ==> p.status == PurchasePending && p.remainingAmount > 0.0)
      && forall i :: 0 <= i < |p.items| ==> p.items[i].totalCost == p.items[i].costPricePerUnit * p.items[i].quantity as real
  {
    CartTotalPositive(cart, catalog);
  }
}
