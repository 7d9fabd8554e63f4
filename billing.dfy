/**
 * The billing page: a sales cart of catalog products with quantities, the
 * customer name, and the subtotal, 18% tax and total shown on the invoice.
 * Nothing here is saved; the page only prints.
 */
module Billing {
  import opened Wrappers
  import opened Seqs
  import opened Catalog

  datatype CartItem = CartItem(product: Product, quantity: int)

  function ItemProductId(item: CartItem): string { item.product.id }

  function ItemIs(productId: string): CartItem -> bool
  {
    (item: CartItem) => item.product.id == productId
  }

  function ItemIsNot(productId: string): CartItem -> bool
  {
    (item: CartItem) => item.product.id != productId
  }

  function SetQuantity(quantity: int): CartItem -> CartItem
  {
    (item: CartItem) => item.(quantity := quantity)
  }

  /** The cart invariant: one line per product, each a catalog product with quantity at least 1. */
  predicate ValidCart(cart: seq<CartItem>, catalog: seq<Product>)
  {
    && KeysDistinct(cart, ItemProductId)
    && forall item :: item in cart ==>
         item.quantity >= 1 && FindProduct(catalog, item.product.id) == Some(item.product)
  }

  /** `cart.find(item => item.product.id === productId)` finds something. */
  predicate InCart(cart: seq<CartItem>, productId: string): (b: bool)
    ensures b <==> FirstIndex(cart, ItemIs(productId)) != -1
  {
    exists i :: 0 <= i < |cart| && cart[i].product.id == productId
  }

  /** `cart.filter(item => item.product.id !== productId)`. */
  function WithoutProduct(cart: seq<CartItem>, productId: string): (r: seq<CartItem>)
    ensures IsSubsequence(r, cart)
    ensures forall item :: item in r <==> item in cart && item.product.id != productId
  {
    FilterIsSubsequence(cart, ItemIsNot(productId));
    Filter(cart, ItemIsNot(productId))
  }

  /** The cart after `updateQuantity(productId, quantity)`. */
  function WithQuantity(cart: seq<CartItem>, productId: string, quantity: int): (r: seq<CartItem>)
    ensures quantity <= 0 ==> r == WithoutProduct(cart, productId)
    ensures quantity > 0 ==> (|r| == |cart| &&
      forall i :: 0 <= i < |cart| ==>
        r[i] == if cart[i].product.id == productId then cart[i].(quantity := quantity) else cart[i])
  {
    if quantity <= 0 then WithoutProduct(cart, productId)
    else MapWhere(cart, ItemIs(productId), SetQuantity(quantity))
  }

  /**
   * The position of the line `cart.find(item => item.product.id === productId)`
   * returns, or -1 when it returns nothing.
   */
  function LineIndex(cart: seq<CartItem>, productId: string): (k: int)
    ensures -1 <= k < |cart|
    ensures k == -1 <==> !InCart(cart, productId)
    ensures k != -1 ==> cart[k].product.id == productId
    ensures k != -1 ==> forall j :: 0 <= j < k ==> cart[j].product.id != productId
  {
    FirstIndex(cart, ItemIs(productId))
  }

  /** The cart with one more unit on line `k`. */
  function BumpLine(cart: seq<CartItem>, k: int): seq<CartItem>
    requires 0 <= k < |cart|
  {
    cart[k := cart[k].(quantity := cart[k].quantity + 1)]
  }

  /** The cart after `addToCart()` with `product` selected: the first line for it goes up by one, or a new line of one. */
  function AddedItem(cart: seq<CartItem>, product: Product): (r: seq<CartItem>)
    ensures !InCart(cart, product.id) ==> r == cart + [CartItem(product, 1)]
  {
    var k := LineIndex(cart, product.id);
    if k != -1 then WithQuantity(cart, product.id, cart[k].quantity + 1)
    else cart + [CartItem(product, 1)]
  }

  /** In a valid cart the product has one line at most, so adding it bumps exactly that line. */
  lemma AddBumpsOnlyItsLine(cart: seq<CartItem>, catalog: seq<Product>, product: Product)
    requires ValidCart(cart, catalog)
    requires InCart(cart, product.id)
    ensures 0 <= LineIndex(cart, product.id)
    ensures AddedItem(cart, product) == BumpLine(cart, LineIndex(cart, product.id))
  {
    var k := LineIndex(cart, product.id);
    assert cart[k] in cart;
    OnlyLineOf(cart, catalog, product.id, k);
    WithQuantityOnlyLine(cart, product.id, cart[k].quantity + 1, k);
  }

  /** In a valid cart a line of the product is its only line. */
  lemma OnlyLineOf(cart: seq<CartItem>, catalog: seq<Product>, productId: string, k: int)
    requires ValidCart(cart, catalog) && 0 <= k < |cart| && cart[k].product.id == productId
    ensures forall i :: 0 <= i < |cart| && i != k ==> cart[i].product.id != productId
  {
    forall i | 0 <= i < |cart| && i != k ensures cart[i].product.id != productId {
      if k < i {
        assert ItemProductId(cart[k]) != ItemProductId(cart[i]);
      } else {
        assert ItemProductId(cart[i]) != ItemProductId(cart[k]);
      }
    }
  }

  /** When line `k` is the product's only line, a positive quantity update is an update of that line alone. */
  lemma WithQuantityOnlyLine(cart: seq<CartItem>, productId: string, quantity: int, k: int)
    requires quantity > 0 && 0 <= k < |cart| && cart[k].product.id == productId
    requires forall i :: 0 <= i < |cart| && i != k ==> cart[i].product.id != productId
    ensures WithQuantity(cart, productId, quantity) == cart[k := cart[k].(quantity := quantity)]
  {
    assert forall i :: 0 <= i < |cart| && i != k ==> !ItemIs(productId)(cart[i]);
    MapWhereSingle(cart, ItemIs(productId), SetQuantity(quantity), k);
  }

  lemma WithoutKeepsValid(cart: seq<CartItem>, catalog: seq<Product>, productId: string)
    requires ValidCart(cart, catalog)
    ensures ValidCart(WithoutProduct(cart, productId), catalog)
    ensures !InCart(WithoutProduct(cart, productId), productId)
  {
    FilterKeepsDistinct(cart, ItemProductId, ItemIsNot(productId));
  }

  lemma WithQuantityKeepsValid(cart: seq<CartItem>, catalog: seq<Product>, productId: string, quantity: int)
    requires ValidCart(cart, catalog)
    ensures ValidCart(WithQuantity(cart, productId, quantity), catalog)
  {
    if quantity <= 0 {
      WithoutKeepsValid(cart, catalog, productId);
    } else {
      var r := WithQuantity(cart, productId, quantity);
      MapWhereKeepsDistinct(cart, ItemProductId, ItemIs(productId), SetQuantity(quantity));
      forall item | item in r
        ensures item.quantity >= 1 && FindProduct(catalog, item.product.id) == Some(item.product)
      {
        var i :| 0 <= i < |r| && r[i] == item;
        assert cart[i] in cart;
      }
    }
  }

  /** Adding a catalog product keeps the invariant, and the product is then in the cart. */
  lemma AddKeepsValid(cart: seq<CartItem>, catalog: seq<Product>, product: Product)
    requires ValidCart(cart, catalog)
    requires FindProduct(catalog, product.id) == Some(product)
    ensures ValidCart(AddedItem(cart, product), catalog)
    ensures InCart(AddedItem(cart, product), product.id)
    ensures |AddedItem(cart, product)| == |cart| + (if InCart(cart, product.id) then 0 else 1)
  {
    if InCart(cart, product.id) {
      AddPresentKeepsValid(cart, catalog, product);
    } else {
      AddAbsentKeepsValid(cart, catalog, product);
    }
  }

  /** The case of `AddKeepsValid` where the product already has a line. */
  lemma AddPresentKeepsValid(cart: seq<CartItem>, catalog: seq<Product>, product: Product)
    requires ValidCart(cart, catalog) && InCart(cart, product.id)
    ensures ValidCart(AddedItem(cart, product), catalog)
    ensures InCart(AddedItem(cart, product), product.id)
    ensures |AddedItem(cart, product)| == |cart|
  {
    var r := AddedItem(cart, product);
    var k := LineIndex(cart, product.id);
    assert cart[k] in cart;
    WithQuantityKeepsValid(cart, catalog, product.id, cart[k].quantity + 1);
    assert r[k].product.id == product.id;
  }

  /** The case of `AddKeepsValid` where the product is new to the cart. */
  lemma AddAbsentKeepsValid(cart: seq<CartItem>, catalog: seq<Product>, product: Product)
    requires ValidCart(cart, catalog) && !InCart(cart, product.id)
    requires FindProduct(catalog, product.id) == Some(product)
    ensures ValidCart(AddedItem(cart, product), catalog)
    ensures InCart(AddedItem(cart, product), product.id)
    ensures |AddedItem(cart, product)| == |cart| + 1
  {
    var r := AddedItem(cart, product);
    forall i, j | 0 <= i < j < |r| ensures r[i].product.id != r[j].product.id {
      if j == |cart| {
        assert r[i] == cart[i];
      } else {
        assert r[i] == cart[i] && r[j] == cart[j];
      }
    }
    assert r[|cart|].product.id == product.id;
  }

  /** Updating or removing a product that has no line leaves the cart as it is. */
  lemma AbsentLineUnchanged(cart: seq<CartItem>, productId: string, quantity: int)
    requires !InCart(cart, productId)
    ensures WithQuantity(cart, productId, quantity) == cart
    ensures WithoutProduct(cart, productId) == cart
  {
    FilterAll(cart, ItemIsNot(productId));
  }

  const TaxRate: real := 0.18

  function ItemAmount(item: CartItem): real
  {
    item.product.price * item.quantity as real
  }

  /** `subtotal`: price times quantity, summed over the lines. */
  function Subtotal(cart: seq<CartItem>): (r: real)
    ensures cart == [] ==> r == 0.0
    ensures (forall i :: 0 <= i < |cart| ==> cart[i].product.price >= 0.0 && cart[i].quantity >= 0) ==> r >= 0.0
  {
    SumNonNegative(cart, ItemAmount);
    SumOf(cart, ItemAmount)
  }

  /** `tax`: 18% of the subtotal, unrounded. */
  function Tax(cart: seq<CartItem>): (r: real)
    ensures Subtotal(cart) >= 0.0 ==> 0.0 <= r <= Subtotal(cart)
    ensures r == 0.0 <==> Subtotal(cart) == 0.0
  {
    Subtotal(cart) * TaxRate
  }

  /** `total`: subtotal plus tax. */
  function Total(cart: seq<CartItem>): (r: real)
    ensures r == Subtotal(cart) * 1.18
  {
    Subtotal(cart) + Tax(cart)
  }

  /** One more unit on a line adds one unit price to its amount. */
  lemma BumpedAmount(item: CartItem)
    ensures ItemAmount(item.(quantity := item.quantity + 1)) == ItemAmount(item) + item.product.price
  {
    var p, q := item.product.price, item.quantity as real;
    assert p * (q + 1.0) == p * q + p;
  }

  /** One more unit on line `k` raises the subtotal by that line's price. */
  lemma SubtotalBump(cart: seq<CartItem>, k: int)
    requires 0 <= k < |cart|
    ensures Subtotal(BumpLine(cart, k)) == Subtotal(cart) + cart[k].product.price
  {
    SumUpdate(cart, k, cart[k].(quantity := cart[k].quantity + 1), ItemAmount);
    BumpedAmount(cart[k]);
  }

  /** A new line adds its own amount to the subtotal. */
  lemma SubtotalAppend(cart: seq<CartItem>, item: CartItem)
    ensures Subtotal(cart + [item]) == Subtotal(cart) + ItemAmount(item)
  {
    SumConcat(cart, [item], ItemAmount);
    assert SumOf([item], ItemAmount) == ItemAmount(item);
  }

  /** In a valid cart, a line with a catalog product's id holds that very product. */
  lemma LineOfProduct(cart: seq<CartItem>, catalog: seq<Product>, product: Product, k: int)
    requires ValidCart(cart, catalog)
    requires FindProduct(catalog, product.id) == Some(product)
    requires 0 <= k < |cart| && cart[k].product.id == product.id
    ensures cart[k].product == product
  {
    assert cart[k] in cart;
  }

  lemma AddPresentRaisesSubtotal(cart: seq<CartItem>, catalog: seq<Product>, product: Product)
    requires ValidCart(cart, catalog)
    requires FindProduct(catalog, product.id) == Some(product)
    requires InCart(cart, product.id)
    ensures Subtotal(AddedItem(cart, product)) == Subtotal(cart) + product.price
  {
    var k := LineIndex(cart, product.id);
    AddBumpsOnlyItsLine(cart, catalog, product);
    LineOfProduct(cart, catalog, product, k);
    SubtotalBump(cart, k);
  }

  lemma AddAbsentRaisesSubtotal(cart: seq<CartItem>, product: Product)
    requires !InCart(cart, product.id)
    ensures Subtotal(AddedItem(cart, product)) == Subtotal(cart) + product.price
  {
    var item := CartItem(product, 1);
    SubtotalAppend(cart, item);
    assert ItemAmount(item) == product.price;
  }

  /** Adding one unit of a catalog product raises the subtotal by exactly its price. */
  lemma AddRaisesSubtotal(cart: seq<CartItem>, catalog: seq<Product>, product: Product)
    requires ValidCart(cart, catalog)
    requires FindProduct(catalog, product.id) == Some(product)
    ensures Subtotal(AddedItem(cart, product)) == Subtotal(cart) + product.price
  {
    if InCart(cart, product.id) {
      AddPresentRaisesSubtotal(cart, catalog, product);
    } else {
      AddAbsentRaisesSubtotal(cart, product);
    }
  }

  /** Premium Rice x 50 and Cooking Oil x 20. */
  lemma InvoiceExample()
    ensures var cart := [CartItem(Products[0], 50), CartItem(Products[3], 20)];
      Subtotal(cart) == 4699.50 && Tax(cart) == 845.91 && Total(cart) == 5545.41
  {
    var rice, oil := CartItem(Products[0], 50), CartItem(Products[3], 20);
    var cart := [rice, oil];
    assert ItemAmount(rice) == 2299.50;
    assert ItemAmount(oil) == 2400.00;
    assert cart[1..] == [oil];
    assert SumOf([oil], ItemAmount) == 2400.00;
    assert Subtotal(cart) == 4699.50;
  }

  class BillingPage {
    const catalog: seq<Product>
    var cart: seq<CartItem>
    var customerName: string
    var selectedProduct: string

    ghost predicate Valid()
      reads this
    {
      ValidCart(cart, catalog)
    }

    constructor (catalog: seq<Product>)
      ensures Valid()
      ensures this.catalog == catalog && cart == [] && customerName == "" && selectedProduct == ""
    {
      this.catalog := catalog;
      cart := [];
      customerName := "";
      selectedProduct := "";
    }

    method SetCustomerName(name: string)
      modifies this`customerName
      ensures customerName == name
    {
      customerName := name;
    }

    method SetSelectedProduct(productId: string)
      modifies this`selectedProduct
      ensures selectedProduct == productId
    {
      selectedProduct := productId;
    }

    /** `addToCart()`: nothing happens without a selection or for an unknown product. */
    method AddToCart()
      requires Valid()
      modifies this`cart, this`selectedProduct
      ensures Valid()
      ensures var found := FindProduct(catalog, old(selectedProduct));
        if old(selectedProduct) == "" || found.None?
        then cart == old(cart) && selectedProduct == old(selectedProduct)
        else (cart == AddedItem(old(cart), found.value) && selectedProduct == "")
    {
      if selectedProduct == "" {
        return;
      }
      var found := FindProduct(catalog, selectedProduct);
      if found.None? {
        return;
      }
      var product := found.value;
      ghost var before := cart;
      var k := FindIndex(cart, ItemIs(product.id));
      if k != -1 {
        UpdateQuantity(product.id, cart[k].quantity + 1);
      } else {
        AddKeepsValid(before, catalog, product);
        cart := cart + [CartItem(product, 1)];
      }
      selectedProduct := "";
    }

    /** `updateQuantity(productId, quantity)`: a quantity of 0 or less removes the line. */
    method UpdateQuantity(productId: string, quantity: int)
      requires Valid()
      modifies this`cart
      ensures Valid()
      ensures cart == WithQuantity(old(cart), productId, quantity)
    {
      WithQuantityKeepsValid(cart, catalog, productId, quantity);
      if quantity <= 0 {
        RemoveFromCart(productId);
        return;
      }
      cart := MapWhere(cart, ItemIs(productId), SetQuantity(quantity));
    }

    /** `removeFromCart(productId)`. */
    method RemoveFromCart(productId: string)
      requires Valid()
      modifies this`cart
      ensures Valid()
      ensures cart == WithoutProduct(old(cart), productId)
    {
      WithoutKeepsValid(cart, catalog, productId);
      cart := WithoutProduct(cart, productId);
    }

    /** `handleClearCart()`. */
    method ClearCart()
      modifies this`cart, this`customerName
      ensures Valid()
      ensures cart == [] && customerName == ""
    {
      cart := [];
      customerName := "";
    }
  }
}
