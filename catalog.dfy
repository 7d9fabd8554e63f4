/** The product catalog: a fixed list of products, looked up by id. */
module Catalog {
  import opened Wrappers

  datatype Product = Product(
    id: string,
    name: string,
    category: string,
    price: real,
    stock: int,
    barcode: string,
    unit: string)

  /** The ten products the application ships with. */
  const Products: seq<Product> := [
    Product("1", "Premium Rice", "Grains", 45.99, 500, "1234567890123", "kg"),
    Product("2", "Organic Wheat Flour", "Grains", 35.50, 350, "2345678901234", "kg"),
    Product("3", "Basmati Rice", "Grains", 65.00, 200, "3456789012345", "kg"),
    Product("4", "Cooking Oil", "Oils", 120.00, 150, "4567890123456", "L"),
    Product("5", "Sunflower Oil", "Oils", 110.00, 180, "5678901234567", "L"),
    Product("6", "Red Lentils", "Pulses", 55.00, 300, "6789012345678", "kg"),
    Product("7", "Chickpeas", "Pulses", 48.00, 250, "7890123456789", "kg"),
    Product("8", "Black Beans", "Pulses", 52.00, 220, "8901234567890", "kg"),
    Product("9", "White Sugar", "Sweeteners", 38.00, 400, "9012345678901", "kg"),
    Product("10", "Brown Sugar", "Sweeteners", 42.00, 280, "0123456789012", "kg")
  ]

  /** The fixture has ten products with distinct ids and positive prices. */
  lemma ProductsFixture()
    ensures |Products| == 10
    ensures forall i, j :: 0 <= i < j < |Products| ==> Products[i].id != Products[j].id
    ensures forall i :: 0 <= i < |Products| ==> Products[i].price > 0.0 && Products[i].stock > 0
  {
  }

  /** With distinct ids, looking up a product's own id finds that product. */
  lemma FindOwnId(catalog: seq<Product>, i: int)
    requires forall j, k :: 0 <= j < k < |catalog| ==> catalog[j].id != catalog[k].id
    requires 0 <= i < |catalog|
    ensures FindProduct(catalog, catalog[i].id) == Some(catalog[i])
  {
    var r := FindProduct(catalog, catalog[i].id);
    var j :| 0 <= j < |catalog| && catalog[j] == r.value && forall k :: 0 <= k < j ==> catalog[k].id != catalog[i].id;
    assert j == i;
  }

  /** `products.find(p => p.id === id)`: the first product with that id, if any. */
  function FindProduct(catalog: seq<Product>, id: string): (r: Option<Product>)
    ensures r.None? <==> forall i :: 0 <= i < |catalog| ==> catalog[i].id != id
    ensures r.Some? ==> (r.value.id == id &&
      exists i :: 0 <= i < |catalog| && catalog[i] == r.value &&
        forall j :: 0 <= j < i ==> catalog[j].id != id)
  {
    if catalog == [] then None
    else if catalog[0].id == id then Some(catalog[0])
    else
      var r := FindProduct(catalog[1..], id);
      if r.Some? then
        var i :| 0 <= i < |catalog[1..]| && catalog[1..][i] == r.value &&
          forall j :: 0 <= j < i ==> catalog[1..][j].id != id;
        assert catalog[i + 1] == r.value;
        r
      else r
  }
}
