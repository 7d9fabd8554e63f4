/**
 * The catalog page's search: a product is shown when the term occurs in its
 * name or category, ignoring case, or in its barcode as typed.
 */
module ProductSearch {
  import opened Seqs
  import opened Text
  import opened Catalog

  predicate NameOrCategoryMatch(product: Product, searchTerm: string)
  {
    Contains(Lower(product.name), Lower(searchTerm)) || Contains(Lower(product.category), Lower(searchTerm))
  }

  predicate Matches(product: Product, searchTerm: string)
  {
    NameOrCategoryMatch(product, searchTerm) || Contains(product.barcode, searchTerm)
  }

  function MatchesTerm(searchTerm: string): Product -> bool
  {
    (product: Product) => Matches(product, searchTerm)
  }

  /** `filteredProducts`: the matching products, in catalog order; an empty term shows them all. */
  function FilteredProducts(products: seq<Product>, searchTerm: string): (r: seq<Product>)
    ensures IsSubsequence(r, products)
    ensures forall p :: p in r <==> p in products && Matches(p, searchTerm)
    ensures searchTerm == "" ==> r == products
  {
    FilterIsSubsequence(products, MatchesTerm(searchTerm));
    if searchTerm == "" then
      assert forall i :: 0 <= i < |products| ==> Contains(products[i].barcode, searchTerm);
      FilterAll(products, MatchesTerm(searchTerm));
      Filter(products, MatchesTerm(searchTerm))
    else
      Filter(products, MatchesTerm(searchTerm))
  }

  /** Name and category matching does not depend on the case the term is typed in. */
  lemma NameOrCategoryIgnoresCase(product: Product, term1: string, term2: string)
    requires Lower(term1) == Lower(term2)
    ensures NameOrCategoryMatch(product, term1) == NameOrCategoryMatch(product, term2)
    ensures NameOrCategoryMatch(product, term1) == NameOrCategoryMatch(product, Lower(term1))
  {
    LowerIdempotent(term1);
  }

  /** The barcode is matched as typed: a lower-case term misses an upper-case barcode. */
  lemma BarcodeCaseSensitive()
    ensures var p := Product("11", "Tea", "Tea", 10.0, 5, "AB1", "kg");
      Matches(p, "AB") && !Matches(p, "ab")
  {
    var p := Product("11", "Tea", "Tea", 10.0, 5, "AB1", "kg");
    assert "AB" <= p.barcode;
    assert Lower("ab") == "ab";
    assert Lower("Tea") == "tea";
    assert !Contains("a", "ab") && !Contains("ea", "ab") && !Contains("tea", "ab");
    assert !Contains("1", "ab") && !Contains("B1", "ab") && !Contains("AB1", "ab");
  }

  /** On the shipped catalog, "OIL" and "Oil" each match both products in category Oils. */
  lemma CategorySearchExample()
    ensures Matches(Products[3], "OIL") && Matches(Products[4], "OIL")
    ensures Matches(Products[3], "Oil") && Matches(Products[4], "Oil")
  {
    var oil := "oil";
    assert Products[3].category == "Oils" && Products[4].category == "Oils";
    assert Lower("OIL") == oil && Lower("Oil") == oil;
    assert Lower("Oils") == "oils";
    ContainsAt("oils", oil);
    assert OccursAt("oils", oil, 0);
  }
}
