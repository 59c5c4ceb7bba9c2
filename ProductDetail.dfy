/** The product detail page (src/pages/ProductDetail.tsx) over the bundled catalog. */
module ProductDetail {
  import opened Wrappers
  import opened Sequences
  import opened StaticCatalog
  import ProductCard

  /** `products.find(p => p.id === id)` */
  function FindProduct(catalog: seq<Product>, id: string): Option<Product> {
    Find(catalog, (p: Product) => p.id == id)
  }

  /** `p.category === product?.category && p.id !== id`: nothing matches a missing product. */
  predicate IsRelated(p: Product, found: Option<Product>, id: string) {
    found.Some? && p.category == found.value.category && p.id != id
  }

  /** `products.filter(IsRelated)`: every related product, in catalog order. */
  function RelatedMatches(catalog: seq<Product>, id: string): seq<Product> {
    var found := FindProduct(catalog, id);
    Filter(catalog, (p: Product) => IsRelated(p, found, id))
  }

  /** `products.filter(IsRelated).slice(0, 3)` */
  function RelatedProducts(catalog: seq<Product>, id: string): seq<Product> {
    Take(RelatedMatches(catalog, id), 3)
  }

  /** The looked-up product is the first one with the route id, and there is none only when no id matches. */
  lemma FindProductFirst(catalog: seq<Product>, id: string)
    ensures FindProduct(catalog, id).None? <==> forall i :: 0 <= i < |catalog| ==> catalog[i].id != id
    ensures FindProduct(catalog, id).Some? ==>
      exists i :: 0 <= i < |catalog| && catalog[i] == FindProduct(catalog, id).value
        && catalog[i].id == id && forall j :: 0 <= j < i ==> catalog[j].id != id
  {
  }

  /**
   * The related products are the first min(3, m) of the m catalog products that share the found
   * product's category and have another id, in catalog order. So there are at most three; each
   * is such a product; fewer than three leave none out; and there are none without a found product.
   */
  lemma RelatedProductsSpec(catalog: seq<Product>, id: string)
    ensures var all, r := RelatedMatches(catalog, id), RelatedProducts(catalog, id);
      && (forall p :: p in all <==> p in catalog && IsRelated(p, FindProduct(catalog, id), id))
      && IsSubsequence(all, catalog)
      && |r| == (if |all| < 3 then |all| else 3)
      && r == all[..|r|]
    ensures var r := RelatedProducts(catalog, id);
      && |r| <= 3
      && (forall p :: p in r ==>
            p in catalog && FindProduct(catalog, id).Some?
            && p.category == FindProduct(catalog, id).value.category && p.id != id)
      && (|r| == 3 || forall p :: p in catalog && IsRelated(p, FindProduct(catalog, id), id) ==> p in r)
      && IsSubsequence(r, catalog)
    ensures FindProduct(catalog, id).None? ==> RelatedProducts(catalog, id) == []
  {
    var found := FindProduct(catalog, id);
    var keep := (p: Product) => IsRelated(p, found, id);
    var all := RelatedMatches(catalog, id);
    var r := RelatedProducts(catalog, id);
    assert r == all[..|r|];
    forall p ensures p in all <==> p in catalog && keep(p) {
      FilterMembership(catalog, keep, p);
    }
    forall p | p in r ensures p in catalog && keep(p) {
      FilterMembership(catalog, keep, p);
    }
    if |r| < 3 {
      assert r == all;
    }
    FilterIsSubsequence(catalog, keep);
    PrefixOfSubsequence(r, all, catalog);
  }

  /** What the page shows for a route id. */
  datatype Page =
    | NotFound
    | Detail(product: Product, hasDiscount: bool, discountPercent: int, buyNowDisabled: bool,
             addToCartDisabled: bool, related: seq<Product>)

  function DetailPage(catalog: seq<Product>, id: string): Page {
    match FindProduct(catalog, id)
    case None => NotFound
    case Some(p) =>
      Detail(p, ProductCard.HasDiscount(p), ProductCard.DiscountPercent(p), !p.inStock, !p.inStock,
             RelatedProducts(catalog, id))
  }

  /** The page: not found iff no id matches; both purchase buttons are disabled iff out of stock. */
  lemma DetailPageSpec(catalog: seq<Product>, id: string)
    ensures DetailPage(catalog, id).NotFound? <==> forall i :: 0 <= i < |catalog| ==> catalog[i].id != id
    ensures DetailPage(catalog, id).Detail? ==>
      var d := DetailPage(catalog, id);
      && d.product.id == id
      && (d.buyNowDisabled <==> !d.product.inStock)
      && (d.addToCartDisabled <==> !d.product.inStock)
      && (d.hasDiscount <==> d.product.originalPrice.Some? && d.product.originalPrice.value != 0
                             && d.product.originalPrice.value > d.product.price)
      && (!d.hasDiscount ==> d.discountPercent == 0)
  {
  }

  /** On the bundled catalog, the serum's related products are the other two skin-care products. */
  lemma SerumRelated()
    ensures RelatedProducts(Products, "1") == [Products[1], Products[5]]
  {
    var found := FindProduct(Products, "1");
    assert found == Some(Products[0]);
    var keep := (p: Product) => IsRelated(p, found, "1");
    assert Filter(Products[5..], keep) == [Products[5]];
    assert Filter(Products[4..], keep) == [Products[5]];
    assert Filter(Products[3..], keep) == [Products[5]];
    assert Filter(Products[2..], keep) == [Products[5]];
    assert Filter(Products[1..], keep) == [Products[1], Products[5]];
  }
}
