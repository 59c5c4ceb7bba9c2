/** The discount and badge rules of the product card (src/components/shop/ProductCard.tsx). */
module ProductCard {
  import opened Wrappers
  import opened JsNumbers
  import opened StaticCatalog

  /** `originalPrice && originalPrice > price`: a zero original price is falsy. */
  predicate HasDiscount(p: Product) {
    p.originalPrice.Some? && p.originalPrice.value != 0 && p.originalPrice.value > p.price
  }

  /** `Math.round((originalPrice - price) / originalPrice * 100)` with a discount, else 0. */
  function DiscountPercent(p: Product): (r: int)
    ensures !HasDiscount(p) ==> r == 0
    ensures HasDiscount(p) && p.originalPrice.value > 0 ==>
      var o := p.originalPrice.value;
      (2 * r - 1) * o <= 200 * (o - p.price) < (2 * r + 1) * o
  {
    if HasDiscount(p) then
      var o := p.originalPrice.value;
      RoundDiv(100 * (o - p.price), o)
    else 0
  }

  /** A sale price strictly between zero and the original price gives a percentage in 0..100. */
  lemma DiscountPercentBounds(p: Product)
    requires p.originalPrice.Some? && 0 < p.price < p.originalPrice.value
    ensures 0 <= DiscountPercent(p) <= 100
  {
    var o, r := p.originalPrice.value, DiscountPercent(p);
    assert (2 * r - 1) * o - 200 * o < 0;
    assert (2 * r - 201) * o < 0;
    FactorSign(2 * r - 201, o);
    assert (2 * r + 1) * o > 0;
    FactorSign(-(2 * r + 1), o);
  }

  lemma FactorSign(x: int, o: int)
    requires o > 0 && x * o < 0
    ensures x < 0
  {
  }

  datatype Badge = DiscountBadge(percent: int) | FeaturedBadge

  /** The badges drawn over the image: the discount badge, else the featured badge. */
  function Badges(p: Product): seq<Badge> {
    (if HasDiscount(p) then [DiscountBadge(DiscountPercent(p))] else [])
    + (if p.featured && !HasDiscount(p) then [FeaturedBadge] else [])
  }

  /** At most one badge; the discount badge iff a discount; the featured badge iff featured without one. */
  lemma BadgeRules(p: Product)
    ensures |Badges(p)| <= 1
    ensures DiscountBadge(DiscountPercent(p)) in Badges(p) <==> HasDiscount(p)
    ensures FeaturedBadge in Badges(p) <==> p.featured && !HasDiscount(p)
  {
  }

  /** The struck-through original price is shown exactly with a discount. */
  function StruckPrice(p: Product): (r: Option<int>)
    ensures r.Some? <==> HasDiscount(p)
    ensures r.Some? ==> r == p.originalPrice && r.value > p.price
  {
    if HasDiscount(p) then p.originalPrice else None
  }

  /** The first bundled product, 890000 down from 1100000, shows "19%". */
  lemma SerumDiscount()
    ensures DiscountPercent(Products[0]) == 19
  {
    var r := DiscountPercent(Products[0]);
    assert (2 * r - 1) * 1100000 <= 42000000 < (2 * r + 1) * 1100000;
  }
}
