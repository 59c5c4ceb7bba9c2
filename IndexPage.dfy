/** The home page's derived lists and section conditions (src/pages/Index.tsx). */
module IndexPage {
  import opened Wrappers
  import opened Sequences
  import opened Database
  import Seo
  import SiteContext

  /** `products.filter(p => p.featured)` */
  function FeaturedProducts(products: seq<Product>): seq<Product> {
    Filter(products, (p: Product) => p.featured)
  }

  datatype Sections = Sections(showCategories: bool, latest: seq<Product>, showFeatured: bool,
                               featured: seq<Product>)

  /** The category strip, the latest five products and, when any is featured, the first four featured. */
  function HomeSections(products: seq<Product>, categories: seq<Category>): Sections {
    var featured := FeaturedProducts(products);
    Sections(|categories| > 0, Take(products, 5), |featured| > 0, Take(featured, 4))
  }

  /** The featured list is exactly the featured products, in catalog order. */
  lemma FeaturedProductsSpec(products: seq<Product>, p: Product)
    ensures p in FeaturedProducts(products) <==> p in products && p.featured
    ensures IsSubsequence(FeaturedProducts(products), products)
  {
    FilterMembership(products, (p: Product) => p.featured, p);
    FilterIsSubsequence(products, (p: Product) => p.featured);
  }

  /** The latest section shows min(5, |products|) products, a prefix of the list. */
  lemma LatestSection(products: seq<Product>, categories: seq<Category>)
    ensures var l := HomeSections(products, categories).latest;
      |l| == (if |products| < 5 then |products| else 5) && l == products[..|l|]
  {
  }

  /**
   * The featured section is rendered iff some product is featured; it shows min(4, |featured|)
   * products, a prefix of the featured list, each of them featured.
   */
  lemma FeaturedSection(products: seq<Product>, categories: seq<Category>)
    ensures var h := HomeSections(products, categories);
      && (h.showFeatured <==> exists i :: 0 <= i < |products| && products[i].featured)
      && var f := FeaturedProducts(products);
         |h.featured| == (if |f| < 4 then |f| else 4) && h.featured == f[..|h.featured|]
         && forall q :: q in h.featured ==> q in products && q.featured
  {
    var keep := (p: Product) => p.featured;
    var f := FeaturedProducts(products);
    if i :| 0 <= i < |products| && products[i].featured {
      FilterMembership(products, keep, products[i]);
    }
    if |f| > 0 {
      FilterMembership(products, keep, f[0]);
    }
    forall q | q in HomeSections(products, categories).featured ensures q in products && q.featured {
      FilterMembership(products, keep, q);
    }
  }

  /** The category strip is rendered iff there are categories. */
  lemma CategoryStrip(products: seq<Product>, categories: seq<Category>)
    ensures HomeSections(products, categories).showCategories <==> categories != []
  {
  }

  /**
   * The home page passes the site name as the title. The default settings' name is the empty
   * string, which is not `undefined`, so the default title does not apply and only the suffix remains.
   */
  lemma HomeTitleWithDefaultSettings()
    ensures Seo.FullTitle(Some(SiteContext.DefaultSettings.site_name)) == " | " + Seo.Phrase
  {
  }
}
