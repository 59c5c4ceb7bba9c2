/** The catalog page (src/pages/Products.tsx): filtering and its shareable query parameters. */
module ProductsPage {
  import opened Wrappers
  import opened Sequences
  import opened Strings
  import opened Database

  const All: string := "all"

  /** An empty search matches everything; otherwise the name or the description must include it. */
  predicate MatchesSearch(p: Product, search: string) {
    search == "" || Includes(p.name, search) || Includes(p.description, search)
  }

  predicate MatchesCategory(p: Product, category: string) {
    category == All || p.category_id == category
  }

  /** `filteredProducts`: both conditions hold. */
  function FilteredProducts(products: seq<Product>, search: string, category: string): seq<Product> {
    Filter(products, (p: Product) => MatchesSearch(p, search) && MatchesCategory(p, category))
  }

  /** A product is listed iff it is in the catalog and passes the search AND the category condition. */
  lemma FilteredMembership(products: seq<Product>, search: string, category: string, p: Product)
    ensures p in FilteredProducts(products, search, category) <==>
      && p in products
      && (search == "" || (exists i :: OccursAt(p.name, search, i))
                       || (exists i :: OccursAt(p.description, search, i)))
      && (category == All || p.category_id == category)
  {
    FilterMembership(products, (p: Product) => MatchesSearch(p, search) && MatchesCategory(p, category), p);
    IncludesIff(p.name, search);
    IncludesIff(p.description, search);
  }

  /** The listed products keep catalog order, so there are never more of them than in the catalog. */
  lemma FilteredIsSubsequence(products: seq<Product>, search: string, category: string)
    ensures IsSubsequence(FilteredProducts(products, search, category), products)
    ensures |FilteredProducts(products, search, category)| <= |products|
  {
    FilterIsSubsequence(products, (p: Product) => MatchesSearch(p, search) && MatchesCategory(p, category));
  }

  /** No search and the category "all" list the whole catalog. */
  lemma UnfilteredIsCatalog(products: seq<Product>)
    ensures FilteredProducts(products, "", All) == products
  {
    FilterKeepsAll(products, (p: Product) => MatchesSearch(p, "") && MatchesCategory(p, All));
  }

  /** Search and category together: of a serum in "skin" and a lipstick in "lip", "skin" + "ویتامین" keeps the serum. */
  lemma ConjunctionExample(serum: Product, lipstick: Product)
    requires serum.name == "سرم " + "ویتامین" + " C" && serum.category_id == "skin"
    requires lipstick.name == "رژ لب" && lipstick.category_id == "lip"
    ensures FilteredProducts([serum, lipstick], "ویتامین", "skin") == [serum]
  {
    assert serum.name[4..4 + |"ویتامین"|] == "ویتامین";
    assert OccursAt(serum.name, "ویتامین", 4);
    IncludesIff(serum.name, "ویتامین");
    var keep := (p: Product) => MatchesSearch(p, "ویتامین") && MatchesCategory(p, "skin");
    assert [serum, lipstick][1..] == [lipstick];
    assert !keep(lipstick);
    assert Filter([lipstick], keep) == [];
  }

  /** `searchParams.get("search") || ""` */
  function SeedSearch(params: map<string, string>): string {
    if "search" in params then params["search"] else ""
  }

  /** `searchParams.get("category") || "all"`: a missing or empty parameter reads as "all". */
  function SeedCategory(params: map<string, string>): string {
    if "category" in params && params["category"] != "" then params["category"] else All
  }

  /** `handleCategoryChange`'s parameter update: "all" deletes "category", any other id sets it. */
  function WithCategory(params: map<string, string>, categoryId: string): (r: map<string, string>)
    ensures "category" in r <==> categoryId != All
    ensures "category" in r ==> r["category"] == categoryId
    ensures forall k :: k != "category" ==> (k in r <==> k in params)
    ensures forall k :: k != "category" && k in r ==> r[k] == params[k]
  {
    if categoryId == All then params - {"category"} else params["category" := categoryId]
  }

  /** `handleSearchChange`'s parameter update: "" deletes "search", any other text sets it as given. */
  function WithSearch(params: map<string, string>, value: string): (r: map<string, string>)
    ensures "search" in r <==> value != ""
    ensures "search" in r ==> r["search"] == value
    ensures forall k :: k != "search" ==> (k in r <==> k in params)
    ensures forall k :: k != "search" && k in r ==> r[k] == params[k]
  {
    if value == "" then params - {"search"} else params["search" := value]
  }

  /** Re-seeding from the written parameters gives back the search text, the empty one included. */
  lemma SearchRoundTrip(params: map<string, string>, value: string)
    ensures SeedSearch(WithSearch(params, value)) == value
    ensures SeedCategory(WithSearch(params, value)) == SeedCategory(params)
  {
  }

  /** Re-seeding gives back the chosen category; only the empty id does not survive, reading as "all". */
  lemma CategoryRoundTrip(params: map<string, string>, categoryId: string)
    ensures categoryId != "" ==> SeedCategory(WithCategory(params, categoryId)) == categoryId
    ensures categoryId == "" ==> SeedCategory(WithCategory(params, categoryId)) == All
    ensures SeedSearch(WithCategory(params, categoryId)) == SeedSearch(params)
  {
  }

  /** Applying the same change twice leaves the parameters as applying it once. */
  lemma {:induction false} UpdatesIdempotent(params: map<string, string>, categoryId: string, value: string)
    ensures WithCategory(WithCategory(params, categoryId), categoryId) == WithCategory(params, categoryId)
    ensures WithSearch(WithSearch(params, value), value) == WithSearch(params, value)
  {
    var once, twice := WithCategory(params, categoryId), WithCategory(WithCategory(params, categoryId), categoryId);
    assert once.Keys == twice.Keys;
    var once', twice' := WithSearch(params, value), WithSearch(WithSearch(params, value), value);
    assert once'.Keys == twice'.Keys;
  }

  /** What the result area shows. The count line is always shown. */
  datatype Results = Results(count: nat, skeleton: bool, grid: bool, empty: bool)

  function ResultsArea(isLoading: bool, filtered: seq<Product>): (r: Results)
    ensures r.count == |filtered|
    ensures r.skeleton <==> isLoading
    ensures r.grid <==> !isLoading && filtered != []
    ensures r.empty <==> !isLoading && filtered == []
  {
    Results(|filtered|, isLoading, !isLoading && |filtered| > 0, !isLoading && |filtered| == 0)
  }

  /** Exactly one of the loading skeleton, the grid and the empty state is shown. */
  lemma ResultsExclusive(isLoading: bool, filtered: seq<Product>)
    ensures var r := ResultsArea(isLoading, filtered);
      (r.skeleton && !r.grid && !r.empty) || (!r.skeleton && r.grid && !r.empty)
      || (!r.skeleton && !r.grid && r.empty)
  {
  }

  /** The page state: the URL parameters and the two filter values seeded from them. */
  class Page {
    var searchParams: map<string, string>
    var searchQuery: string
    var selectedCategory: string

    constructor (params: map<string, string>)
      ensures searchParams == params
      ensures searchQuery == SeedSearch(params) && selectedCategory == SeedCategory(params)
    {
      searchParams := params;
      searchQuery := SeedSearch(params);
      selectedCategory := SeedCategory(params);
    }

    function Visible(products: seq<Product>): seq<Product>
      reads this
    {
      FilteredProducts(products, searchQuery, selectedCategory)
    }

    method HandleCategoryChange(categoryId: string)
      modifies this
      ensures selectedCategory == categoryId
      ensures searchParams == WithCategory(old(searchParams), categoryId)
      ensures searchQuery == old(searchQuery)
    {
      selectedCategory := categoryId;
      if categoryId == All {
        searchParams := searchParams - {"category"};
      } else {
        searchParams := searchParams["category" := categoryId];
      }
    }

    method HandleSearchChange(value: string)
      modifies this
      ensures searchQuery == value
      ensures searchParams == WithSearch(old(searchParams), value)
      ensures selectedCategory == old(selectedCategory)
    {
      searchQuery := value;
      if value != "" {
        searchParams := searchParams["search" := value];
      } else {
        searchParams := searchParams - {"search"};
      }
    }
  }

  /**
   * A category change followed by a search change, then a page freshly seeded from the URL the
   * handlers wrote (a reload or a shared link): it shows the same search and category, except that
   * an empty category id reads back as "all".
   */
  method HandlersAgreeWithUrl(params: map<string, string>, categoryId: string, value: string)
    returns (search: string, category: string)
    ensures search == value
    ensures category == if categoryId == "" then All else categoryId
  {
    var page := new Page(params);
    page.HandleCategoryChange(categoryId);
    page.HandleSearchChange(value);
    CategoryRoundTrip(params, categoryId);
    SearchRoundTrip(WithCategory(params, categoryId), value);
    var reloaded := new Page(page.searchParams);
    search, category := reloaded.searchQuery, reloaded.selectedCategory;
  }
}
