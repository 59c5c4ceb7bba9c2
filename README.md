# persian-showcase storefront: a Dafny model of its client-side logic

The storefront is a React shop for cosmetics. It loads its catalog, categories,
carousel slides and site settings from a hosted database and renders Persian-language pages.
This project models, in Dafny, the logic the client decides by itself:

- **Catalog page** (`ProductsPage`): the search/category filter over the product list, and its
  synchronisation with the URL query parameters. The parameters are a `map<string, string>`
  that the page's handlers update in place.
- **Site store** (`SiteContext`): the six fields of the store provider and the `fetchData`
  transition, including the early return when the database is not configured and the
  throw/catch/finally path.
- **Carousel** (`HeroSlider`): the current-slide index under the arrows, the dots and the
  auto-advance interval, with JavaScript's remainder operator written out.
- **Product detail and card** (`ProductDetail`, `ProductCard`): the product lookup, related
  products, the discount flag and percentage, the badge rule and the stock gating.
- **Questions page** (`Faq`): its load effect, the active-question filter and its counts, and
  the branch of what is rendered.
- **Content pages** (`DynamicPage`): the path key, the page table with its fallback, the
  newline-to-`<br />` replacement and the placeholder.
- **Head tags** (`Seo`): the title-suffix rule and the default props.
- **Home page** (`IndexPage`): the featured and latest slices and the section conditions.

Shared modules:

- `Wrappers`: `Option`.
- `Sequences`: `Array.prototype.filter`, `find` and `slice(0, n)`, with order-preserving
  subsequence lemmas.
- `Strings`: `String.prototype.includes` as contiguous-substring matching, and JavaScript's
  `||` on a possibly missing string.
- `JsNumbers`: the truncating `%`, `Math.round` on an exact rational, and `String(n)`.
- `Database` and `StaticCatalog`: the two `Product` types of the repository, the
  database-row type in `src/types/database.ts` and the bundled one in `src/data/products.ts`.
  Each page is modelled against the type it uses.

The mutable pieces are classes. The catalog page's parameters, the store provider, the FAQ
page state and the slide index each get one, and each method's `ensures` ties the new state
to a pure function of the old state; the properties are proved as lemmas about that function.

A failed store load is all or nothing. Each of the four query results is checked, and thrown
if it carries an error, before any setter runs (src/contexts/SiteContext.tsx:55-63). So a failed
load keeps every previous collection and the previous settings, and discards the whole batch
(`SiteContext.PartialBatchDiscarded`).

## Model

| member | source | states |
|---|---|---|
| `ProductsPage.FilteredMembership` | src/pages/Products.tsx:18-28 | A product is listed iff it is in the catalog; and the search is empty or occurs as a contiguous substring of its name or description; and the category is "all" or equals its `category_id` |
| `ProductsPage.FilteredIsSubsequence` | src/pages/Products.tsx:19 | The listed products are an order-preserving subsequence of the catalog, so there are no more of them than in the catalog |
| `ProductsPage.UnfilteredIsCatalog` | src/pages/Products.tsx:21-25 | An empty search and the category "all" list the whole catalog unchanged |
| `ProductsPage.ConjunctionExample` | src/pages/Products.tsx:19-27 | Search and category combine with AND: a concrete serum passes both and a lipstick fails the category |
| `ProductsPage.WithCategory` | src/pages/Products.tsx:30-38 | "all" removes the `category` parameter; any other id sets it to exactly that id; every other parameter is unchanged |
| `ProductsPage.WithSearch` | src/pages/Products.tsx:40-48 | An empty value removes the `search` parameter; a non-empty value sets it untrimmed; every other parameter is unchanged |
| `ProductsPage.SearchRoundTrip` | src/pages/Products.tsx:13-48 | Re-seeding the search from the written parameters gives back the value, and the seeded category is unchanged |
| `ProductsPage.CategoryRoundTrip` | src/pages/Products.tsx:14-38 | Re-seeding gives back any non-empty category id; the empty id reads back as "all"; the seeded search is unchanged |
| `ProductsPage.UpdatesIdempotent` | src/pages/Products.tsx:30-48 | Applying the same category change or search change twice gives the same parameters as applying it once |
| `ProductsPage.ResultsArea` | src/pages/Products.tsx:100-129 | The count line shows the filtered length; the skeleton shows iff loading; the grid shows iff not loading and the list is non-empty; the empty state shows iff not loading and the list is empty |
| `ProductsPage.ResultsExclusive` | src/pages/Products.tsx:104-129 | Exactly one of skeleton, grid and empty state is shown |
| `ProductsPage.Page.constructor` | src/pages/Products.tsx:12-14 | The page keeps the URL parameters; the search is seeded from `search` or ""; the category is seeded from `category` or "all" |
| `ProductsPage.Page.HandleCategoryChange` | src/pages/Products.tsx:30-38 | Sets the selected category, updates the parameters as `WithCategory` does, and leaves the search alone |
| `ProductsPage.Page.HandleSearchChange` | src/pages/Products.tsx:40-48 | Sets the search, updates the parameters as `WithSearch` does, and leaves the category alone |
| `ProductsPage.HandlersAgreeWithUrl` | src/pages/Products.tsx:12-48 | After a category change and a search change through the handlers, a page freshly seeded from the written URL shows the same search and category; an empty category id reads back as "all" |
| `Strings.IncludesIff` | src/pages/Products.tsx:22-23 | `includes` holds iff the needle occurs at some position of the haystack |
| `Strings.OrElse` | src/pages/FAQ.tsx:36 | `v \|\| fallback` on a string gives the value when it is present and non-empty, and the fallback when it is missing or empty |
| `SiteContext.Provider.constructor` | src/contexts/SiteContext.tsx:30-35 | Initially there are no products, categories or sliders; the settings are the defaults; loading is on and there is no error |
| `SiteContext.AfterFetch` | src/contexts/SiteContext.tsx:37-70 | Loading always ends. Unconfigured, the data stays and the error is "Supabase not configured". When any query fails, all data stays and an error is set. When all succeed, there is no error |
| `SiteContext.Provider.FetchData` | src/contexts/SiteContext.tsx:37-70 | The provider's six fields after the step-by-step updates are exactly `AfterFetch` of the old state |
| `SiteContext.PartialBatchDiscarded` | src/contexts/SiteContext.tsx:55-63 | Products that arrived in a batch whose categories query failed are discarded, and the old products stay |
| `SiteContext.FetchFailureMessage` | src/contexts/SiteContext.tsx:48-66 | The recorded error is the message of the first value thrown: the join's rejection, else the first failing query in the order products, categories, sliders, settings |
| `SiteContext.FetchSuccessReplacesData` | src/contexts/SiteContext.tsx:60-63 | On success, each list becomes its data or [], the settings become their row or the defaults, and there is no error |
| `SiteContext.SettingsNeverNull` | src/contexts/SiteContext.tsx:33-76 | After any sequence of fetches the settings are present, so `purchaseEnabled` is their `purchase_enabled` |
| `SiteContext.PurchaseInitiallyDisabled` | src/contexts/SiteContext.tsx:76 | Purchasing is disabled with the default settings and when the settings are null |
| `JsNumbers.JsRem` | src/components/shop/HeroSlider.tsx:22 | JavaScript `%`: the remainder has the dividend's sign, is smaller than the divisor in magnitude, and completes the truncated quotient |
| `HeroSlider.Next` | src/components/shop/HeroSlider.tsx:21-23 | The next index stays in [0, n) and wraps from the last slide to the first |
| `HeroSlider.Prev` | src/components/shop/HeroSlider.tsx:25-27 | The previous index stays in [0, n) and wraps from the first slide to the last |
| `HeroSlider.PrevNextInverse` | src/components/shop/HeroSlider.tsx:21-27 | `prev(next(i)) = i` and `next(prev(i)) = i` |
| `HeroSlider.AdvanceMod` | src/components/shop/HeroSlider.tsx:14-16 | k interval ticks from i land on (i + k) mod n |
| `HeroSlider.FullCycle` | src/components/shop/HeroSlider.tsx:11-19 | n ticks return to the starting slide |
| `HeroSlider.SliderView` | src/components/shop/HeroSlider.tsx:29-120 | A spinner iff loading, a welcome banner iff there are no slides, else the current slide; the arrows and the dots 0..n-1 are drawn iff n > 1 |
| `HeroSlider.Slides.constructor` | src/components/shop/HeroSlider.tsx:9 | The index starts at 0 |
| `HeroSlider.Slides.NextSlide` | src/components/shop/HeroSlider.tsx:21-23 | The next arrow moves to `Next` and keeps the index valid |
| `HeroSlider.Slides.PrevSlide` | src/components/shop/HeroSlider.tsx:25-27 | The previous arrow moves to `Prev` and keeps the index valid |
| `HeroSlider.Slides.Tick` | src/components/shop/HeroSlider.tsx:11-19 | A tick, installed only with more than one slide, performs exactly `Next` |
| `HeroSlider.Slides.GoToSlide` | src/components/shop/HeroSlider.tsx:120 | Clicking dot k sets the index to exactly k |
| `ProductDetail.FindProductFirst` | src/pages/ProductDetail.tsx:17 | The looked-up product is the first with the route id; there is none iff no product has that id |
| `ProductDetail.RelatedProductsSpec` | src/pages/ProductDetail.tsx:18-20 | The matches are exactly the catalog products with the found product's category and another id, in catalog order. The related products are the first min(3, matches) of them, so there are at most three, fewer than three leave no match out, and there are none without a found product |
| `ProductDetail.SerumRelated` | src/pages/ProductDetail.tsx:18-20 | On the bundled catalog the serum's related products are the other two skin-care products, in order |
| `ProductDetail.DetailPageSpec` | src/pages/ProductDetail.tsx:22-159 | Not found iff no id matches. Otherwise the discount flag holds iff the original price is present, non-zero and above the price; the percentage is 0 without a discount; both purchase buttons are disabled iff out of stock |
| `JsNumbers.RoundDiv` | src/components/shop/ProductCard.tsx:17 | `Math.round(n / d)` on the exact rational: the result is within one half of n/d, with halves rounded up |
| `ProductCard.DiscountPercent` | src/components/shop/ProductCard.tsx:15-18 | 0 without a discount; otherwise the rounded value of 100·(o − p)/o |
| `ProductCard.DiscountPercentBounds` | src/components/shop/ProductCard.tsx:16-18 | With 0 < price < original price the percentage lies in 0..100 |
| `ProductCard.SerumDiscount` | src/components/shop/ProductCard.tsx:16-18 | The first bundled product shows 19% |
| `ProductCard.BadgeRules` | src/components/shop/ProductCard.tsx:39-48 | At most one badge. The discount badge shows iff there is a discount; the featured badge shows iff featured and no discount |
| `ProductCard.StruckPrice` | src/components/shop/ProductCard.tsx:71-75 | The struck-through original price is shown iff there is a discount, and it is above the price |
| `Faq.Page.constructor` | src/pages/FAQ.tsx:18-21 | Initially no questions, loading, no error and no debug text |
| `Faq.AfterLoad` | src/pages/FAQ.tsx:23-55 | Loading always ends. A database error or a throw keeps the questions and sets a non-empty error. Success replaces the questions by the rows or [] and leaves no error |
| `Faq.Page.LoadEffect` | src/pages/FAQ.tsx:23-55 | The page state after the effect's step-by-step updates is exactly `AfterLoad` of the old state |
| `Faq.ActiveFaqsSpec` | src/pages/FAQ.tsx:57 | The active list is the order-preserving subsequence of the active questions |
| `Faq.CountsSpec` | src/pages/FAQ.tsx:43-44 | Both counts are non-negative and add up to the total; the inactive count is the number of inactive questions |
| `JsNumbers.NatToString` | src/pages/FAQ.tsx:46 | The decimal text of a count is a non-empty string of digits that denotes the count, without a leading zero unless the count is 0 |
| `Faq.PageBody` | src/pages/FAQ.tsx:81-100 | A spinner iff loading. The no-active message shows iff no question is active; it tells an empty table from an all-inactive one and then lists them. Otherwise the non-empty active list is shown |
| `Faq.FailedFirstLoad` | src/pages/FAQ.tsx:34-96 | A failed first load shows the error together with the "no questions in the database" message |
| `DynamicPage.PathKey` | src/pages/DynamicPage.tsx:9 | The key is the pathname without its first character |
| `DynamicPage.PageTable` | src/pages/DynamicPage.tsx:11-21 | The table has exactly the nine page keys |
| `DynamicPage.CurrentPage` | src/pages/DynamicPage.tsx:23 | A page key yields its entry; any other key yields the not-found title with no content |
| `DynamicPage.CurrentPageFallback` | src/pages/DynamicPage.tsx:23 | Every non-key, inherited member names included, gets the not-found page, which the lookup as written does not give |
| `DynamicPage.PrototypeKeyLosesTitle` | src/pages/DynamicPage.tsx:23 | As written, the path "/constructor" yields a page without a title |
| `DynamicPage.FixedPages` | src/pages/DynamicPage.tsx:18-19 | "careers" and "guide" carry their fixed non-empty text whatever the settings |
| `DynamicPage.ReplaceNewlines` | src/pages/DynamicPage.tsx:53 | The result has no newline, and is longer by five characters per newline |
| `DynamicPage.ReplaceNewlinesConcat` | src/pages/DynamicPage.tsx:53 | The replacement distributes over concatenation, so it works character by character and keeps order |
| `DynamicPage.ReplaceNewlinesIdentity` | src/pages/DynamicPage.tsx:53 | Text without newlines is unchanged |
| `DynamicPage.ReplaceNewline` | src/pages/DynamicPage.tsx:53 | A newline becomes "<br />" |
| `DynamicPage.RenderContent` | src/pages/DynamicPage.tsx:50-59 | Missing or empty content renders the placeholder; other content renders as the replaced markup, which has no newline |
| `DynamicPage.PageView` | src/pages/DynamicPage.tsx:25-59 | A skeleton iff loading; else the heading is the current page's title, the body is its rendered content, and the document title names the shop phrase. It uses the corrected lookup, so for the inherited member names it shows the not-found title, where the code as written shows an undefined heading and the title "undefined - …" |
| `Seo.FullTitle` | src/components/SEO.tsx:16 | The full title always contains "لوازم آرایشی". It is the title itself when the title contains it, and the title with " \| لوازم آرایشی" appended otherwise |
| `Seo.FullTitleIdempotent` | src/components/SEO.tsx:16 | Applying the rule twice equals applying it once |
| `Seo.DefaultTitlePassesThrough` | src/components/SEO.tsx:11-16 | The default title already contains the phrase and is used unchanged |
| `Seo.HeadTags` | src/components/SEO.tsx:10-39 | The three title tags carry the full title; the description, image and URL tags carry their props or the defaults |
| `IndexPage.FeaturedProductsSpec` | src/pages/Index.tsx:13 | The featured list is the order-preserving subsequence of the featured products |
| `IndexPage.LatestSection` | src/pages/Index.tsx:84 | The latest section shows min(5, \|products\|) products, a prefix of the list |
| `IndexPage.FeaturedSection` | src/pages/Index.tsx:91-100 | The section is rendered iff some product is featured. It shows min(4, \|featured\|) featured products, a prefix of the featured list |
| `IndexPage.CategoryStrip` | src/pages/Index.tsx:29 | The category strip is rendered iff there are categories |
| `IndexPage.HomeTitleWithDefaultSettings` | src/pages/Index.tsx:17-18 | With the default settings the site name is "", which is not undefined, so the home title is just " \| لوازم آرایشی" |

## Left out

- The cart engine, covering adding, removing, quantities, totals and persistence: `src/contexts/CartContext.tsx` is not part of this model. `Cart.tsx`, `Checkout.tsx` and `Header.tsx` only call it.
- Remote I/O: the database client and `uploadImage` in `src/lib/supabase.ts`, including its `Math.random` file names, and the article fetches. In the store and the questions page each query result is an input (`Batch`, `Outcome`).
- Server-side ordering and the server's `is_active` filter on slides: the queries at src/contexts/SiteContext.tsx:49-52 and src/pages/FAQ.tsx:32 do these, and they are not client postconditions.
- The `Promise.all` join, `setInterval`/`clearInterval` timing, the five-second delay and React's re-rendering. A tick is modelled as one `Next` step.
- `SiteContext.AfterFetch`: the `isLoading := true` / `error := null` written before the await are not observable after `fetchData` settles, so only the settled state is stated.
- `SiteContext.ErrorMessage`: whether a query's error object is an `Error` instance is an input (`ErrorObject` or `OtherValue`), not derived from the client library.
- Floating point: `ProductCard.DiscountPercent` rounds the exact rational 100·(o − p)/o, which can differ from `Math.round` on a binary-float quotient at exact halves. The star fill `Math.floor(rating)` is not modelled.
- Foreign formatting: `formatPrice` (`Intl.NumberFormat`), `encodeURIComponent`, `Helmet` and `dangerouslySetInnerHTML`. `JSON.stringify` of a thrown value is an input string, and FAQ's case where the thrown value is null or undefined, so that `err.message` itself throws, is not modelled.
- URL parameters are a map with at most one value per name. `URLSearchParams` can hold repeated names, and `delete` removes them all.
- Strings are sequences of code points. JavaScript counts UTF-16 units, which differs for characters outside the Basic Multilingual Plane; none of the modelled constants has one.
- Timestamps (`created_at`, `updated_at`) are left out of every record, and of `defaultSettings`, whose timestamps come from the clock.
- `ProductsPage.CategoryRoundTrip`: the round trip is stated for non-empty ids. The empty id is written as a parameter but reads back as "all", and the lemma says so.
- `HeroSlider.Next`: `Next`, `Prev` and the slide methods require n > 0. The source, too, only reaches them with at least two slides. The index is also not re-clamped when a refetch shortens the slide list, because the source does not do that either.
- Routing, layout and presentation-only files (`App.tsx`, `Footer.tsx`, `About.tsx`, `Admin.tsx`, `Header.tsx` toggles, `Articles.tsx`, `ArticleDetail.tsx`).

## Findings

| source | as written | input that shows it | evidently intended | confidence | as-written member | corrected member |
|---|---|---|---|---|---|---|
| src/pages/DynamicPage.tsx:23 | `pageData[path] \|\| fallback` indexes a plain object literal, so a path naming an `Object.prototype` member finds that inherited (truthy) function instead of falling back; its `title` is `undefined` | pathname "/constructor" (also "/toString", "/valueOf", "/__proto__", …), once the component is mounted on a catch-all or per-segment route; the src/App.tsx in this repository mounts `DynamicPage` on no route | every path that is not one of the nine page keys shows the "صفحه یافت نشد" page | not executed | `DynamicPage.CurrentPageAsWritten` (exhibited by `DynamicPage.PrototypeKeyLosesTitle`) | `DynamicPage.CurrentPage` (proved by `DynamicPage.CurrentPageFallback`) |
