/** The settings-driven content pages (src/pages/DynamicPage.tsx). */
module DynamicPage {
  import opened Wrappers
  import opened Strings
  import opened Database
  import Seo

  const NotFoundTitle: string := "صفحه یافت نشد"
  const CareersContent: string := "در حال حاضر فرصت شغلی فعالی وجود ندارد."
  const GuideContent: string := "به زودی راهنمای جامع خرید اضافه خواهد شد."
  const PageKeys: set<string> :=
    {"contact", "faq", "shipping", "returns", "privacy", "terms", "careers", "guide", "article"}

  /** `window.location.pathname.substring(1)`: the path without its leading character. */
  function PathKey(pathname: string): (k: string)
    ensures pathname != [] ==> pathname == [pathname[0]] + k
    ensures pathname == [] ==> k == []
  {
    if pathname == [] then [] else pathname[1..]
  }

  datatype Entry = Entry(title: string, content: Option<string>)

  /** `settings?.field`: missing when the settings are. */
  function Field(settings: Option<SiteSettings>, field: SiteSettings -> Option<string>): Option<string> {
    if settings.Some? then field(settings.value) else None
  }

  /** The `pageData` record. */
  function PageTable(settings: Option<SiteSettings>): (t: map<string, Entry>)
    ensures t.Keys == PageKeys
  {
    map[
      "contact" := Entry("تماس با ما", Field(settings, (s: SiteSettings) => s.contact_us)),
      "faq" := Entry("پرسش‌های متداول", Field(settings, (s: SiteSettings) => s.faq)),
      "shipping" := Entry("رویه‌های ارسال", Field(settings, (s: SiteSettings) => s.shipping_policy)),
      "returns" := Entry("شرایط مرجوعی", Field(settings, (s: SiteSettings) => s.return_policy)),
      "privacy" := Entry("حریم خصوصی", Field(settings, (s: SiteSettings) => s.privacy_policy)),
      "terms" := Entry("قوانین و مقررات", Field(settings, (s: SiteSettings) => s.terms_conditions)),
      "careers" := Entry("فرصت‌های شغلی", Some(CareersContent)),
      "guide" := Entry("راهنمای خرید و پرداخت", Some(GuideContent)),
      "article" := Entry("مقالات و اخبار", Field(settings, (s: SiteSettings) => s.article_content))
    ]
  }

  /**
   * The names an object literal inherits from `Object.prototype` (ECMAScript section 20.1.3 and
   * Annex B.2.2). Indexing `pageData` with one of them yields that member, which is truthy.
   */
  const ObjectPrototypeMembers: set<string> := {
    "constructor", "hasOwnProperty", "isPrototypeOf", "propertyIsEnumerable", "toLocaleString",
    "toString", "valueOf", "__proto__", "__defineGetter__", "__defineSetter__",
    "__lookupGetter__", "__lookupSetter__"}

  /** A page as the component reads it: a missing `title` is `undefined`. */
  datatype Lookup = Lookup(title: Option<string>, content: Option<string>)

  /**
   * `pageData[path] || { title: NotFoundTitle, content: null }` as written: an inherited member
   * is found too, and it has neither a title nor content.
   */
  function CurrentPageAsWritten(key: string, settings: Option<SiteSettings>): Lookup {
    var table := PageTable(settings);
    if key in table then Lookup(Some(table[key].title), table[key].content)
    else if key in ObjectPrototypeMembers then Lookup(None, None)
    else Lookup(Some(NotFoundTitle), None)
  }

  /** The path "/constructor" reaches an inherited member and loses the not-found title. */
  lemma PrototypeKeyLosesTitle(settings: Option<SiteSettings>)
    ensures CurrentPageAsWritten(PathKey("/constructor"), settings).title.None?
  {
    assert PathKey("/constructor") == "constructor";
  }

  /** The lookup restricted to the record's own keys, as the fallback intends. */
  function CurrentPage(key: string, settings: Option<SiteSettings>): (e: Entry)
    ensures key in PageKeys ==> e == PageTable(settings)[key]
    ensures key !in PageKeys ==> e == Entry(NotFoundTitle, None)
  {
    var table := PageTable(settings);
    if key in table then table[key] else Entry(NotFoundTitle, None)
  }

  /** Every path that is not a page key, inherited member names included, gets the not-found page. */
  lemma CurrentPageFallback(key: string, settings: Option<SiteSettings>)
    requires key !in PageKeys
    ensures CurrentPage(key, settings) == Entry(NotFoundTitle, None)
    ensures key in ObjectPrototypeMembers ==>
      CurrentPageAsWritten(key, settings).title != Some(CurrentPage(key, settings).title)
  {
  }

  /** The careers and guide pages carry fixed, non-empty text whatever the settings. */
  lemma FixedPages(settings: Option<SiteSettings>)
    ensures CurrentPage("careers", settings).content == Some(CareersContent) && CareersContent != ""
    ensures CurrentPage("guide", settings).content == Some(GuideContent) && GuideContent != ""
  {
  }

  /** `s.replace(/\n/g, '<br />')` */
  function ReplaceNewlines(s: string): (r: string)
    ensures '\n' !in r
    ensures |r| == |s| + 5 * CountChar(s, '\n')
    decreases |s|
  {
    if s == [] then []
    else (if s[0] == '\n' then "<br />" else [s[0]]) + ReplaceNewlines(s[1..])
  }

  /** The replacement works character by character: it distributes over concatenation. */
  lemma {:induction false} ReplaceNewlinesConcat(a: string, b: string)
    ensures ReplaceNewlines(a + b) == ReplaceNewlines(a) + ReplaceNewlines(b)
    decreases |a|
  {
    if a != [] {
      assert (a + b)[0] == a[0] && (a + b)[1..] == a[1..] + b;
      ReplaceNewlinesConcat(a[1..], b);
    } else {
      assert a + b == b;
    }
  }

  /** A text without newlines is left as it is. */
  lemma {:induction false} ReplaceNewlinesIdentity(s: string)
    requires '\n' !in s
    ensures ReplaceNewlines(s) == s
    decreases |s|
  {
    if s != [] {
      ReplaceNewlinesIdentity(s[1..]);
    }
  }

  /** A single newline becomes the break tag. */
  lemma ReplaceNewline()
    ensures ReplaceNewlines("\n") == "<br />"
  {
  }

  datatype Body = Html(markup: string) | Placeholder

  /** Missing or empty content renders the placeholder; other content renders with breaks. */
  function RenderContent(content: Option<string>): (b: Body)
    ensures b.Placeholder? <==> content.None? || content.value == ""
    ensures b.Html? ==> b.markup == ReplaceNewlines(content.value) && '\n' !in b.markup
  {
    if content.Some? && content.value != "" then Html(ReplaceNewlines(content.value)) else Placeholder
  }

  datatype View = Skeleton | Shown(documentTitle: string, heading: string, body: Body)

  /** `${title} - ${settings?.site_name}`: a missing name prints as "undefined". */
  function SeoTitle(title: string, settings: Option<SiteSettings>): string {
    title + " - " + (if settings.Some? then settings.value.site_name else "undefined")
  }

  /** The page: a skeleton while loading, else the title and the rendered content of the current page. */
  function PageView(isLoading: bool, pathname: string, settings: Option<SiteSettings>): (v: View)
    ensures v.Skeleton? <==> isLoading
    ensures v.Shown? ==>
      var e := CurrentPage(PathKey(pathname), settings);
      && v.heading == e.title
      && v.body == RenderContent(e.content)
      && Includes(v.documentTitle, Seo.Phrase)
  {
    if isLoading then Skeleton
    else
      var e := CurrentPage(PathKey(pathname), settings);
      Shown(Seo.FullTitle(Some(SeoTitle(e.title, settings))), e.title, RenderContent(e.content))
  }
}
