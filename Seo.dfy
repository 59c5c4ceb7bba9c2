/** The page-title rule and default props of the SEO head component (src/components/SEO.tsx). */
module Seo {
  import opened Wrappers
  import opened Strings

  const Phrase: string := "لوازم آرایشی"
  const DefaultTitle: string := "خرید " + Phrase + " | محصولات اورجینال با ضمانت اصالت"
  const DefaultDescription: string :=
    "خرید آنلاین لوازم آرایشی و بهداشتی اورجینال از برندهای معتبر. ارسال سریع به سراسر کشور با ضمانت اصالت کالا و بهترین قیمت."
  const DefaultImage: string := "/og-image.png"
  const DefaultUrl: string := "https://example.ir"

  /** The `title` prop after its default (which applies to `undefined` only), suffixed unless it names the phrase. */
  function FullTitle(title: Option<string>): (r: string)
    ensures Includes(r, Phrase)
    ensures var t := title.GetOr(DefaultTitle);
      r == if Includes(t, Phrase) then t else t + " | " + Phrase
  {
    var t := title.GetOr(DefaultTitle);
    if Includes(t, Phrase) then t
    else
      assert t + " | " + Phrase == (t + " | ") + Phrase;
      IncludesSuffix(t + " | ", Phrase);
      t + " | " + Phrase
  }

  /** Suffixing is idempotent. */
  lemma FullTitleIdempotent(title: Option<string>)
    ensures FullTitle(Some(FullTitle(title))) == FullTitle(title)
  {
  }

  /** The default title already names the phrase, so it is used unchanged. */
  lemma DefaultTitlePassesThrough()
    ensures FullTitle(None) == DefaultTitle
  {
    assert DefaultTitle[5..5 + |Phrase|] == Phrase;
    assert OccursAt(DefaultTitle, Phrase, 5);
    IncludesIff(DefaultTitle, Phrase);
  }

  datatype Head = Head(title: string, ogTitle: string, twitterTitle: string, description: string,
                       ogDescription: string, image: string, url: string, canonical: string)

  /** The tags written into the document head. */
  function HeadTags(title: Option<string>, description: Option<string>, image: Option<string>,
                    url: Option<string>): (h: Head)
    ensures h.title == h.ogTitle == h.twitterTitle == FullTitle(title)
    ensures h.description == h.ogDescription == description.GetOr(DefaultDescription)
    ensures h.url == h.canonical == url.GetOr(DefaultUrl)
    ensures h.image == image.GetOr(DefaultImage)
  {
    var t := FullTitle(title);
    var d := description.GetOr(DefaultDescription);
    var u := url.GetOr(DefaultUrl);
    Head(t, t, t, d, d, image.GetOr(DefaultImage), u, u)
  }
}
