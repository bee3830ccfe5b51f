/** app/layout.tsx: the root layout's locale and the document metadata it generates for
    that locale. */
module Layout {
  import opened Optional
  import opened Language

  const BaseUrl: string := "https://burn/0xvillain.com"

  /** The locale: English only for a `locale` parameter that is exactly "en"; Japanese
      otherwise, absent parameters included. */
  function LayoutLocale(locale: Option<string>): (r: Lang)
    ensures r == En <==> locale == Some("en")
  {
    if locale == Some("en") then En else Ja
  }

  /** The `lang` attribute of the document. */
  function HtmlLang(lang: Lang): (r: string)
    ensures r == "en" <==> lang == En
    ensures |r| == 2
  {
    if lang == En then "en" else "ja"
  }

  /** One locale's entry of the metadata table. */
  datatype LocaleConfig = LocaleConfig(title: string, description: string, ogImage: string, keywords: seq<string>)

  function Config(lang: Lang): LocaleConfig {
    match lang
    case Ja => LocaleConfig("THE POOL", "5つのNFTをバーンして、NFTをクレームしよう！", "/images/logo.png",
                            ["NFT", "ヴィラン", "バーンNFT", "Web3", "イーサリアム", "限定NFT"])
    case En => LocaleConfig("THE POOL", "Burn 5 NFTs to claim a NFT!", "/images/logo.png",
                            ["NFT", "Villain", "Burn NFT", "Web3", "Ethereum", "Exclusive NFT"])
  }

  /** The fields of the generated metadata that depend on the locale or the base URL. */
  datatype DocumentMetadata = DocumentMetadata(
    title: string, description: string, keywords: seq<string>,
    ogLocale: string, ogUrl: string, ogTitle: string, ogDescription: string, ogImage: string,
    twitterTitle: string, twitterDescription: string, twitterImages: seq<string>,
    canonical: string, alternateJa: string, alternateEn: string)

  /** `generateMetadata`: every text comes from the chosen locale's entry; the
      OpenGraph locale names the region; canonical is the base URL and the two
      alternates add a language segment to it. */
  function GenerateMetadata(locale: Option<string>): (m: DocumentMetadata)
    ensures var c := Config(LayoutLocale(locale));
      m.title == c.title && m.description == c.description && m.keywords == c.keywords &&
      m.ogTitle == c.title && m.ogDescription == c.description && m.ogImage == c.ogImage &&
      m.twitterTitle == c.title && m.twitterDescription == c.description && m.twitterImages == [c.ogImage]
    ensures m.ogLocale == (if locale == Some("en") then "en_US" else "ja_JP")
    ensures m.ogUrl == BaseUrl && m.canonical == BaseUrl
    ensures m.alternateJa == BaseUrl + "/ja" && m.alternateEn == BaseUrl + "/en"
  {
    var lang := LayoutLocale(locale);
    var meta := Config(lang);
    DocumentMetadata(
      meta.title, meta.description, meta.keywords,
      if lang == Ja then "ja_JP" else "en_US", BaseUrl, meta.title, meta.description, meta.ogImage,
      meta.title, meta.description, [meta.ogImage],
      BaseUrl, BaseUrl + "/ja", BaseUrl + "/en")
  }

  /** Only the description and keywords differ between the two locales. */
  lemma LocalesShareTitleAndImage()
    ensures Config(En).title == Config(Ja).title && Config(En).ogImage == Config(Ja).ogImage
    ensures Config(En).description != Config(Ja).description
  {
    assert Config(En).description[0] != Config(Ja).description[0];
  }

  /** The alternates and the canonical URL are three different addresses, each
      starting with the base URL. */
  lemma AlternatesDistinct(locale: Option<string>)
    ensures var m := GenerateMetadata(locale);
      m.alternateJa != m.alternateEn && m.alternateJa != m.canonical && m.alternateEn != m.canonical &&
      m.alternateJa[..|BaseUrl|] == BaseUrl && m.alternateEn[..|BaseUrl|] == BaseUrl
  {
    var m := GenerateMetadata(locale);
    assert |m.alternateJa| == |BaseUrl| + 3;
    assert m.alternateJa[|BaseUrl| + 1] == 'j' && m.alternateEn[|BaseUrl| + 1] == 'e';
  }
}
