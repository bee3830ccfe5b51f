/** utils/DynamicMetadataGenerator.tsx: the page title and description written into the
    document head, chosen from explicit overrides, explicit keys, or keys mapped from the
    current path. */
module PageMetadata {
  import opened Optional
  import opened Strings
  import opened Language
  import opened Metadata

  /** The translation keys of one page's title and description. */
  datatype PageKeys = PageKeys(titleKey: string, descriptionKey: string)

  const HomeKeys: PageKeys := PageKeys("home.title", "home.subtitle")
  const MyNftsKeys: PageKeys := PageKeys("myNfts.title", "myNfts.subtitle")

  /** `getPageSpecificMetadata`: an absent or empty path reads as "/", the two known
      paths have their own keys, and every other path gets the home keys. */
  function PageMapping(pathname: Option<string>): (r: PageKeys)
    ensures pathname == Some("/my-nfts") ==> r == MyNftsKeys
    ensures pathname != Some("/my-nfts") ==> r == HomeKeys
  {
    var path := if pathname.Some? && pathname.value != "" then pathname.value else "/";
    if path == "/" then HomeKeys
    else if path == "/my-nfts" then MyNftsKeys
    else HomeKeys
  }

  /** A JavaScript string used as a condition. */
  predicate Present(s: Option<string>) {
    s.Some? && s.value != ""
  }

  /** `override || (key ? t(key) : t(mappedKey))`: a non-empty override wins, then a
      non-empty explicit key, then the mapped key. */
  function Choose(override: Option<string>, key: Option<string>, mappedKey: string): (m: Message)
    ensures Present(override) ==> m == Literal(override.value)
    ensures !Present(override) && Present(key) ==> m == Key(key.value)
    ensures !Present(override) && !Present(key) ==> m == Key(mappedKey)
  {
    if Present(override) then Literal(override.value)
    else if Present(key) then Key(key.value)
    else Key(mappedKey)
  }

  /** The title of the page. */
  function Title(pathname: Option<string>, overrideTitle: Option<string>, pageTitleKey: Option<string>): Message {
    Choose(overrideTitle, pageTitleKey, PageMapping(pathname).titleKey)
  }

  /** The description of the page. */
  function PageDescription(pathname: Option<string>, overrideDescription: Option<string>,
                           descriptionKey: Option<string>): Message {
    Choose(overrideDescription, descriptionKey, PageMapping(pathname).descriptionKey)
  }

  /** Title and description are chosen independently: an override of one leaves the
      other to its own key or to the path. */
  lemma TitleAndDescriptionIndependent(pathname: Option<string>, overrideTitle: Option<string>,
                                       pageTitleKey: Option<string>, descriptionKey: Option<string>)
    requires Present(overrideTitle) && !Present(descriptionKey)
    ensures Title(pathname, overrideTitle, pageTitleKey) == Literal(overrideTitle.value)
    ensures PageDescription(pathname, None, descriptionKey) ==
      Key(if pathname == Some("/my-nfts") then "myNfts.subtitle" else "home.subtitle")
  {
  }

  /** The full title: the page title, a bar, and the project name. */
  function FullTitle(lang: Lang, title: string): (r: string)
    ensures |r| == |title| + 3 + |ProjectName(lang)|
    ensures r[..|title|] == title && r[|title|..|title| + 3] == " | " && r[|title| + 3..] == ProjectName(lang)
  {
    title + " | " + ProjectName(lang)
  }

  /** Different page titles give different full titles in the same language. */
  lemma FullTitleInjective(lang: Lang, a: string, b: string)
    requires FullTitle(lang, a) == FullTitle(lang, b)
    ensures a == b
  {
    assert |a| == |b|;
    assert a == FullTitle(lang, a)[..|a|];
  }
}
