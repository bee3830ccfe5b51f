/** contexts/MetadataContext.tsx: per-language project metadata and the helpers that
    name NFTs, locate their images and fill in the project description. */
module Metadata {
  import opened Strings
  import opened NftTypes
  import opened Language

  function ProjectName(lang: Lang): string {
    if lang == En then "Villain NFT Burn" else "プロジェクトタイトル"
  }

  /** The project description, with its two placeholders written apart from the text
      around them. */
  function Description(lang: Lang): string {
    if lang == En then "Burn 5 " + "{burnNftName}" + " NFTs to claim a rare " + "{premiumNftName}" + " NFT!"
    else "5つの" + "{burnNftName}" + "をバーンして" + "{premiumNftName}" + "をクレームしよう！"
  }

  /** `getNftTypePrefix`: the display prefix of a kind in the current language's entry. */
  function Prefix(lang: Lang, kind: NftKind): string {
    match (lang, kind)
    case (En, Burn) => "NFT-A(burn nft)"
    case (En, Premium) => "NFT-B(mint nft)"
    case (Ja, Burn) => "NFT-A(burn nft)"
    case (Ja, Premium) => "NFT-B(mint nft)"
  }

  function BaseUrl(lang: Lang, kind: NftKind): string {
    match (lang, kind)
    case (En, Burn) => "https://0xmavillain.com/data/nft/burn/images"
    case (En, Premium) => "https://0xmavillain.com/data/nft/mint/images"
    case (Ja, Burn) => "https://0xmavillain.com/data/nft/burn/images"
    case (Ja, Premium) => "https://0xmavillain.com/data/nft/mint/images"
  }

  /** The two languages carry the same prefixes and base URLs, and the two kinds differ. */
  lemma KindTablesAgree(kind: NftKind)
    ensures Prefix(En, kind) == Prefix(Ja, kind)
    ensures BaseUrl(En, kind) == BaseUrl(Ja, kind)
    ensures Prefix(En, Burn) != Prefix(En, Premium)
  {
    assert Prefix(En, Burn)[4] != Prefix(En, Premium)[4];
  }

  /** `getNftName`: the kind's prefix, a space, `#` and the token id in decimal. */
  function NftName(lang: Lang, kind: NftKind, tokenId: nat): (r: string)
    ensures |r| > |Prefix(lang, kind)| + 2
    ensures r[..|Prefix(lang, kind)|] == Prefix(lang, kind)
    ensures r[|Prefix(lang, kind)|..|Prefix(lang, kind)| + 2] == " #"
  {
    Prefix(lang, kind) + " #" + NatToString(tokenId)
  }

  /** `getNftImageUrl`: the kind's base URL, `/`, the token id and `.png`. */
  function NftImageUrl(lang: Lang, kind: NftKind, tokenId: nat): (r: string)
    ensures |r| > |BaseUrl(lang, kind)| + 5
    ensures r[..|BaseUrl(lang, kind)| + 1] == BaseUrl(lang, kind) + "/"
    ensures r[|r| - 4..] == ".png"
  {
    BaseUrl(lang, kind) + "/" + NatToString(tokenId) + ".png"
  }

  /** The token id is read back from a name: the text after the prefix and " #" parses
      to the id. */
  lemma NftNameTokenId(lang: Lang, kind: NftKind, tokenId: nat)
    ensures var r := NftName(lang, kind, tokenId);
      var digits := r[|Prefix(lang, kind)| + 2..];
      (forall i :: 0 <= i < |digits| ==> IsDigit(digits[i])) && ParseDecimal(digits) == tokenId
  {
    var r := NftName(lang, kind, tokenId);
    assert r[|Prefix(lang, kind)| + 2..] == NatToString(tokenId);
    ParseNatToString(tokenId);
  }

  /** The token id is read back from an image URL in the same way. */
  lemma NftImageUrlTokenId(lang: Lang, kind: NftKind, tokenId: nat)
    ensures var r := NftImageUrl(lang, kind, tokenId);
      var digits := r[|BaseUrl(lang, kind)| + 1..|r| - 4];
      (forall i :: 0 <= i < |digits| ==> IsDigit(digits[i])) && ParseDecimal(digits) == tokenId
  {
    var r := NftImageUrl(lang, kind, tokenId);
    assert r[|BaseUrl(lang, kind)| + 1..|r| - 4] == NatToString(tokenId);
    ParseNatToString(tokenId);
  }

  /** Names and image URLs depend on the kind and the id, not on the language, and
      distinct ids of one kind get distinct names and URLs. */
  lemma {:induction false} NamesIdentifyTokens(kind: NftKind, m: nat, n: nat)
    ensures NftName(En, kind, m) == NftName(Ja, kind, m)
    ensures NftImageUrl(En, kind, m) == NftImageUrl(Ja, kind, m)
    ensures NftName(En, kind, m) == NftName(En, kind, n) ==> m == n
    ensures NftImageUrl(En, kind, m) == NftImageUrl(En, kind, n) ==> m == n
  {
    KindTablesAgree(kind);
    NftNameTokenId(En, kind, m);
    NftNameTokenId(En, kind, n);
    NftImageUrlTokenId(En, kind, m);
    NftImageUrlTokenId(En, kind, n);
  }

  /** `getFormattedDescription`: the first `{burnNftName}` and then the first
      `{premiumNftName}` are replaced by the two prefixes. */
  function FormattedDescription(lang: Lang): string {
    FillDescription(Description(lang), Prefix(lang, Burn), Prefix(lang, Premium))
  }

  function FillDescription(desc: string, burnPrefix: string, premiumPrefix: string): string {
    ReplaceFirst(ReplaceFirst(desc, "{burnNftName}", burnPrefix), "{premiumNftName}", premiumPrefix)
  }

  /** For a template with one placeholder of each name, in that order, and no other
      brace before them, filling puts each prefix in its placeholder's place. */
  lemma FillTemplate(a: string, b: string, c: string, burnPrefix: string, premiumPrefix: string)
    requires '{' !in a && '{' !in b && '{' !in burnPrefix
    ensures FillDescription(a + "{burnNftName}" + b + "{premiumNftName}" + c, burnPrefix, premiumPrefix)
      == a + burnPrefix + b + premiumPrefix + c
  {
    var rest := b + "{premiumNftName}" + c;
    assert a + "{burnNftName}" + b + "{premiumNftName}" + c == a + "{burnNftName}" + rest;
    ReplaceFirstAfter(a, "{burnNftName}", rest, burnPrefix);
    var head := a + burnPrefix + b;
    assert a + burnPrefix + rest == head + "{premiumNftName}" + c;
    assert '{' !in head by {
      forall i | 0 <= i < |head| ensures head[i] != '{' {
        if i < |a| { assert head[i] == a[i]; }
        else if i < |a| + |burnPrefix| { assert head[i] == burnPrefix[i - |a|]; }
        else { assert head[i] == b[i - |a| - |burnPrefix|]; }
      }
    }
    ReplaceFirstAfter(head, "{premiumNftName}", c, premiumPrefix);
  }

  /** The English description comes out with each prefix in its placeholder's place. */
  lemma FormattedDescriptionEn()
    ensures FormattedDescription(En)
      == "Burn 5 " + "NFT-A(burn nft)" + " NFTs to claim a rare " + "NFT-B(mint nft)" + " NFT!"
  {
    FillTemplate("Burn 5 ", " NFTs to claim a rare ", " NFT!", Prefix(En, Burn), Prefix(En, Premium));
  }

  /** The Japanese description likewise. */
  lemma FormattedDescriptionJa()
    ensures FormattedDescription(Ja)
      == "5つの" + "NFT-A(burn nft)" + "をバーンして" + "NFT-B(mint nft)" + "をクレームしよう！"
  {
    FillTemplate("5つの", "をバーンして", "をクレームしよう！", Prefix(Ja, Burn), Prefix(Ja, Premium));
  }
}
