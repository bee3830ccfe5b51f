/** components/burn/BurnStatus.tsx and components/claim/ClaimStatus.tsx: the success
    panels shown after a burn or a claim, with a shortened hash and an explorer link. */
module TxStatus {
  import opened Strings
  import opened NftTypes
  import opened Language
  import opened Metadata
  import opened Network

  function Min(a: int, b: int): int { if a <= b then a else b }
  function Max(a: int, b: int): int { if a >= b then a else b }

  /** `truncateHash`: twelve leading and eight trailing characters around "...". A
      negative start of `substring` counts as 0, so a hash shorter than eight
      characters appears whole as the tail. */
  function TruncateHash(hash: string): (r: string)
    ensures r == hash[..Min(12, |hash|)] + "..." + hash[Max(0, |hash| - 8)..]
  {
    Substring(hash, 0, 12) + "..." + SubstringFrom(hash, |hash| - 8)
  }

  /** A full transaction hash (66 characters) shortens to 23; a hash under eight
      characters is shown twice. */
  lemma TruncateHashShapes(hash: string)
    ensures |hash| >= 20 ==> |TruncateHash(hash)| == 23
    ensures |hash| == 66 ==> TruncateHash(hash) == hash[..12] + "..." + hash[58..]
    ensures |hash| < 8 ==> TruncateHash(hash) == hash + "..." + hash
  {
    assert hash[..|hash|] == hash;
  }

  /** The text under the burn panel's title. */
  function BurnSuccessMessage(lang: Lang): (r: string)
    ensures lang == En ==> OccursAt(r, Prefix(En, Burn), 15)
    ensures lang == Ja ==> OccursAt(r, Prefix(Ja, Burn), 7)
  {
    var burnNftName := Prefix(lang, Burn);
    if lang == Ja then "選択した5つの" + burnNftName + "が正常にバーンされました"
    else "The 5 selected " + burnNftName + "s were successfully burned"
  }

  /** The burn panel's prompt to look for the premium NFT. */
  function CheckPremiumMessage(lang: Lang): (r: string)
    ensures lang == En ==> OccursAt(r, Prefix(En, Premium), 9)
    ensures lang == Ja ==> OccursAt(r, Prefix(Ja, Premium), 0)
  {
    var premiumNftName := Prefix(lang, Premium);
    if lang == Ja then premiumNftName + "が利用可能か確認する"
    else "Check if " + premiumNftName + " is available"
  }

  /** The text under the claim panel's title. */
  function ClaimSuccessMessage(lang: Lang): (r: string)
    ensures OccursAt(r, Prefix(lang, Premium), 0)
  {
    var premiumNftName := Prefix(lang, Premium);
    if lang == Ja then premiumNftName + "がクレームされました！"
    else premiumNftName + " was claimed successfully!"
  }

  /** What a status panel shows: the shortened hash, the message and the link. */
  datatype StatusView = StatusView(hashText: string, message: string, link: string)

  /** The link carries the whole hash, not the shortened one. */
  function BurnStatusView(lang: Lang, current: NetworkType, txHash: string): (v: StatusView)
    ensures v.link == TransactionUrl(current, txHash) && v.link[|ExplorerUrl(current)| + 4..] == txHash
    ensures v.hashText == TruncateHash(txHash) && v.message == BurnSuccessMessage(lang)
  {
    StatusView(TruncateHash(txHash), BurnSuccessMessage(lang), TransactionUrl(current, txHash))
  }

  function ClaimStatusView(lang: Lang, current: NetworkType, txHash: string): (v: StatusView)
    ensures v.link == TransactionUrl(current, txHash) && v.link[|ExplorerUrl(current)| + 4..] == txHash
    ensures v.hashText == TruncateHash(txHash) && v.message == ClaimSuccessMessage(lang)
  {
    StatusView(TruncateHash(txHash), ClaimSuccessMessage(lang), TransactionUrl(current, txHash))
  }
}
