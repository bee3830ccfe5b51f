/** components/nft/NFTCard.tsx: one NFT tile, its border and badge, and its link to the
    block explorer. */
module NftCard {
  import opened Strings
  import opened NftTypes
  import opened Network

  /** `getContractAddress`: the burn contract for burn tokens, the mint contract for
      anything else. */
  function ContractAddress(current: NetworkType, kind: NftKind): (r: string)
    ensures kind == Burn ==> r == ContractConfigs(current).burnAddress
    ensures kind == Premium ==> r == ContractConfigs(current).mintAddress
  {
    if kind == Burn then BurnContractAddress(current) else MintContractAddress(current)
  }

  /** The border: red for burn, emerald for premium, faded to 30% unless selected. */
  function BorderClass(kind: NftKind, isSelected: bool): (r: string)
    ensures kind == Burn && isSelected ==> r == "border-red-500"
    ensures kind == Burn && !isSelected ==> r == "border-red-500/30"
    ensures kind == Premium && isSelected ==> r == "border-emerald-500"
    ensures kind == Premium && !isSelected ==> r == "border-emerald-500/30"
  {
    var isBurn := kind == Burn;
    if isBurn then (if isSelected then "border-red-500" else "border-red-500/30")
    else (if isSelected then "border-emerald-500" else "border-emerald-500/30")
  }

  /** The explorer link: the transaction URL of an empty hash, then `/token/`, the
      contract and `?a=` with the token id. Because the hash passed is empty, every
      link holds the doubled slash of "/tx//token/" right after the explorer URL; the
      card's contract address follows it, then "?a=", then the token id's digits. */
  function ExplorerLink(current: NetworkType, kind: NftKind, tokenId: nat): (r: string)
    ensures OccursAt(r, ExplorerUrl(current), 0)
    ensures OccursAt(r, "/tx//token/", |ExplorerUrl(current)|)
    ensures OccursAt(r, ContractAddress(current, kind), |ExplorerUrl(current)| + 11)
    ensures OccursAt(r, "?a=", |ExplorerUrl(current)| + 11 + |ContractAddress(current, kind)|)
    ensures |r| > |ExplorerUrl(current)| + 14 + |ContractAddress(current, kind)|
  {
    var tx := TransactionUrl(current, "");
    var rest := "/token/" + ContractAddress(current, kind) + "?a=" + NatToString(tokenId);
    LinkShape(ExplorerUrl(current), ContractAddress(current, kind), NatToString(tokenId));
    tx + rest
  }

  /** The text after "?a=" is all digits and reads back as the token id. */
  lemma ExplorerLinkTokenId(current: NetworkType, kind: NftKind, tokenId: nat)
    ensures var r := ExplorerLink(current, kind, tokenId);
      var digits := r[|ExplorerUrl(current)| + 14 + |ContractAddress(current, kind)|..];
      (forall i :: 0 <= i < |digits| ==> IsDigit(digits[i])) && ParseDecimal(digits) == tokenId
  {
    LinkShape(ExplorerUrl(current), ContractAddress(current, kind), NatToString(tokenId));
    ParseNatToString(tokenId);
  }

  /** The pieces of a link built from an explorer URL, an address and an id. */
  lemma LinkShape(explorer: string, address: string, id: string)
    ensures var s := (explorer + "/tx/" + "") + ("/token/" + address + "?a=" + id);
      OccursAt(s, explorer, 0) && OccursAt(s, "/tx//token/", |explorer|) &&
      OccursAt(s, address, |explorer| + 11) && OccursAt(s, "?a=", |explorer| + 11 + |address|) &&
      s[|explorer| + 14 + |address|..] == id
  {
    var s := (explorer + "/tx/" + "") + ("/token/" + address + "?a=" + id);
    assert s == explorer + "/tx//token/" + address + "?a=" + id;
    assert s[..|explorer|] == explorer;
    assert s[|explorer|..|explorer| + 11] == "/tx//token/";
    assert s[|explorer| + 11..|explorer| + 11 + |address|] == address;
    assert s[|explorer| + 11 + |address|..|explorer| + 14 + |address|] == "?a=";
    assert s[|explorer| + 14 + |address|..] == id;
  }

  /** What the card renders of its props. */
  datatype CardView = CardView(border: string, checkBadge: bool, clickable: bool, link: string)

  /** The check badge appears iff selected; the click handler is attached iff
      selectable; the border depends only on kind and selection. */
  function CardOf(current: NetworkType, kind: NftKind, tokenId: nat, isSelected: bool, selectable: bool): (v: CardView)
    ensures v.checkBadge <==> isSelected
    ensures v.clickable <==> selectable
    ensures v.border == BorderClass(kind, isSelected)
  {
    CardView(BorderClass(kind, isSelected), isSelected, selectable, ExplorerLink(current, kind, tokenId))
  }
}
