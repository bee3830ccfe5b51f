/** types/nft.ts: the two kinds of token and the record the pages list. */
module NftTypes {
  import opened Optional

  /** `NFTType`: a token of the burn collection or of the premium (mint) collection. */
  datatype NftKind = Burn | Premium

  /** `NFT`: one owned instance of a token. The burn page fills in neither `instanceId`
      nor `phaseId`, so both are optional here. */
  datatype Nft = Nft(tokenId: nat, instanceId: Option<nat>, name: string, image: string,
                     kind: NftKind, phaseId: Option<int>)
}
