/** app/my-nfts/page.tsx: the "my NFTs" page. It reads one phase's burn and reward
    token ids and the wallet's balance of each, lists one entry per owned instance, and
    filters that list by tab. */
module MyNfts {
  import opened Optional
  import opened Strings
  import opened Language
  import opened Metadata
  import opened NftTypes

  /** The phase queried: the selected one whenever there is a selection (phase 0
      included), the configured default otherwise. */
  function PhaseToQuery(selectedPhase: Option<int>, defaultPhase: int): (r: int)
    ensures selectedPhase.Some? ==> r == selectedPhase.value
    ensures selectedPhase.None? ==> r == defaultPhase
  {
    match selectedPhase
    case Some(p) => p
    case None => defaultPhase
  }

  /** How the per-phase queries end: `getPhaseInfo` or a balance query throws, the phase
      info is null, or both token ids and both balances are read. */
  datatype PhaseFetch =
    | PhaseFetchThrows
    | NoPhaseInfo
    | Owned(burnTokenId: nat, rewardTokenId: nat, burnBalance: nat, premiumBalance: nat)

  /** The entry for the `i`-th owned instance of a token (instance ids count from 1). */
  function Instance(lang: Lang, kind: NftKind, tokenId: nat, phaseId: int, i: nat): Nft {
    Nft(tokenId, Some(i + 1), NftName(lang, kind, tokenId), NftImageUrl(lang, kind, tokenId), kind, Some(phaseId))
  }

  /** `count` instances of one token, numbered 1 to `count`. */
  function Instances(lang: Lang, kind: NftKind, tokenId: nat, phaseId: int, count: nat): (r: seq<Nft>)
    ensures |r| == count
    ensures forall i :: 0 <= i < count ==> r[i] == Instance(lang, kind, tokenId, phaseId, i)
  {
    seq(count, i requires 0 <= i < count => Instance(lang, kind, tokenId, phaseId, i))
  }

  /** The list one phase contributes: its burn instances, then its premium instances;
      nothing when the queries fail or there is no phase info. */
  function Expansion(lang: Lang, phaseId: int, fetch: PhaseFetch): seq<Nft> {
    match fetch
    case Owned(burnTokenId, rewardTokenId, burnBalance, premiumBalance) =>
      Instances(lang, Burn, burnTokenId, phaseId, burnBalance) +
      Instances(lang, Premium, rewardTokenId, phaseId, premiumBalance)
    case _ => []
  }

  /** The two `for` loops that push one entry per owned instance. */
  method ExpandBalances(lang: Lang, phaseId: int, burnTokenId: nat, rewardTokenId: nat,
                        burnBalance: nat, premiumBalance: nat) returns (allNftData: seq<Nft>)
    ensures allNftData == Expansion(lang, phaseId, Owned(burnTokenId, rewardTokenId, burnBalance, premiumBalance))
  {
    allNftData := [];
    var i := 0;
    while i < burnBalance
      invariant 0 <= i <= burnBalance
      invariant allNftData == Instances(lang, Burn, burnTokenId, phaseId, i)
    {
      InstancesGrow(lang, Burn, burnTokenId, phaseId, i);
      allNftData := allNftData + [Instance(lang, Burn, burnTokenId, phaseId, i)];
      i := i + 1;
    }
    var j := 0;
    while j < premiumBalance
      invariant 0 <= j <= premiumBalance
      invariant allNftData ==
        Instances(lang, Burn, burnTokenId, phaseId, burnBalance) + Instances(lang, Premium, rewardTokenId, phaseId, j)
    {
      InstancesGrow(lang, Premium, rewardTokenId, phaseId, j);
      allNftData := allNftData + [Instance(lang, Premium, rewardTokenId, phaseId, j)];
      j := j + 1;
    }
  }

  /** One more instance extends the list by its entry. */
  lemma InstancesGrow(lang: Lang, kind: NftKind, tokenId: nat, phaseId: int, count: nat)
    ensures Instances(lang, kind, tokenId, phaseId, count + 1) ==
      Instances(lang, kind, tokenId, phaseId, count) + [Instance(lang, kind, tokenId, phaseId, count)]
  {
    var a := Instances(lang, kind, tokenId, phaseId, count + 1);
    var b := Instances(lang, kind, tokenId, phaseId, count) + [Instance(lang, kind, tokenId, phaseId, count)];
    assert forall i :: 0 <= i < |a| ==> a[i] == b[i];
  }

  /** The per-phase part of `fetchUserNFTs`: the balances are expanded only when both
      token ids and both balances were read. */
  method FetchPhase(lang: Lang, phaseId: int, fetch: PhaseFetch) returns (allNftData: seq<Nft>)
    ensures allNftData == Expansion(lang, phaseId, fetch)
  {
    allNftData := [];
    match fetch {
      case Owned(burnTokenId, rewardTokenId, burnBalance, premiumBalance) =>
        allNftData := ExpandBalances(lang, phaseId, burnTokenId, rewardTokenId, burnBalance, premiumBalance);
      case PhaseFetchThrows =>
      case NoPhaseInfo =>
    }
  }

  /** `nfts.filter(nft => nft.type === kind)`: the entries of that kind, in order. */
  function OfKind(nfts: seq<Nft>, kind: NftKind): (r: seq<Nft>)
    ensures |r| <= |nfts|
    ensures forall i :: 0 <= i < |r| ==> r[i].kind == kind
    ensures forall x :: multiset(r)[x] == (if x.kind == kind then multiset(nfts)[x] else 0)
    decreases |nfts|
  {
    if nfts == [] then []
    else
      var rest := OfKind(nfts[1..], kind);
      assert nfts == [nfts[0]] + nfts[1..];
      if nfts[0].kind == kind then [nfts[0]] + rest else rest
  }

  lemma {:induction false} OfKindAppend(a: seq<Nft>, b: seq<Nft>, kind: NftKind)
    ensures OfKind(a + b, kind) == OfKind(a, kind) + OfKind(b, kind)
    decreases |a|
  {
    if a == [] {
      assert a + b == b;
    } else {
      assert (a + b)[1..] == a[1..] + b;
      OfKindAppend(a[1..], b, kind);
    }
  }

  /** Filtering a list whose entries all have one kind keeps all of it or none of it. */
  lemma {:induction false} OfKindUniform(s: seq<Nft>, kind: NftKind, wanted: NftKind)
    requires forall i :: 0 <= i < |s| ==> s[i].kind == kind
    ensures OfKind(s, wanted) == if kind == wanted then s else []
    decreases |s|
  {
    if s != [] {
      OfKindUniform(s[1..], kind, wanted);
      assert s == [s[0]] + s[1..];
    }
  }

  /** The burn tab lists exactly the burn instances and the premium tab exactly the
      premium instances, so their counts are the two balances. */
  lemma FiltersSplitTheExpansion(lang: Lang, phaseId: int, fetch: PhaseFetch)
    requires fetch.Owned?
    ensures OfKind(Expansion(lang, phaseId, fetch), Burn) ==
      Instances(lang, Burn, fetch.burnTokenId, phaseId, fetch.burnBalance)
    ensures OfKind(Expansion(lang, phaseId, fetch), Premium) ==
      Instances(lang, Premium, fetch.rewardTokenId, phaseId, fetch.premiumBalance)
    ensures |OfKind(Expansion(lang, phaseId, fetch), Burn)| == fetch.burnBalance
    ensures |OfKind(Expansion(lang, phaseId, fetch), Premium)| == fetch.premiumBalance
  {
    var b := Instances(lang, Burn, fetch.burnTokenId, phaseId, fetch.burnBalance);
    var p := Instances(lang, Premium, fetch.rewardTokenId, phaseId, fetch.premiumBalance);
    OfKindAppend(b, p, Burn);
    OfKindAppend(b, p, Premium);
    OfKindUniform(b, Burn, Burn);
    OfKindUniform(p, Premium, Burn);
    OfKindUniform(b, Burn, Premium);
    OfKindUniform(p, Premium, Premium);
    assert b + [] == b;
    assert [] + p == p;
  }

  /** Within each group the instance ids run 1, 2, ... in order. */
  lemma InstanceIdsRunFromOne(lang: Lang, phaseId: int, fetch: PhaseFetch)
    requires fetch.Owned?
    ensures var e := Expansion(lang, phaseId, fetch);
      |e| == fetch.burnBalance + fetch.premiumBalance &&
      (forall i :: 0 <= i < fetch.burnBalance ==> e[i].kind == Burn && e[i].instanceId == Some(i + 1)) &&
      (forall i :: fetch.burnBalance <= i < |e| ==>
         e[i].kind == Premium && e[i].instanceId == Some(i - fetch.burnBalance + 1))
  {
  }

  /** `getCurrentNFTList`: tab 1 the burn entries, tab 2 the premium entries, and every
      other tab all of them. */
  function CurrentList(nfts: seq<Nft>, tabValue: int): (r: seq<Nft>)
    ensures tabValue == 1 ==> r == OfKind(nfts, Burn)
    ensures tabValue == 2 ==> r == OfKind(nfts, Premium)
    ensures tabValue != 1 && tabValue != 2 ==> r == nfts
  {
    if tabValue == 1 then OfKind(nfts, Burn)
    else if tabValue == 2 then OfKind(nfts, Premium)
    else nfts
  }

  /** The text of an empty grid: the generic text on tab 0, and otherwise "<prefix> not
      found" for the burn prefix on tab 1 and the premium prefix on any other tab. */
  function EmptyGridText(lang: Lang, tabValue: int): (m: Message)
    ensures tabValue == 0 <==> m == Key("myNfts.noNftsFound")
    ensures tabValue != 0 ==> m.Literal? && OccursAt(m.text, Prefix(lang, if tabValue == 1 then Burn else Premium), 0)
  {
    if tabValue == 0 then Key("myNfts.noNftsFound")
    else
      var prefix := Prefix(lang, if tabValue == 1 then Burn else Premium);
      var text := prefix + (if lang == Ja then "が見つかりません" else " not found");
      assert text[..|prefix|] == prefix;
      Literal(text)
  }

  /** The error shown when loading fails. */
  function LoadErrorText(lang: Lang): Message {
    Literal(if lang == Ja then "NFTの読み込み中にエラーが発生しました。再試行してください。"
            else "An error occurred while loading NFTs. Please try again.")
  }

  class MyNftsPage {
    var nfts: seq<Nft>
    var isLoading: bool
    var loadError: Option<Message>
    var tabValue: int
    var refreshCounter: nat
    var selectedPhase: Option<int>

    constructor()
      ensures nfts == [] && isLoading && loadError == None && tabValue == 0
      ensures refreshCounter == 0 && selectedPhase == None
    {
      nfts := [];
      isLoading := true;
      loadError := None;
      tabValue := 0;
      refreshCounter := 0;
      selectedPhase := None;
    }

    method HandleRefresh()
      modifies this
      ensures refreshCounter == old(refreshCounter) + 1
      ensures nfts == old(nfts) && isLoading == old(isLoading) && loadError == old(loadError)
      ensures tabValue == old(tabValue) && selectedPhase == old(selectedPhase)
    {
      refreshCounter := refreshCounter + 1;
    }

    /** `handlePhaseSelect`: the choice is stored and a refetch requested. */
    method HandlePhaseSelect(phaseId: Option<int>)
      modifies this
      ensures selectedPhase == phaseId && refreshCounter == old(refreshCounter) + 1
      ensures nfts == old(nfts) && isLoading == old(isLoading) && loadError == old(loadError)
      ensures tabValue == old(tabValue)
    {
      selectedPhase := phaseId;
      refreshCounter := refreshCounter + 1;
    }

    method HandleTabChange(newTabValue: int)
      modifies this
      ensures tabValue == newTabValue
      ensures nfts == old(nfts) && isLoading == old(isLoading) && loadError == old(loadError)
      ensures refreshCounter == old(refreshCounter) && selectedPhase == old(selectedPhase)
    {
      tabValue := newTabValue;
    }

    /** `fetchUserNFTs`. Disconnected, without address or signer, or on the wrong
        network: loading ends and nothing else changes. A failure outside the phase
        queries (`setupThrows`) empties the list and shows the load error; a failing
        phase query only contributes no entries. */
    method FetchUserNfts(isConnected: bool, hasAddress: bool, hasSigner: bool, isNetworkCorrect: bool,
                         lang: Lang, defaultPhase: int, setupThrows: bool, fetch: PhaseFetch)
      modifies this
      ensures !isLoading
      ensures !(isConnected && hasAddress && hasSigner && isNetworkCorrect) ==>
        nfts == old(nfts) && loadError == old(loadError)
      ensures isConnected && hasAddress && hasSigner && isNetworkCorrect && setupThrows ==>
        nfts == [] && loadError == Some(LoadErrorText(lang))
      ensures isConnected && hasAddress && hasSigner && isNetworkCorrect && !setupThrows ==>
        nfts == Expansion(lang, PhaseToQuery(old(selectedPhase), defaultPhase), fetch) && loadError == None
      ensures tabValue == old(tabValue) && refreshCounter == old(refreshCounter) && selectedPhase == old(selectedPhase)
    {
      if !isConnected || !hasAddress || !hasSigner || !isNetworkCorrect {
        isLoading := false;
        return;
      }
      isLoading := true;
      loadError := None;
      if setupThrows {
        loadError := Some(LoadErrorText(lang));
        nfts := [];
      } else {
        var phaseId := if selectedPhase.Some? then selectedPhase.value else defaultPhase;
        nfts := FetchPhase(lang, phaseId, fetch);
      }
      isLoading := false;
    }

    /** The list on screen for the current tab: the burn instances on tab 1, the
        premium instances on tab 2, and everything fetched on any other tab. */
    function Shown(): (r: seq<Nft>)
      reads this
      ensures tabValue == 1 ==> r == OfKind(nfts, Burn)
      ensures tabValue == 2 ==> r == OfKind(nfts, Premium)
      ensures tabValue != 1 && tabValue != 2 ==> r == nfts
      ensures |r| <= |nfts|
      ensures forall x :: x in r ==> x in nfts
    {
      CurrentList(nfts, tabValue)
    }
  }
}
