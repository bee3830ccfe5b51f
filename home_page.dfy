/** app/page.tsx: the burn-and-claim page. It checks how many premium NFTs the wallet
    may claim, shows the claim section, the claim and burn results and the confetti,
    and hands the NFT selection to the grid and to the burn button. */
module HomePage {
  import opened Optional
  import opened Strings
  import opened Language
  import opened Metadata
  import opened NftTypes
  import opened ClaimButton
  import BurnButton

  /** The claimable amount the page settles on: the amount read, zero for an inactive
      phase, and zero when either query throws. */
  function PageClaimable(q: ClaimableQuery): (r: int)
    ensures q.ClaimableThrows? ==> r == 0
    ensures q.Claimable? && q.phase.PhaseThrows? ==> r == 0
    ensures q.Claimable? && q.phase == PhaseStatus(0) ==> r == 0
    ensures q.Claimable? && q.phase.PhaseStatus? && q.phase.status != 0 ==> r == q.amount
  {
    match q
    case ClaimableThrows => 0
    case Claimable(amount, phase) =>
      match phase
      case PhaseThrows => 0
      case PhaseStatus(status) => if status == 0 then 0 else amount
  }

  /** The page and the claim button read the same two queries but disagree exactly
      when the phase query throws after a non-zero amount: the button keeps the amount,
      the page zeroes it. */
  lemma PageAndButtonDisagreeOnlyOnPhaseFailure(q: ClaimableQuery)
    ensures PageClaimable(q) != MintableFromQuery(q) <==>
      q.Claimable? && q.phase.PhaseThrows? && q.amount != 0
    ensures PageClaimable(q) == 0 || PageClaimable(q) == MintableFromQuery(q)
  {
  }

  /** The heading of the claim section. */
  function ClaimHeading(lang: Lang, claimableAmount: int): Message {
    Formatted("home.claimableNfts", [("count", IntToString(claimableAmount)), ("premiumNftName", Prefix(lang, Premium))])
  }

  /** A JavaScript string used as a condition. */
  predicate Present(s: Option<string>) {
    s.Some? && s.value != ""
  }

  class HomePageState {
    var selectedNfts: seq<nat>
    var burnTxHash: Option<string>
    var claimTxHash: Option<string>
    var claimableAmount: int
    var isCheckingClaims: bool
    var showConfetti: bool

    constructor()
      ensures selectedNfts == [] && burnTxHash == None && claimTxHash == None
      ensures claimableAmount == 0 && !isCheckingClaims && !showConfetti
    {
      selectedNfts := [];
      burnTxHash := None;
      claimTxHash := None;
      claimableAmount := 0;
      isCheckingClaims := false;
      showConfetti := false;
    }

    /** `checkClaimStatus`: nothing unless the network is correct and there are an
        address and a signer. Otherwise the amount from `PageClaimable`, unless setting
        up the contract fails, which keeps the old amount. The check ends not
        checking. */
    method CheckClaimStatus(isNetworkCorrect: bool, address: Option<string>, hasSigner: bool,
                            setupThrows: bool, q: ClaimableQuery)
      modifies this
      ensures !(isNetworkCorrect && Present(address) && hasSigner) ==>
        claimableAmount == old(claimableAmount) && isCheckingClaims == old(isCheckingClaims)
      ensures isNetworkCorrect && Present(address) && hasSigner ==>
        !isCheckingClaims &&
        claimableAmount == (if setupThrows then old(claimableAmount) else PageClaimable(q))
      ensures selectedNfts == old(selectedNfts) && burnTxHash == old(burnTxHash)
      ensures claimTxHash == old(claimTxHash) && showConfetti == old(showConfetti)
    {
      if !isNetworkCorrect || !Present(address) || !hasSigner {
        return;
      }
      isCheckingClaims := true;
      if !setupThrows {
        match q {
          case ClaimableThrows =>
            claimableAmount := 0;
          case Claimable(amount, phase) =>
            claimableAmount := amount;
            match phase {
              case PhaseThrows =>
                claimableAmount := 0;
              case PhaseStatus(status) =>
                if status == 0 {
                  claimableAmount := 0;
                }
            }
        }
      }
      isCheckingClaims := false;
    }

    /** The grid's and the burn button's `setSelectedNFTs`. */
    method SetSelection(ids: seq<nat>)
      modifies this
      ensures selectedNfts == ids
      ensures burnTxHash == old(burnTxHash) && claimTxHash == old(claimTxHash)
      ensures claimableAmount == old(claimableAmount) && isCheckingClaims == old(isCheckingClaims)
      ensures showConfetti == old(showConfetti)
    {
      selectedNfts := ids;
    }

    /** `setBurnTxHash` followed by its effect: a truthy hash clears the claim result. */
    method SetBurnTxHash(hash: Option<string>)
      modifies this
      ensures burnTxHash == hash
      ensures claimTxHash == (if Present(hash) then None else old(claimTxHash))
      ensures selectedNfts == old(selectedNfts) && claimableAmount == old(claimableAmount)
      ensures isCheckingClaims == old(isCheckingClaims) && showConfetti == old(showConfetti)
    {
      burnTxHash := hash;
      if Present(hash) {
        claimTxHash := None;
      }
    }

    /** `setClaimTxHash` followed by its effect: a truthy hash starts the confetti. */
    method SetClaimTxHash(hash: Option<string>)
      modifies this
      ensures claimTxHash == hash
      ensures showConfetti == (Present(hash) || old(showConfetti))
      ensures selectedNfts == old(selectedNfts) && burnTxHash == old(burnTxHash)
      ensures claimableAmount == old(claimableAmount) && isCheckingClaims == old(isCheckingClaims)
    {
      claimTxHash := hash;
      if Present(hash) {
        showConfetti := true;
      }
    }

    /** The confetti timeout. */
    method ConfettiTimeout()
      modifies this
      ensures !showConfetti
      ensures selectedNfts == old(selectedNfts) && burnTxHash == old(burnTxHash) && claimTxHash == old(claimTxHash)
      ensures claimableAmount == old(claimableAmount) && isCheckingClaims == old(isCheckingClaims)
    {
      showConfetti := false;
    }

    /** The claim section: right network, something to claim, and no claim result yet. */
    predicate ShowClaimSection(isNetworkCorrect: bool)
      reads this
    {
      isNetworkCorrect && claimableAmount > 0 && !Present(claimTxHash)
    }

    predicate ShowClaimStatus()
      reads this
    {
      Present(claimTxHash)
    }

    predicate ShowBurnStatus()
      reads this
    {
      Present(burnTxHash)
    }

    /** The claim section and the claim result are never shown together. */
    lemma ClaimSectionOrResult(isNetworkCorrect: bool)
      ensures !(ShowClaimSection(isNetworkCorrect) && ShowClaimStatus())
      ensures ShowClaimStatus() ==> !ShowClaimSection(isNetworkCorrect)
    {
    }

    /** The grid is disabled off the configured network and while disconnected. */
    function SelectionDisabled(isNetworkCorrect: bool, isConnected: bool): (r: bool)
      ensures r <==> !isNetworkCorrect || !isConnected
    {
      !isNetworkCorrect || !isConnected
    }

    /** The burn status's "check premium" callback: scroll to the top exactly when
        there is something to claim. */
    function OnCheckPremium(): (scrollToTop: bool)
      reads this
      ensures scrollToTop <==> claimableAmount > 0
    {
      claimableAmount > 0
    }

    /** The selection as the burn button's prop type describes it: each selected id
        counted once. */
    function BurnButtonSelection(): (r: BurnButton.SelectedCounts)
      reads this
      ensures BurnButton.TotalSelected(r) == |selectedNfts|
    {
      BurnButton.SelectionCountsTotal(selectedNfts);
      BurnButton.SelectionCounts(selectedNfts)
    }
  }
}
