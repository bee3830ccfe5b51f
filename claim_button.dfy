/** components/claim/ClaimButton.tsx: the claim button. It reads how many premium NFTs
    the wallet may claim, lets the user pick an amount, sends `claimReward(phaseId,
    amount)` and watches the transaction like the burn button does. */
module ClaimButton {
  import opened Optional
  import opened Strings
  import opened Language
  import opened Metadata
  import opened NftTypes
  import opened TxMonitor
  import opened DeviceDetection
  import opened WalletConnection
  import Quantity

  /** The revert reasons the claim button recognises (the first key is spelled as the
      locale files spell it). */
  const ClaimRules: ErrorRules :=
    ErrorRules("No NFTs to claim", "errors.claim.noNftsToFlaim",
               "not enough burned", "errors.claim.notEnoughBurned", "errors.transaction.generic")

  /** How `getPhaseInfo(phaseId)` ends: the phase status, or an exception. */
  datatype PhaseQuery = PhaseThrows | PhaseStatus(status: int)

  /** How `getClaimableAmount(address, phaseId)` ends: the amount and then the phase
      query, or an exception. */
  datatype ClaimableQuery = ClaimableThrows | Claimable(amount: int, phase: PhaseQuery)

  /** The mintable amount the button settles on: zero when the amount cannot be read or
      the phase is inactive (status 0), and the amount read otherwise, even when the
      phase itself cannot be read. */
  function MintableFromQuery(q: ClaimableQuery): (r: int)
    ensures q.ClaimableThrows? ==> r == 0
    ensures q.Claimable? && q.phase == PhaseStatus(0) ==> r == 0
    ensures q.Claimable? && q.phase != PhaseStatus(0) ==> r == q.amount
  {
    match q
    case ClaimableThrows => 0
    case Claimable(amount, phase) =>
      if phase.PhaseStatus? && phase.status == 0 then 0 else amount
  }

  /** What a click on the button does. */
  datatype ClaimAction =
    /** No signer on iOS outside the MetaMask browser: the deep link helper runs. */
    | DeepLinkOpened(outcome: Outcome)
    /** No signer otherwise: an alert. */
    | AlertShown(message: Message)
    /** `claimReward(phaseId, amount)` is sent. */
    | ClaimReward(phaseId: int, amount: int)

  /** `p` and `num` sit where they were put in `a + num + b + p + c`. */
  lemma PhraseParts(a: string, num: string, b: string, p: string, c: string)
    ensures OccursAt(a + num + b + p + c, num, |a|)
    ensures OccursAt(a + num + b + p + c, p, |a| + |num| + |b|)
  {
    var s := a + num + b + p + c;
    assert s[|a|..|a| + |num|] == num;
    assert s[|a| + |num| + |b|..|a| + |num| + |b| + |p|] == p;
  }

  class ClaimButtonState {
    var loading: bool
    var isClient: bool
    var loadingText: Message
    var pendingTx: Option<string>
    var errorMessage: Option<Message>
    var mintAmount: int
    var mintableAmount: int

    constructor()
      ensures !loading && !isClient && loadingText == Literal("") && pendingTx == None
      ensures errorMessage == None && mintAmount == 1 && mintableAmount == 0
    {
      loading := false;
      isClient := false;
      loadingText := Literal("");
      pendingTx := None;
      errorMessage := None;
      mintAmount := 1;
      mintableAmount := 0;
    }

    /** The mount effect. */
    method Mount()
      modifies this
      ensures isClient && loadingText == Key("claim.processingClaim")
      ensures loading == old(loading) && pendingTx == old(pendingTx) && errorMessage == old(errorMessage)
      ensures mintAmount == old(mintAmount) && mintableAmount == old(mintableAmount)
    {
      isClient := true;
      loadingText := Key("claim.processingClaim");
    }

    /** `getMintableAmount`: nothing without a signer; otherwise the amount read, reset
        to zero for an inactive phase or a failed read. */
    method GetMintableAmount(hasSigner: bool, q: ClaimableQuery)
      modifies this
      ensures !hasSigner ==> mintableAmount == old(mintableAmount)
      ensures hasSigner ==> mintableAmount == MintableFromQuery(q)
      ensures loading == old(loading) && isClient == old(isClient) && loadingText == old(loadingText)
      ensures pendingTx == old(pendingTx) && errorMessage == old(errorMessage) && mintAmount == old(mintAmount)
    {
      if !hasSigner {
        return;
      }
      match q {
        case ClaimableThrows =>
          mintableAmount := 0;
        case Claimable(amount, phase) =>
          mintableAmount := amount;
          match phase {
            case PhaseThrows =>
            case PhaseStatus(status) =>
              if status == 0 {
                mintableAmount := 0;
              }
          }
      }
    }

    /** `claimNFT`: without a signer, the deep link on iOS outside MetaMask and an alert
        elsewhere, with no state change; with one, `claimReward` for the picked amount,
        then the pending hash or a classified error. */
    method ClaimNft(hasSigner: bool, navigator: Option<string>, window: Option<Location>, phaseId: int,
                    outcome: SubmitOutcome) returns (action: ClaimAction)
      modifies this
      ensures !hasSigner ==>
        loading == old(loading) && errorMessage == old(errorMessage) && pendingTx == old(pendingTx)
      ensures !hasSigner && IsMobile(navigator) && IsIos(navigator) && !IsMetaMaskBrowser(navigator) ==>
        action == DeepLinkOpened(OpenMetaMaskDeepLink(window, navigator))
      ensures !hasSigner && !(IsMobile(navigator) && IsIos(navigator) && !IsMetaMaskBrowser(navigator)) ==>
        action == AlertShown(Key("burn.walletNotConnected"))
      ensures hasSigner ==> action == ClaimReward(phaseId, old(mintAmount))
      ensures hasSigner && outcome.Sent? ==>
        pendingTx == Some(outcome.hash) && loading && errorMessage == None
      ensures hasSigner && outcome.SubmitThrows? ==>
        pendingTx == old(pendingTx) && !loading && errorMessage == Some(Key(Classify(ClaimRules, outcome.message)))
      ensures isClient == old(isClient) && loadingText == old(loadingText)
      ensures mintAmount == old(mintAmount) && mintableAmount == old(mintableAmount)
    {
      if !hasSigner {
        if IsMobile(navigator) && IsIos(navigator) && !IsMetaMaskBrowser(navigator) {
          return DeepLinkOpened(OpenMetaMaskDeepLink(window, navigator));
        }
        return AlertShown(Key("burn.walletNotConnected"));
      }
      loading := true;
      errorMessage := None;
      var claimAmount := mintAmount;
      action := ClaimReward(phaseId, claimAmount);
      match outcome {
        case Sent(hash) =>
          pendingTx := Some(hash);
        case SubmitThrows(message) =>
          errorMessage := Some(Key(Classify(ClaimRules, message)));
          loading := false;
      }
    }

    /** The monitor effect, as for the burn button but with the claim texts; the
        returned hash is passed to `setClaimTxHash`. */
    method MonitorTransaction(hasSigner: bool, hasProvider: bool, outcome: WaitOutcome, subscribed: bool)
      returns (confirmed: Option<string>)
      modifies this
      ensures old(pendingTx).None? || old(pendingTx) == Some("") || !hasSigner ==>
        confirmed == None && pendingTx == old(pendingTx) && loading == old(loading) &&
        errorMessage == old(errorMessage) && loadingText == old(loadingText)
      ensures old(pendingTx).Some? && old(pendingTx).value != "" && hasSigner ==>
        var m := Monitor(old(pendingTx).value, hasProvider, outcome, subscribed);
        confirmed == m.confirmed &&
        errorMessage == (if m.error.Some? then Some(Key(m.error.value)) else old(errorMessage)) &&
        pendingTx == (if m.settle then None else old(pendingTx)) &&
        loading == (if m.settle then false else old(loading)) &&
        loadingText == (if m.settle then Key("claim.processingClaim") else Key("claim.transactionConfirming"))
      ensures isClient == old(isClient) && mintAmount == old(mintAmount) && mintableAmount == old(mintableAmount)
    {
      confirmed := None;
      if pendingTx.None? || pendingTx.value == "" || !hasSigner {
        return;
      }
      var tx := pendingTx.value;
      loadingText := Key("claim.transactionConfirming");
      if hasProvider {
        match outcome {
          case WaitThrows =>
            errorMessage := Some(Key("errors.transaction.monitoring"));
          case Mined(status) =>
            if subscribed {
              if status == Some(1) {
                confirmed := Some(tx);
              } else {
                errorMessage := Some(Key("errors.transaction.failed"));
              }
            }
        }
      }
      if !hasProvider || subscribed {
        pendingTx := None;
        loading := false;
        loadingText := Key("claim.processingClaim");
      }
    }

    /** The upper bound handed to the picker: the mintable amount, capped at 10. */
    function PickerMax(): (r: int)
      reads this
      ensures r <= 10 && (r == mintableAmount || r == 10)
      ensures mintableAmount <= 10 ==> r == mintableAmount
    {
      if mintableAmount < 10 then mintableAmount else 10
    }

    /** The picker is shown only for two or more claimable NFTs, and not while a claim
        is under way. */
    predicate ShowPicker()
      reads this
    {
      mintableAmount > 1 && !loading && (pendingTx.None? || pendingTx.value == "")
    }

    /** Whenever the picker is shown its bound allows at least two. */
    lemma PickerAllowsTwo()
      requires ShowPicker()
      ensures 2 <= PickerMax() <= 10
    {
    }

    /** The picker's "+" button. */
    method StepUp()
      modifies this
      ensures mintAmount == Quantity.Increment(old(mintAmount), old(PickerMax()))
      ensures mintableAmount == old(mintableAmount) && loading == old(loading) && pendingTx == old(pendingTx)
      ensures errorMessage == old(errorMessage) && isClient == old(isClient) && loadingText == old(loadingText)
    {
      mintAmount := Quantity.Increment(mintAmount, PickerMax());
    }

    /** The picker's "-" button. */
    method StepDown()
      modifies this
      ensures mintAmount == Quantity.Decrement(old(mintAmount))
      ensures mintableAmount == old(mintableAmount) && loading == old(loading) && pendingTx == old(pendingTx)
      ensures errorMessage == old(errorMessage) && isClient == old(isClient) && loadingText == old(loadingText)
    {
      mintAmount := Quantity.Decrement(mintAmount);
    }

    /** The picker's slider, whose value is taken as it comes. */
    method SlideTo(value: int)
      modifies this
      ensures mintAmount == value
      ensures mintableAmount == old(mintableAmount) && loading == old(loading) && pendingTx == old(pendingTx)
      ensures errorMessage == old(errorMessage) && isClient == old(isClient) && loadingText == old(loadingText)
    {
      mintAmount := value;
    }

    /** `getClaimButtonText`: the loading text while loading; otherwise the picked
        amount and the premium NFT name, with an English plural "s" exactly for more
        than one. */
    function ButtonText(lang: Lang): (m: Message)
      reads this
      ensures loading ==> m == loadingText
      ensures !loading ==> m.Literal? && |m.text| > 0
      ensures !loading && lang == En ==>
        OccursAt(m.text, IntToString(mintAmount), |"Claim "|) &&
        OccursAt(m.text, Prefix(lang, Premium), |"Claim "| + |IntToString(mintAmount)| + 1) &&
        (m.text[|m.text| - 1] == 's' <==> mintAmount > 1)
      ensures !loading && lang == Ja ==>
        OccursAt(m.text, IntToString(mintAmount), 0) &&
        OccursAt(m.text, Prefix(lang, Premium), |IntToString(mintAmount)| + |"個の"|)
    {
      if loading then loadingText
      else
        var premiumNftName := Prefix(lang, Premium);
        var n := IntToString(mintAmount);
        if lang == Ja then
          PhraseParts("", n, "個の", premiumNftName, "をクレーム");
          assert "" + n == n;
          Literal(n + "個の" + premiumNftName + "をクレーム")
        else
          var plural := if mintAmount > 1 then "s" else "";
          PhraseParts("Claim ", n, " ", premiumNftName, plural);
          Literal("Claim " + n + " " + premiumNftName + plural)
    }

    /** Nothing is rendered before the mount effect has run. */
    function Renders(): (r: bool)
      reads this
      ensures r <==> isClient
    {
      isClient
    }
  }
}
