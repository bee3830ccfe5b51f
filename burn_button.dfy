/** components/burn/BurnButton.tsx: the burn button. It burns exactly five selected
    NFTs through `burnTokens(phaseId, amount)`, maps revert messages to message keys,
    and watches the submitted transaction until it is mined. */
module BurnButton {
  import opened Optional
  import opened Strings
  import opened Language
  import opened Metadata
  import opened NftTypes
  import opened TxMonitor
  import opened DeviceDetection
  import opened WalletConnection
  import opened WalletConnectButton
  import opened NetworkSwitch

  /** The `selectedNFTs` prop, declared as a record from token id to count, as its
      entries in key order. */
  type SelectedCounts = seq<(nat, int)>

  /** `Object.values(selectedNFTs)`. */
  function Values(selected: SelectedCounts): (r: seq<int>)
    ensures |r| == |selected| && forall i :: 0 <= i < |r| ==> r[i] == selected[i].1
  {
    seq(|selected|, i requires 0 <= i < |selected| => selected[i].1)
  }

  /** The number of NFTs selected: the sum of the counts. */
  function TotalSelected(selected: SelectedCounts): int {
    Sum(Values(selected))
  }

  /** The contract call a click issues. */
  datatype BurnCall = BurnTokens(phaseId: int, amount: int)

  /** The revert reasons the burn button recognises. */
  const BurnRules: ErrorRules :=
    ErrorRules("Must burn in multiples of 5", "errors.burn.multipleOfFive",
               "Not token owner", "errors.burn.notOwner", "burn.errorMessage")

  /** One entry of the contract interface. */
  datatype Fragment = Fragment(kind: string, name: string)

  /** `checkContractType`'s test: some function of the interface is named `burnNFT`. */
  predicate HasBurnNft(fragments: seq<Fragment>) {
    exists i :: 0 <= i < |fragments| && fragments[i].kind == "function" && fragments[i].name == "burnNFT"
  }

  /** Which of the four branches the button renders. */
  datatype BurnView =
    | ConnectWallet
    | SwitchNetwork(switchText: Message)
    /** The disabled button; `progress` is the "(n/5)" text, shown only for n > 0. */
    | NeedFive(progress: Option<string>)
    | Active(errorBox: Option<Message>)

  class BurnButtonState {
    var isLoading: bool
    var errorMessage: Option<Message>
    var isBurnNftA: Option<bool>
    var loadingText: Message
    var pendingTx: Option<string>

    constructor()
      ensures !isLoading && errorMessage == None && isBurnNftA == None
      ensures loadingText == Literal("") && pendingTx == None
    {
      isLoading := false;
      errorMessage := None;
      isBurnNftA := None;
      loadingText := Literal("");
      pendingTx := None;
    }

    /** The effect that sets the idle loading text. */
    method InitLoadingText()
      modifies this
      ensures loadingText == Key("burn.processingBurn")
      ensures isLoading == old(isLoading) && errorMessage == old(errorMessage) && pendingTx == old(pendingTx)
      ensures isBurnNftA == old(isBurnNftA)
    {
      loadingText := Key("burn.processingBurn");
    }

    /** `checkContractType`: without a signer nothing happens; a failure to read the
        interface (`None`) is only logged. */
    method CheckContractType(hasSigner: bool, fragments: Option<seq<Fragment>>)
      modifies this
      ensures hasSigner && fragments.Some? ==> isBurnNftA == Some(HasBurnNft(fragments.value))
      ensures !hasSigner || fragments.None? ==> isBurnNftA == old(isBurnNftA)
      ensures isLoading == old(isLoading) && errorMessage == old(errorMessage) && pendingTx == old(pendingTx)
      ensures loadingText == old(loadingText)
    {
      if !hasSigner {
        return;
      }
      match fragments {
        case Some(fs) =>
          isBurnNftA := Some(HasBurnNft(fs));
        case None =>
      }
    }

    /** `handleBurn`: nothing unless the counts add up to five; then the same
        `burnTokens(phaseId, 5)` call whichever contract type was detected, and either
        the pending hash or a classified error. */
    method HandleBurn(selected: SelectedCounts, phaseId: int, outcome: SubmitOutcome) returns (call: Option<BurnCall>)
      modifies this
      ensures TotalSelected(selected) != 5 ==>
        call == None && isLoading == old(isLoading) && errorMessage == old(errorMessage) &&
        pendingTx == old(pendingTx)
      ensures TotalSelected(selected) == 5 ==> call == Some(BurnTokens(phaseId, 5))
      ensures TotalSelected(selected) == 5 && outcome.Sent? ==>
        pendingTx == Some(outcome.hash) && isLoading && errorMessage == None
      ensures TotalSelected(selected) == 5 && outcome.SubmitThrows? ==>
        pendingTx == old(pendingTx) && !isLoading &&
        errorMessage == Some(Key(Classify(BurnRules, outcome.message)))
      ensures isBurnNftA == old(isBurnNftA) && loadingText == old(loadingText)
    {
      var totalSelected := Sum(Values(selected));
      if totalSelected != 5 {
        return None;
      }
      isLoading := true;
      errorMessage := None;
      var burnAmount := Sum(Values(selected));
      if isBurnNftA == Some(true) {
        call := Some(BurnTokens(phaseId, burnAmount));
      } else {
        call := Some(BurnTokens(phaseId, burnAmount));
      }
      match outcome {
        case Sent(hash) =>
          pendingTx := Some(hash);
        case SubmitThrows(message) =>
          errorMessage := Some(Key(Classify(BurnRules, message)));
          isLoading := false;
      }
    }

    /** The monitor effect for the current `pendingTx`: nothing without a truthy (non-empty)
        pending hash or a signer; otherwise the confirming text, then what `Monitor`
        prescribes. The returned hash is passed to `setBurnTxHash`. */
    method MonitorTransaction(hasSigner: bool, hasProvider: bool, outcome: WaitOutcome, subscribed: bool)
      returns (confirmed: Option<string>)
      modifies this
      ensures old(pendingTx).None? || old(pendingTx) == Some("") || !hasSigner ==>
        confirmed == None && pendingTx == old(pendingTx) && isLoading == old(isLoading) &&
        errorMessage == old(errorMessage) && loadingText == old(loadingText)
      ensures old(pendingTx).Some? && old(pendingTx).value != "" && hasSigner ==>
        var m := Monitor(old(pendingTx).value, hasProvider, outcome, subscribed);
        confirmed == m.confirmed &&
        errorMessage == (if m.error.Some? then Some(Key(m.error.value)) else old(errorMessage)) &&
        pendingTx == (if m.settle then None else old(pendingTx)) &&
        isLoading == (if m.settle then false else old(isLoading)) &&
        loadingText == (if m.settle then Key("burn.processingBurn") else Key("burn.transactionConfirming"))
      ensures isBurnNftA == old(isBurnNftA)
    {
      confirmed := None;
      if pendingTx.None? || pendingTx.value == "" || !hasSigner {
        return;
      }
      var tx := pendingTx.value;
      loadingText := Key("burn.transactionConfirming");
      if hasProvider {
        match outcome {
          case WaitThrows =>
            errorMessage := Some(Key("errors.transaction.monitoring"));
          case Mined(status) =>
            if subscribed {
              if status == Some(1) {
                confirmed := Some(tx);
              } else {
                errorMessage := Some(Key("errors.transaction.failed"));
              }
            }
        }
      }
      if !hasProvider || subscribed {
        pendingTx := None;
        isLoading := false;
        loadingText := Key("burn.processingBurn");
      }
    }

    /** `getBurnButtonText`: the loading text while loading, otherwise "Burn 5 ...". */
    function ButtonText(lang: Lang): (m: Message)
      reads this
      ensures isLoading ==> m == loadingText
      ensures !isLoading ==> m.Literal?
      ensures !isLoading && lang == En ==> OccursAt(m.text, Prefix(lang, Burn), |"Burn 5 "|)
      ensures !isLoading && lang == Ja ==> OccursAt(m.text, Prefix(lang, Burn), |"5つの"|)
    {
      if isLoading then loadingText
      else
        var burnNftName := Prefix(lang, Burn);
        if lang == Ja then
          OccursAtJoin("5つの", burnNftName, "をバーン");
          Literal("5つの" + burnNftName + "をバーン")
        else
          OccursAtJoin("Burn 5 ", burnNftName, "s");
          Literal("Burn 5 " + burnNftName + "s")
    }

    /** The render branches, in order: connect, switch network, the disabled
        "select five" button, and the active button, which alone shows the error box. */
    function View(isConnected: bool, chainId: nat, expectedChainId: nat, isSwitchPending: bool,
                  selected: SelectedCounts): (v: BurnView)
      reads this
      ensures v.ConnectWallet? <==> !isConnected
      ensures v.SwitchNetwork? <==> isConnected && chainId != expectedChainId
      ensures v.SwitchNetwork? ==>
        v.switchText == (if isSwitchPending then Key("burn.switchNetwork") else WrongNetworkMessage(expectedChainId))
      ensures v.NeedFive? <==> isConnected && chainId == expectedChainId && TotalSelected(selected) != 5
      ensures v.NeedFive? ==> (v.progress.Some? <==> TotalSelected(selected) > 0)
      ensures v.NeedFive? && v.progress.Some? ==> v.progress.value == "(" + IntToString(TotalSelected(selected)) + "/5)"
      ensures v.Active? <==> isConnected && chainId == expectedChainId && TotalSelected(selected) == 5
      ensures v.Active? ==> v.errorBox == errorMessage
    {
      if !isConnected then ConnectWallet
      else if chainId != expectedChainId then
        SwitchNetwork(if isSwitchPending then Key("burn.switchNetwork") else WrongNetworkMessage(expectedChainId))
      else
        var selectedCount := TotalSelected(selected);
        if selectedCount != 5 then
          NeedFive(if selectedCount > 0 then Some("(" + IntToString(selectedCount) + "/5)") else None)
        else Active(errorMessage)
    }
  }

  /** `handleConnectWallet`: the device test runs on every click; on iOS outside the
      MetaMask browser the page goes to the deep link, otherwise the first connector is
      used, with no parent callback. */
  function HandleConnectWallet(navigator: Option<string>, location: Location, connectorCount: nat): (a: ConnectAction)
    ensures a.Navigate? <==> IsIos(navigator) && !IsMetaMaskBrowser(navigator)
    ensures a.Navigate? ==> a.url == DeepLink(location)
    ensures a.Connect? <==> !a.Navigate? && connectorCount > 0
    ensures a.Connect? ==> !a.notifyParent
  {
    DeepLinkRuleIsIosOutsideMetaMask(navigator);
    if IsMobile(navigator) && IsIos(navigator) && !IsMetaMaskBrowser(navigator) then Navigate(DeepLink(location))
    else if connectorCount > 0 then Connect(false)
    else NoAction
  }

  // ----- the selection the home page actually passes -----

  /** What the home page passes: its `number[]` of selected ids. `Object.values` of an
      array is its elements, so read as a record it pairs each index with an id. */
  function ArrayAsRecord(ids: seq<nat>): (r: SelectedCounts)
    ensures |r| == |ids| && forall i :: 0 <= i < |ids| ==> r[i] == (i, ids[i] as int)
  {
    seq(|ids|, i requires 0 <= i < |ids| => (i, ids[i] as int))
  }

  /** As written, the "count" is the sum of the selected token ids. */
  lemma ArrayTotalIsIdSum(ids: seq<nat>)
    ensures TotalSelected(ArrayAsRecord(ids)) == Sum(ids)
  {
    assert Values(ArrayAsRecord(ids)) == ids;
  }

  /** Two inputs that show it: five NFTs #1..#5 sum to 15, so the button stays disabled
      and `handleBurn` returns; the single NFT #5 sums to 5, so the active button shows
      and a burn of five is sent. */
  lemma ArraySelectionMiscounts()
    ensures TotalSelected(ArrayAsRecord([1, 2, 3, 4, 5])) == 15
    ensures TotalSelected(ArrayAsRecord([5])) == 5
  {
    ArrayTotalIsIdSum([1, 2, 3, 4, 5]);
    ArrayTotalIsIdSum([5]);
    assert [1, 2, 3, 4, 5][..4] == [1, 2, 3, 4];
    assert [1, 2, 3, 4][..3] == [1, 2, 3];
    assert [1, 2, 3][..2] == [1, 2];
    assert [1, 2][..1] == [1];
    assert [5][..0] == [];
  }

  /** The record the prop's type describes: each selected id with a count of one. */
  function SelectionCounts(ids: seq<nat>): (r: SelectedCounts)
    ensures |r| == |ids| && forall i :: 0 <= i < |ids| ==> r[i] == (ids[i], 1)
  {
    seq(|ids|, i requires 0 <= i < |ids| => (ids[i], 1))
  }

  function Ones(n: nat): (r: seq<int>)
    ensures |r| == n && forall i :: 0 <= i < n ==> r[i] == 1
  {
    seq(n, i => 1)
  }

  lemma {:induction false} SumOnes(n: nat)
    ensures Sum(Ones(n)) == n
  {
    if n > 0 {
      assert Ones(n)[..n - 1] == Ones(n - 1);
      SumOnes(n - 1);
    }
  }

  /** With the counts record, the total is the number of ids selected, so the burn goes
      ahead exactly when five NFTs are selected. */
  lemma SelectionCountsTotal(ids: seq<nat>)
    ensures TotalSelected(SelectionCounts(ids)) == |ids|
    ensures TotalSelected(SelectionCounts(ids)) == 5 <==> |ids| == 5
  {
    assert Values(SelectionCounts(ids)) == Ones(|ids|);
    SumOnes(|ids|);
  }
}
