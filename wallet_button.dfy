/** components/wallet/WalletConnectButton.tsx: the connect button, which on iOS outside
    the MetaMask browser offers the MetaMask deep link instead of a wallet connector. */
module WalletConnectButton {
  import opened Optional
  import opened Language
  import opened DeviceDetection
  import opened WalletConnection

  /** The environment rule of the mount effect. */
  predicate DeepLinkRule(navigator: Option<string>) {
    IsMobile(navigator) && IsIos(navigator) && !IsMetaMaskBrowser(navigator)
  }

  /** The mobile test is implied by the iOS test, so the rule is the one
      `openMetaMaskDeepLink` applies. */
  lemma DeepLinkRuleIsIosOutsideMetaMask(navigator: Option<string>)
    ensures DeepLinkRule(navigator) <==> IsIos(navigator) && !IsMetaMaskBrowser(navigator)
  {
    IosIsMobile(navigator);
  }

  /** What a click does. */
  datatype ConnectAction =
    | NoAction
    | Navigate(url: string)
    /** `connect` with the first connector, then `onConnect` when one was passed. */
    | Connect(notifyParent: bool)

  class ConnectButton {
    var mounted: bool
    var showDeepLink: bool

    constructor()
      ensures !mounted && !showDeepLink
    {
      mounted := false;
      showDeepLink := false;
    }

    /** The mount effect. */
    method Mount(navigator: Option<string>)
      modifies this
      ensures mounted
      ensures showDeepLink <==> DeepLinkRule(navigator)
    {
      mounted := true;
      if IsMobile(navigator) && IsIos(navigator) && !IsMetaMaskBrowser(navigator) {
        showDeepLink := true;
      } else {
        showDeepLink := false;
      }
    }

    /** `handleConnect`: nothing before mount; the deep link in deep-link mode, with
        no connection; otherwise the first connector, when there is one. */
    method HandleConnect(location: Location, connectorCount: nat, hasOnConnect: bool)
      returns (action: ConnectAction)
      ensures !mounted ==> action == NoAction
      ensures mounted && showDeepLink ==> action == Navigate(DeepLink(location))
      ensures mounted && !showDeepLink ==> (action.Connect? <==> connectorCount > 0)
      ensures mounted && !showDeepLink ==> !action.Navigate?
      ensures action.Connect? ==> action.notifyParent == hasOnConnect
    {
      if !mounted {
        return NoAction;
      }
      if showDeepLink {
        return Navigate(DeepLink(location));
      }
      if connectorCount > 0 {
        return Connect(hasOnConnect);
      }
      return NoAction;
    }

    /** The button is rendered only after mount and while disconnected. */
    function Renders(isConnected: bool): (r: bool)
      reads this
      ensures r <==> mounted && !isConnected
    {
      mounted && !isConnected
    }

    /** `getButtonText`: pending first, then the deep-link text, then the translation
        of `header.connectWallet` with its literal fallback. */
    function Label(lang: Lang, isPending: bool): (m: Message)
      reads this
      ensures isPending ==> m.Literal? && (m.text == "Connecting..." <==> lang == En)
      ensures !isPending && showDeepLink ==> m.Literal? && (m.text == "Open in MetaMask" <==> lang == En)
      ensures !isPending && !showDeepLink ==> m == KeyOr("header.connectWallet", "Connect Wallet")
    {
      if isPending then Literal(if lang == Ja then "接続中..." else "Connecting...")
      else if showDeepLink then Literal(if lang == Ja then "MetaMaskで開く" else "Open in MetaMask")
      else KeyOr("header.connectWallet", "Connect Wallet")
    }
  }
}
