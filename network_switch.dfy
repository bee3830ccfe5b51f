/** components/common/NetworkSwitchHandler.tsx: the alert shown while the wallet is on
    another chain than the configured one, and its switch button. */
module NetworkSwitch {
  import opened Optional
  import opened Language
  import opened Network

  /** `getExpectedNetworkName`: mainnet's name for chain 1, Sepolia's for anything else. */
  function ExpectedNetworkName(expectedChainId: nat): (r: string)
    ensures expectedChainId == 1 ==> r == Networks(EthereumMainnet).name
    ensures expectedChainId != 1 ==> r == Networks(SepoliaTestnet).name
    ensures r == "Ethereum" <==> expectedChainId == 1
  {
    if expectedChainId == 1 then Networks(EthereumMainnet).name else Networks(SepoliaTestnet).name
  }

  /** The configured network's own name is the expected name. */
  lemma ExpectedNameOfConfiguredNetwork(current: NetworkType)
    ensures ExpectedNetworkName(ConfigChainId(current)) == Networks(current).name
  {
  }

  /** What the switch button does. */
  datatype SwitchAction = RequestSwitch(chainId: nat) | AlertText(message: Message)

  /** The wrong-network message, filled with the expected network's name. */
  function WrongNetworkMessage(expectedChainId: nat): Message {
    Formatted("burn.wrongNetwork", [("network", ExpectedNetworkName(expectedChainId))])
  }

  class NetworkSwitchHandler {
    var showAlert: bool

    constructor()
      ensures !showAlert
    {
      showAlert := false;
    }

    /** The mismatch effect. A chain id of 0 is falsy and counts as no chain. */
    method SyncAlert(isConnected: bool, chainId: nat, expectedChainId: nat)
      modifies this
      ensures showAlert <==> isConnected && chainId != 0 && chainId != expectedChainId
    {
      if isConnected && chainId != 0 {
        if chainId != expectedChainId {
          showAlert := true;
        } else {
          showAlert := false;
        }
      } else {
        showAlert := false;
      }
    }

    /** Nothing renders unless the alert is up. */
    function Renders(): (r: bool)
      reads this
      ensures r == showAlert
    {
      showAlert
    }
  }

  /** `handleSwitchNetwork`: asks the wallet for the expected chain when it can switch,
      and otherwise alerts the wrong-network message. */
  function HandleSwitch(hasSwitchChain: bool, expectedChainId: nat): (a: SwitchAction)
    ensures a.RequestSwitch? <==> hasSwitchChain
    ensures a.RequestSwitch? ==> a.chainId == expectedChainId
    ensures a.AlertText? ==> a.message == WrongNetworkMessage(expectedChainId)
  {
    if hasSwitchChain then RequestSwitch(expectedChainId) else AlertText(WrongNetworkMessage(expectedChainId))
  }

  /** The button label: the switching text only while a switch to the expected chain
      is pending, the wrong-network message otherwise. */
  function ButtonLabel(isPending: bool, pendingChainId: Option<nat>, expectedChainId: nat): (m: Message)
    ensures m == Key("burn.switchNetwork") <==> isPending && pendingChainId == Some(expectedChainId)
    ensures m != Key("burn.switchNetwork") ==> m == WrongNetworkMessage(expectedChainId)
  {
    if isPending && pendingChainId.Some? && pendingChainId.value == expectedChainId then Key("burn.switchNetwork")
    else WrongNetworkMessage(expectedChainId)
  }
}
