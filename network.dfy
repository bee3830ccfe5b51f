/** config/network.ts: the two supported networks, the contract configuration of each,
    the mutable choice of the current network, and the getters derived from it. */
module Network {
  import opened Optional

  datatype NetworkType = EthereumMainnet | SepoliaTestnet

  /** An entry of `NETWORKS`. */
  datatype Chain = Chain(name: string, symbol: string, id: nat, blockExplorer: string, rpcUrl: string)

  /** An entry of `CONTRACT_CONFIGS`; the token ids are optional fields. */
  datatype ContractConfig = ContractConfig(burnAddress: string, burnTokenIds: Option<seq<nat>>,
                                           mintAddress: string, mintTokenId: Option<nat>)

  function Networks(n: NetworkType): Chain {
    match n
    case EthereumMainnet =>
      Chain("Ethereum", "ETH", 1, "https://etherscan.io", "https://eth-mainnet.public.blastapi.io")
    case SepoliaTestnet =>
      Chain("Sepolia", "ETH", 11155111, "https://sepolia.etherscan.io", "https://eth-sepolia.public.blastapi.io")
  }

  function ContractConfigs(n: NetworkType): ContractConfig {
    match n
    case EthereumMainnet => ContractConfig("0x123abc...", None, "0xdef456...", None)
    case SepoliaTestnet =>
      ContractConfig("0xf083F9bc026DaFC7E5AFeab5CB576f9464c5553A", Some([1, 2, 3]),
                     "0xCCd4617030401d0C7BFB5594E45fDbE88146EAFA", Some(2))
  }

  /** The two networks have distinct chain ids, so a chain id names a network. */
  lemma ChainIdsIdentifyNetworks(m: NetworkType, n: NetworkType)
    ensures Networks(m).id == Networks(n).id <==> m == n
  {
  }

  /** `CURRENT_CONFIG`: the module-level record whose `NETWORK` field `setNetwork`
      overwrites. Every getter below reads it, so callers pass `network` to them. */
  class CurrentConfig {
    var network: NetworkType

    /** The configured starting network is Sepolia. */
    constructor()
      ensures network == SepoliaTestnet
    {
      network := SepoliaTestnet;
    }

    /** `setNetwork`: switches the current network and returns its entry. */
    method SetNetwork(n: NetworkType) returns (r: Chain)
      modifies this
      ensures network == n && r == Networks(n)
      ensures CurrentChainId(network) == r.id && ExplorerUrl(network) == r.blockExplorer
    {
      network := n;
      r := CurrentNetwork(network);
    }

    method SetToMainnet() returns (r: Chain)
      modifies this
      ensures network == EthereumMainnet && r == Networks(EthereumMainnet) && r.id == 1
    {
      r := SetNetwork(EthereumMainnet);
    }

    method SetToSepolia() returns (r: Chain)
      modifies this
      ensures network == SepoliaTestnet && r == Networks(SepoliaTestnet) && r.id == 11155111
    {
      r := SetNetwork(SepoliaTestnet);
    }
  }

  // ----- getters over the current network -----

  function CurrentChainId(current: NetworkType): nat {
    Networks(current).id
  }

  function CurrentNetwork(current: NetworkType): Chain {
    Networks(current)
  }

  function CurrentChainConfig(current: NetworkType): Chain {
    Networks(current)
  }

  function CurrentContractConfig(current: NetworkType): ContractConfig {
    ContractConfigs(current)
  }

  function ExplorerUrl(current: NetworkType): string {
    Networks(current).blockExplorer
  }

  /** `getTransactionUrl`: the explorer, `/tx/`, then the hash as given. */
  function TransactionUrl(current: NetworkType, txHash: string): (r: string)
    ensures |r| == |ExplorerUrl(current)| + 4 + |txHash|
    ensures r[..|ExplorerUrl(current)|] == ExplorerUrl(current)
    ensures r[|ExplorerUrl(current)|..|ExplorerUrl(current)| + 4] == "/tx/"
    ensures r[|ExplorerUrl(current)| + 4..] == txHash
  {
    ExplorerUrl(current) + "/tx/" + txHash
  }

  /** Distinct hashes give distinct links. */
  lemma TransactionUrlInjective(current: NetworkType, h1: string, h2: string)
    requires TransactionUrl(current, h1) == TransactionUrl(current, h2)
    ensures h1 == h2
  {
    var e := |ExplorerUrl(current)| + 4;
    assert h1 == TransactionUrl(current, h1)[e..];
  }

  function BurnContractAddress(current: NetworkType): string {
    ContractConfigs(current).burnAddress
  }

  function MintContractAddress(current: NetworkType): string {
    ContractConfigs(current).mintAddress
  }

  /** `getBurnTokenIds`: the configured ids, or none when the field is absent. */
  function BurnTokenIds(current: NetworkType): (r: seq<nat>)
    ensures current == EthereumMainnet ==> r == []
    ensures current == SepoliaTestnet ==> r == [1, 2, 3]
  {
    match ContractConfigs(current).burnTokenIds
    case Some(ids) => ids
    case None => []
  }

  /** `getMintTokenId`: the configured id, `undefined` on mainnet. */
  function MintTokenId(current: NetworkType): (r: Option<nat>)
    ensures current == EthereumMainnet <==> r.None?
    ensures current == SepoliaTestnet ==> r == Some(2)
  {
    ContractConfigs(current).mintTokenId
  }

  // ----- the `networkConfig` object: the same data keyed by chain id -----

  function ConfigChainId(current: NetworkType): nat {
    Networks(current).id
  }

  /** `networkConfig.explorers`, a record indexed by chain id. */
  function ExplorersByChainId(chainId: nat): Option<string> {
    if chainId == 1 then Some(Networks(EthereumMainnet).blockExplorer)
    else if chainId == 11155111 then Some(Networks(SepoliaTestnet).blockExplorer)
    else None
  }

  /** `networkConfig.contracts`, a record indexed by chain id. */
  function ContractsByChainId(chainId: nat): Option<ContractConfig> {
    if chainId == 1 then Some(ContractConfigs(EthereumMainnet))
    else if chainId == 11155111 then Some(ContractConfigs(SepoliaTestnet))
    else None
  }

  /** `networkConfig.getExplorerUrl()`: looks the explorer up by the current chain id. */
  function ConfigExplorerUrl(current: NetworkType): (r: Option<string>)
    ensures r == Some(ExplorerUrl(current))
  {
    ExplorersByChainId(ConfigChainId(current))
  }

  /** `networkConfig.getContractConfig()`: looks the contracts up by the current chain id. */
  function ConfigContractConfig(current: NetworkType): (r: Option<ContractConfig>)
    ensures r == Some(CurrentContractConfig(current))
  {
    ContractsByChainId(ConfigChainId(current))
  }

  /** The three ways of reading the chain id agree on both networks. */
  lemma ChainIdGettersAgree(current: NetworkType)
    ensures ConfigChainId(current) == CurrentChainId(current) == CurrentChainConfig(current).id
    ensures current == SepoliaTestnet ==> CurrentChainId(current) == 11155111
    ensures current == EthereumMainnet ==> CurrentChainId(current) == 1
  {
  }
}
