/** The front end's network registry: per-chain contract addresses, pricing and block
    explorers, each looked up with `table[chainId] || table[296]` (Hedera testnet is the
    fallback), the Hedera / Ethereum classifiers and the list of supported networks. */
module AppConstants {
  import opened Wrappers
  import opened JsText
  import ContractConstants

  /** The all-zero address that marks a network as "not deployed yet". */
  const ZeroAddress: string := "0x0000000000000000000000000000000000000000"

  const ContractAddresses: map<int, string> := map[
    296 := "0xd995b5323b1Ec4194D1cb2470a9b6383263CE196",
    295 := ZeroAddress,
    11155111 := "0x1412D9A28bAAC801777581C28060B2C821e61823",
    1 := ZeroAddress,
    31337 := "0x5FbDB2315678afecb367f032d93F642f64180aa3"
  ]

  const TokenDecimals: nat := 18
  const TokenSymbol: string := "AC"
  const TokenName: string := "Amazon Coin"

  /** `CONTRACT_ADDRESSES[chainId] || CONTRACT_ADDRESSES[296]`. */
  function GetContractAddress(chainId: int): (a: string)
    ensures chainId in ContractAddresses ==> a == ContractAddresses[chainId]
    ensures chainId !in ContractAddresses ==> a == ContractAddresses[296]
  {
    OrElse(Lookup(ContractAddresses, chainId), ContractAddresses[296])
  }

  datatype Pricing = Pricing(tokenPrice: string, currency: string, exchangeRate: string)

  const NetworkPricing: map<int, Pricing> := map[
    296 := Pricing("0.1", "HBAR", RateText),
    295 := Pricing("0.1", "HBAR", RateText),
    11155111 := Pricing("0.0001", "ETH", RateText),
    1 := Pricing("0.0001", "ETH", RateText),
    31337 := Pricing("0.0001", "ETH", RateText)
  ]

  /** Pricing records are objects, so `||` falls back only on a missing entry. */
  function GetNetworkPricing(chainId: int): (p: Pricing)
    ensures chainId in NetworkPricing ==> p == NetworkPricing[chainId]
    ensures chainId !in NetworkPricing ==> p == NetworkPricing[296]
  {
    Lookup(NetworkPricing, chainId).GetOr(NetworkPricing[296])
  }

  predicate IsHederaNetwork(chainId: int) {
    chainId == 295 || chainId == 296
  }

  predicate IsEthereumNetwork(chainId: int) {
    chainId == 1 || chainId == 11155111
  }

  const BlockExplorers: map<int, string> := map[
    296 := "https://hashscan.io/testnet",
    295 := "https://hashscan.io/mainnet",
    11155111 := "https://sepolia.etherscan.io",
    1 := "https://etherscan.io",
    31337 := "http://localhost:8545"
  ]

  function GetBlockExplorerUrl(chainId: int): (u: string)
    ensures chainId in BlockExplorers ==> u == BlockExplorers[chainId]
    ensures chainId !in BlockExplorers ==> u == "https://hashscan.io/testnet"
  {
    OrElse(Lookup(BlockExplorers, chainId), BlockExplorers[296])
  }

  /** An entry of `SUPPORTED_NETWORKS`; a flag the source leaves out reads as false. */
  datatype SupportedNetwork = SupportedNetwork(
    chainId: int, name: string, currency: string, kind: string, isHedera: bool, isEthereum: bool)

  const SupportedNetworks: seq<SupportedNetwork> := [
    SupportedNetwork(296, "Hedera Testnet", "HBAR", "testnet", true, false),
    SupportedNetwork(295, "Hedera Mainnet", "HBAR", "mainnet", true, false),
    SupportedNetwork(11155111, "Sepolia Testnet", "ETH", "testnet", false, true),
    SupportedNetwork(1, "Ethereum Mainnet", "ETH", "mainnet", false, true)
  ]

  /** The zero-address entries are returned as they are: the sentinel is a non-empty,
      hence truthy, string, so it never triggers the fallback. */
  lemma SentinelIsNotReplaced()
    ensures GetContractAddress(295) == ZeroAddress
    ensures GetContractAddress(1) == ZeroAddress
    ensures GetContractAddress(42) == ContractAddresses[296] != ZeroAddress
  {
  }

  /** The three tables are keyed by the same five chains. */
  lemma TablesShareKeys()
    ensures ContractAddresses.Keys == NetworkPricing.Keys == BlockExplorers.Keys == {1, 295, 296, 31337, 11155111}
  {
  }

  /** The classifiers are exclusive and the local chain is neither. */
  lemma ClassifiersDisjoint(chainId: int)
    ensures !(IsHederaNetwork(chainId) && IsEthereumNetwork(chainId))
    ensures !IsHederaNetwork(31337) && !IsEthereumNetwork(31337)
  {
  }

  /** Pricing is in HBAR exactly on Hedera chains (including the fallback), and every
      pricing record quotes the contract's initial exchange rate in wei. */
  lemma PricingCurrency(chainId: int)
    ensures GetNetworkPricing(chainId).currency == "HBAR" <==> (IsHederaNetwork(chainId) || chainId !in NetworkPricing)
    ensures GetNetworkPricing(chainId).currency == "ETH" <==> (chainId in NetworkPricing && !IsHederaNetwork(chainId))
    ensures GetNetworkPricing(chainId).exchangeRate == RateText
  {
  }

  /** The decimal text every pricing record quotes. */
  const RateText: string := "100000000000000"

  /** That text is the contract's initial exchange rate, 10^14 wei per whole token. */
  lemma RateTextIsInitialRate()
    ensures AllDigits(RateText)
    ensures DecimalValue(RateText) == ContractConstants.InitialExchangeRate
  {
    assert RateText == "1" + seq(14, _ => '0');
    OneThenZeros(14);
    assert Pow10(14) == 100_000_000_000_000;
  }

  /** The supported list is 296, 295, Sepolia, Ethereum mainnet in that order, leaves out
      the local chain, and its flags agree with the classifiers. */
  lemma SupportedNetworksShape()
    ensures |SupportedNetworks| == 4
    ensures forall i :: 0 <= i < 4 ==> SupportedNetworks[i].chainId == [296, 295, 11155111, 1][i]
    ensures forall n :: n in SupportedNetworks ==> n.chainId != 31337
    ensures forall n :: n in SupportedNetworks ==>
      n.isHedera == IsHederaNetwork(n.chainId) && n.isEthereum == IsEthereumNetwork(n.chainId)
    ensures forall n :: n in SupportedNetworks ==>
      n.currency == (if IsHederaNetwork(n.chainId) then "HBAR" else "ETH") && n.chainId in ContractAddresses
  {
  }
}
