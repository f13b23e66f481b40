/** The deployment constants of the token (`TOKEN_CONFIG`), the per-chain deployment
    settings (`NETWORK_CONFIG`) and the two helpers exported beside them. Amounts are in
    base units (wei-like, 18 decimals); gas prices are in wei. */
module ContractConstants {
  import opened JsText

  const Wei: nat := 1_000_000_000_000_000_000
  const Gwei: nat := 1_000_000_000

  const TokenName: string := "Amazon Coin"
  const TokenSymbol: string := "AC"
  const TokenDecimals: nat := 18
  /** `parseEther("1000000000")`: one billion whole tokens. */
  const MaxSupply: nat := 1_000_000_000 * Wei
  /** `parseEther("0.0001")`. */
  const InitialExchangeRate: nat := 100_000_000_000_000
  const InitialSupplyPercentage: nat := 10

  /** The share of `MaxSupply` issued to the deployer at construction. */
  function InitialSupply(): (s: nat)
    ensures s * 100 == MaxSupply * InitialSupplyPercentage
    ensures s == MaxSupply / 10
  {
    MaxSupply * InitialSupplyPercentage / 100
  }

  datatype ChainSettings = ChainSettings(name: string, gasPrice: nat, gasLimit: nat, confirmations: nat)

  const NetworkConfig: map<int, ChainSettings> := map[
    1 := ChainSettings("mainnet", 20 * Gwei, 8_000_000, 2),
    5 := ChainSettings("goerli", 10 * Gwei, 8_000_000, 1),
    11155111 := ChainSettings("sepolia", 10 * Gwei, 8_000_000, 1),
    137 := ChainSettings("polygon", 30 * Gwei, 8_000_000, 2),
    80001 := ChainSettings("mumbai", 10 * Gwei, 8_000_000, 1),
    295 := ChainSettings("hedera", 10 * Gwei, 8_000_000, 1),
    296 := ChainSettings("hederaTestnet", 10 * Gwei, 8_000_000, 1),
    297 := ChainSettings("hederaPreviewnet", 10 * Gwei, 8_000_000, 1),
    31337 := ChainSettings("hardhat", 1 * Gwei, 8_000_000, 1)
  ]

  /** The hardhat entry stands in for every chain id the table does not list.
      Table entries are objects, hence always truthy, so `||` never hides one. */
  function GetNetworkConfig(chainId: int): (c: ChainSettings)
    ensures chainId in NetworkConfig ==> c == NetworkConfig[chainId]
    ensures chainId !in NetworkConfig ==> c == NetworkConfig[31337] && c.name == "hardhat"
  {
    Lookup(NetworkConfig, chainId).GetOr(NetworkConfig[31337])
  }

  /** The placeholder validator: it only logs and always reports success. */
  function ValidateConfig(): (ok: bool)
    ensures ok
  {
    true
  }

  lemma NetworkConfigIds()
    ensures NetworkConfig.Keys == {1, 5, 11155111, 137, 80001, 295, 296, 297, 31337}
  {
  }

  /** Every chain gets the same gas limit; only Ethereum and Polygon mainnet wait for two
      confirmations. */
  lemma GasLimitAndConfirmations(chainId: int)
    ensures GetNetworkConfig(chainId).gasLimit == 8_000_000
    ensures GetNetworkConfig(chainId).confirmations == (if chainId == 1 || chainId == 137 then 2 else 1)
  {
  }

  /** The three Hedera chain ids carry the Hedera network names and a 10 gwei gas price. */
  lemma HederaEntries()
    ensures GetNetworkConfig(295) == ChainSettings("hedera", 10 * Gwei, 8_000_000, 1)
    ensures GetNetworkConfig(296) == ChainSettings("hederaTestnet", 10 * Gwei, 8_000_000, 1)
    ensures GetNetworkConfig(297) == ChainSettings("hederaPreviewnet", 10 * Gwei, 8_000_000, 1)
  {
  }
}
