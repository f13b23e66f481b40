/** The Hardhat `networks` table: a local network with a fixed test mnemonic and nine
    remote networks whose RPC URL and account come from `process.env`. */
module HardhatNetworks {
  import opened Wrappers
  import opened JsText
  import WalletConfig
  import NetworkUtils

  datatype HardhatNetwork = HardhatNetwork(
    url: Option<string>, chainId: int, gas: nat, gasPrice: nat,
    accounts: WalletConfig.Accounts,
    confirmations: Option<nat>, timeoutBlocks: Option<nat>, skipDryRun: Option<bool>)

  /** What varies between the remote entries. */
  datatype RemoteSpec = RemoteSpec(
    rpcVar: string, defaultUrl: string, chainId: int, gasPrice: nat, confirmations: nat, skipDryRun: bool)

  const RemoteSpecs: map<string, RemoteSpec> := map[
    "mainnet" := RemoteSpec("MAINNET_RPC_URL", "https://mainnet.infura.io/v3/YOUR_INFURA_KEY", 1, 20000000000, 2, false),
    "goerli" := RemoteSpec("GOERLI_RPC_URL", "https://goerli.infura.io/v3/YOUR_INFURA_KEY", 5, 10000000000, 1, true),
    "sepolia" := RemoteSpec("SEPOLIA_RPC_URL", "https://sepolia.infura.io/v3/YOUR_INFURA_KEY", 11155111, 10000000000, 1, true),
    "polygon" := RemoteSpec("POLYGON_RPC_URL", "https://polygon-rpc.com", 137, 30000000000, 2, false),
    "mumbai" := RemoteSpec("MUMBAI_RPC_URL", "https://rpc-mumbai.maticvigil.com", 80001, 10000000000, 1, true),
    "bsc" := RemoteSpec("BSC_RPC_URL", "https://bsc-dataseed1.binance.org", 56, 5000000000, 2, false),
    "bscTestnet" := RemoteSpec("BSC_TESTNET_RPC_URL", "https://data-seed-prebsc-1-s1.binance.org:8545", 97, 10000000000, 1, true),
    "arbitrum" := RemoteSpec("ARBITRUM_RPC_URL", "https://arb1.arbitrum.io/rpc", 42161, 1000000000, 1, false),
    "optimism" := RemoteSpec("OPTIMISM_RPC_URL", "https://mainnet.optimism.io", 10, 1000000000, 1, false)
  ]

  const GasLimit: nat := 8000000

  const LocalNetwork: HardhatNetwork := HardhatNetwork(
    None, 31337, GasLimit, 1000000000,
    WalletConfig.Mnemonic("test test test test test test test test test test test junk", 20),
    None, None, None)

  /** `accounts: process.env.PRIVATE_KEY ? [process.env.PRIVATE_KEY] : []`. */
  function RemoteAccounts(env: Env): (a: WalletConfig.Accounts)
    ensures a.Keys?
    ensures EnvSet(env, "PRIVATE_KEY") ==> a.keys == [env["PRIVATE_KEY"]]
    ensures !EnvSet(env, "PRIVATE_KEY") ==> a.keys == []
  {
    if EnvSet(env, "PRIVATE_KEY") then WalletConfig.Keys([env["PRIVATE_KEY"]]) else WalletConfig.Keys([])
  }

  function Remote(env: Env, spec: RemoteSpec): HardhatNetwork {
    HardhatNetwork(
      Some(OrElse(EnvVar(env, spec.rpcVar), spec.defaultUrl)), spec.chainId, GasLimit, spec.gasPrice,
      RemoteAccounts(env), Some(spec.confirmations), Some(200), Some(spec.skipDryRun))
  }

  /** The `networks` object as evaluated against `env` when the module is loaded. */
  function Networks(env: Env): (m: map<string, HardhatNetwork>)
    ensures m.Keys == RemoteSpecs.Keys + {"hardhat"}
    ensures m["hardhat"] == LocalNetwork
    ensures forall n :: n in RemoteSpecs ==> m[n] == Remote(env, RemoteSpecs[n])
  {
    (map n | n in RemoteSpecs :: Remote(env, RemoteSpecs[n]))["hardhat" := LocalNetwork]
  }

  /** `getNetworkConfig`: throws for a name outside the ten entries. */
  function GetNetworkConfig(env: Env, name: string): (r: Result<HardhatNetwork>)
    ensures r.Ok? <==> name == "hardhat" || name in RemoteSpecs
    ensures r.Ok? ==> r.value == Networks(env)[name]
    ensures r.Err? ==> r.message == NetworkUtils.NotFoundError(name)
  {
    var nets := Networks(env);
    if name in nets then Ok(nets[name]) else Err(NetworkUtils.NotFoundError(name))
  }

  /** The table has no entry for any Hedera network. */
  lemma NoHederaEntry(env: Env, name: string)
    requires name in WalletConfig.HederaNames
    ensures GetNetworkConfig(env, name).Err?
  {
  }

  /** Every remote entry uses the RPC variable when it is set and non-empty, its default
      URL otherwise, and the single `PRIVATE_KEY` account exactly when that is set. */
  lemma RemoteEntriesFollowEnv(env: Env, name: string)
    requires name in RemoteSpecs
    ensures var c := GetNetworkConfig(env, name).value;
      && c.url == Some(OrElse(EnvVar(env, RemoteSpecs[name].rpcVar), RemoteSpecs[name].defaultUrl))
      && c.accounts == (if EnvSet(env, "PRIVATE_KEY") then WalletConfig.Keys([env["PRIVATE_KEY"]]) else WalletConfig.Keys([]))
      && c.gas == GasLimit
  {
  }

  const Testnets: seq<string> := ["goerli", "sepolia", "mumbai", "bscTestnet", "hardhat"]

  /** `isTestnet`: list membership, so a Hedera or unknown name is simply not a testnet. */
  function IsTestnet(name: string): (b: bool)
    ensures b <==> name in {"goerli", "sepolia", "mumbai", "bscTestnet", "hardhat"}
  {
    name in Testnets
  }

  const Explorers: map<string, string> := map[
    "mainnet" := "https://etherscan.io",
    "goerli" := "https://goerli.etherscan.io",
    "sepolia" := "https://sepolia.etherscan.io",
    "polygon" := "https://polygonscan.com",
    "mumbai" := "https://mumbai.polygonscan.com",
    "bsc" := "https://bscscan.com",
    "bscTestnet" := "https://testnet.bscscan.com",
    "arbitrum" := "https://arbiscan.io",
    "optimism" := "https://optimistic.etherscan.io"
  ]

  /** `explorers[name] || ''`. */
  function GetExplorerUrl(name: string): (u: string)
    ensures name in Explorers ==> u == Explorers[name]
    ensures name !in Explorers ==> u == ""
    ensures u == "" <==> name !in RemoteSpecs
  {
    OrElse(Lookup(Explorers, name), "")
  }

  /** The nine explorers agree with the deployment scripts' profile table. */
  lemma ExplorersAgreeWithProfiles(name: string)
    requires name in Explorers
    ensures name in NetworkUtils.NetworkConfigs
    ensures GetExplorerUrl(name) == NetworkUtils.NetworkConfigs[name].explorerUrl
  {
  }

  /** The two tables disagree about the Hedera testnet: the scripts' profiles call it a
      testnet, this list does not. */
  lemma HederaTestnetClassification()
    ensures !IsTestnet("hederaTestnet")
    ensures NetworkUtils.IsTestnet("hederaTestnet") == Ok(true)
  {
  }
}
