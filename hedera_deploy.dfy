/** The Hedera deployment script: its network guard, balance floor and gas settings, and
    the two HashScan link helpers. The deployer's balance, the node's gas estimate and
    the configured gas price are inputs; the deployment itself is not modelled. */
module HederaDeploy {
  import opened Wrappers
  import opened JsText
  import ContractConstants
  import WalletConfig
  import NetworkUtils
  import DeploymentValidation

  /** The names the script accepts, in its own order. */
  const HederaNetworks: seq<string> := ["hedera", "hederaTestnet", "hederaPreviewnet"]

  const HashScanBases: map<string, string> := map[
    "hedera" := "https://hashscan.io/mainnet",
    "hederaTestnet" := "https://hashscan.io/testnet",
    "hederaPreviewnet" := "https://hashscan.io/previewnet"
  ]

  /** `getHederaExplorerUrl`: the contract page on HashScan, "" for a non-Hedera name. */
  function GetHederaExplorerUrl(name: string, contractAddress: string): (u: string)
    ensures name in HashScanBases ==> u == HashScanBases[name] + "/contract/" + contractAddress
    ensures name !in HashScanBases ==> u == ""
  {
    var base := OrElse(Lookup(HashScanBases, name), "");
    if base != "" then base + "/contract/" + contractAddress else ""
  }

  /** `getHederaTransactionUrl`: the transaction page on HashScan, "" for a non-Hedera name. */
  function GetHederaTransactionUrl(name: string, txHash: string): (u: string)
    ensures name in HashScanBases ==> u == HashScanBases[name] + "/transaction/" + txHash
    ensures name !in HashScanBases ==> u == ""
  {
    var base := OrElse(Lookup(HashScanBases, name), "");
    if base != "" then base + "/transaction/" + txHash else ""
  }

  /** Both helpers give a link exactly for the names the wallet configuration calls Hedera. */
  lemma LinksExactlyForHederaNames(name: string, contractAddress: string, txHash: string)
    ensures GetHederaExplorerUrl(name, contractAddress) != "" <==>
      name in WalletConfig.NetworkTypeMap && WalletConfig.NetworkTypeMap[name] == WalletConfig.Hedera
    ensures GetHederaTransactionUrl(name, txHash) != "" <==> GetHederaExplorerUrl(name, contractAddress) != ""
  {
    if name in HashScanBases {
      assert |GetHederaExplorerUrl(name, contractAddress)| > 0;
      assert |GetHederaTransactionUrl(name, txHash)| > 0;
    }
  }

  /** The HashScan bases are the explorer URLs of the scripts' profile table. */
  lemma BasesAgreeWithProfiles(name: string)
    requires name in HashScanBases
    ensures name in NetworkUtils.NetworkConfigs
    ensures HashScanBases[name] == NetworkUtils.NetworkConfigs[name].explorerUrl
  {
  }

  /** The two helpers share the base and differ only in the path segment: the prefix up to
      the segment is the same, and so is the suffix after it. */
  lemma HelpersDifferOnlyInPath(name: string, id: string)
    requires name in HashScanBases
    ensures var base := HashScanBases[name];
      && GetHederaExplorerUrl(name, id)[..|base|] == GetHederaTransactionUrl(name, id)[..|base|] == base
      && GetHederaExplorerUrl(name, id)[|base| + |"/contract/"|..] == id
      && GetHederaTransactionUrl(name, id)[|base| + |"/transaction/"|..] == id
  {
    var base := HashScanBases[name];
    var e := GetHederaExplorerUrl(name, id);
    var t := GetHederaTransactionUrl(name, id);
    assert e == base + ("/contract/" + id);
    assert t == base + ("/transaction/" + id);
  }

  const MinDeployBalance: nat := 5 * ContractConstants.Wei
  const DefaultGasEstimate: nat := 3_000_000
  const DefaultGasPrice: nat := 10 * ContractConstants.Gwei

  function GuardError(name: string): string {
    "❌ This script is only for Hedera networks. Current network: " + name
  }

  function BalanceError(balance: nat, formatEther: nat -> string): string {
    "❌ Insufficient balance. Need at least 5 HBAR, have " + formatEther(balance) + " HBAR"
  }

  datatype DeploySettings = DeploySettings(gasLimit: nat, gasPrice: nat)

  /** How `main` ends before it deploys, or the settings it deploys with. */
  datatype DeployPlan =
    | ValidationExit(code: int)      // `validateAndExit` called `process.exit(1)`
    | Thrown(message: string)        // `main` rejected with this error
    | Deploy(settings: DeploySettings)

  /** The path `main` takes. First `validateAndExit` runs on `validation`, the outcome of
      `validateDeployment` for the same network; then come the network guard and the
      balance floor. `estimate` is `None` when gas estimation throws; a configured gas
      price of 0 is falsy and falls back like a missing one. */
  function PlanDeployment(
    name: string, validation: Result<DeploymentValidation.ValidationReport>, balance: nat,
    estimate: Option<nat>, configuredGasPrice: Option<nat>, formatEther: nat -> string): (r: DeployPlan)
    ensures var d := DeploymentValidation.ValidateAndExit(validation);
      && (d.Exit? <==> r.ValidationExit?)
      && (d.Exit? ==> r == ValidationExit(1))
      && (d.Rejected? ==> r == Thrown(d.message))
      && (d.Proceed? && name !in HederaNetworks ==> r == Thrown(GuardError(name)))
      && (d.Proceed? && name in HederaNetworks && balance < MinDeployBalance ==> r == Thrown(BalanceError(balance, formatEther)))
      && (r.Deploy? <==> d.Proceed? && name in HederaNetworks && balance >= MinDeployBalance)
    ensures r.Deploy? ==>
      r.settings.gasLimit * 100 <= estimate.GetOr(DefaultGasEstimate) * 150 < (r.settings.gasLimit + 1) * 100
    ensures r.Deploy? ==> r.settings.gasPrice == (if configuredGasPrice.Some? && configuredGasPrice.value > 0
                                                  then configuredGasPrice.value else DefaultGasPrice)
  {
    match DeploymentValidation.ValidateAndExit(validation)
    case Exit(code) => ValidationExit(code)
    case Rejected(message) => Thrown(message)
    case Proceed(_, _) =>
      if name !in HederaNetworks then Thrown(GuardError(name))
      else if balance < MinDeployBalance then Thrown(BalanceError(balance, formatEther))
      else
        var gas := estimate.GetOr(DefaultGasEstimate);
        var price := if configuredGasPrice.Some? && configuredGasPrice.value > 0 then configuredGasPrice.value else DefaultGasPrice;
        Deploy(DeploySettings(gas * 150 / 100, price))
  }

  /** The gas limit carries a 50% buffer: never below the estimate, and 4,500,000 when
      estimation fails. */
  lemma GasLimitBuffer(
    name: string, validation: Result<DeploymentValidation.ValidationReport>, balance: nat,
    estimate: Option<nat>, configuredGasPrice: Option<nat>, formatEther: nat -> string)
    requires PlanDeployment(name, validation, balance, estimate, configuredGasPrice, formatEther).Deploy?
    ensures var settings := PlanDeployment(name, validation, balance, estimate, configuredGasPrice, formatEther).settings;
      && settings.gasLimit >= estimate.GetOr(DefaultGasEstimate)
      && (estimate.None? ==> settings.gasLimit == 4_500_000)
  {
  }

  /** When the validation ran on the same network and balance read, the script's own
      balance error cannot arise: a Hedera balance below the floor is an issue of the
      validator, so `validateAndExit` has already exited. */
  lemma BalanceFloorIsDeadCode(
    name: string, env: Env, connectivity: Result<string>, report: DeploymentValidation.ValidationReport,
    balance: nat, estimate: Option<nat>, configuredGasPrice: Option<nat>, formatEther: nat -> string)
    requires name in HederaNetworks
    requires report.issues == DeploymentValidation.ExpectedIssues(
      name, WalletConfig.Hedera, env, connectivity, Ok(balance), formatEther)
    requires report.passed <==> report.issues == []
    ensures PlanDeployment(name, Ok(report), balance, estimate, configuredGasPrice, formatEther)
      != Thrown(BalanceError(balance, formatEther))
    ensures balance < MinDeployBalance ==>
      PlanDeployment(name, Ok(report), balance, estimate, configuredGasPrice, formatEther) == ValidationExit(1)
  {
    if balance < MinDeployBalance {
      var issue := DeploymentValidation.BalanceIssue(WalletConfig.Hedera, Ok(balance), formatEther);
      assert |issue| == 1;
      assert |report.issues| >= |issue|;
    }
  }

  /** The script's guard accepts exactly the Hedera names of the wallet configuration, and
      its balance floor is the validator's Hedera minimum. A name the validator passes is
      therefore a known one, and the guard rejects exactly its EVM names. */
  lemma GuardAgreesWithValidator(name: string)
    ensures name in HederaNetworks <==>
      name in WalletConfig.NetworkTypeMap && WalletConfig.NetworkTypeMap[name] == WalletConfig.Hedera
    ensures MinDeployBalance == DeploymentValidation.MinBalance(WalletConfig.Hedera)
  {
  }
}
