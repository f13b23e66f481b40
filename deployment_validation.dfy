/** The pre-flight deployment validator: a fixed sequence of checks that push issues
    (which fail the validation) and warnings (which do not), in program order. The
    node's answer to `eth_blockNumber` and the deployer's balance read are inputs;
    `formatEther` is the library's wei-to-decimal rendering. The checks below take the
    network's type, which the validator looks up once by name. */
module DeploymentValidation {
  import opened Wrappers
  import opened JsText
  import ContractConstants
  import WalletConfig

  type NetworkType = WalletConfig.NetworkType

  datatype ValidationReport = ValidationReport(
    passed: bool, issues: seq<string>, warnings: seq<string>,
    networkType: NetworkType, isMainnet: bool)

  const Mainnets: seq<string> := ["mainnet", "polygon", "bsc", "arbitrum", "optimism", "hedera"]

  const HederaRpcVars: map<string, string> := map[
    "hedera" := "HEDERA_RPC_URL",
    "hederaTestnet" := "HEDERA_TESTNET_RPC_URL",
    "hederaPreviewnet" := "HEDERA_PREVIEWNET_RPC_URL"
  ]

  /** Every Hedera name has an RPC variable. */
  lemma HederaNamesHaveRpcVars(name: string)
    requires name in WalletConfig.NetworkTypeMap && WalletConfig.NetworkTypeMap[name] == WalletConfig.Hedera
    ensures name in HederaRpcVars
  {
  }

  /** 5 HBAR on Hedera, 0.1 ETH elsewhere, both in 18-decimal base units. */
  function MinBalance(t: NetworkType): (m: nat)
    ensures t == WalletConfig.Hedera ==> m == 5 * ContractConstants.Wei
    ensures t == WalletConfig.Evm ==> m * 10 == ContractConstants.Wei
  {
    if t == WalletConfig.Hedera then 5 * ContractConstants.Wei else ContractConstants.Wei / 10
  }

  function Currency(t: NetworkType): string {
    if t == WalletConfig.Hedera then "HBAR" else "ETH"
  }

  const MnemonicWarning: string :=
    "Using mnemonic for all networks. " + "Consider using separate private keys for better security."
  const LegacyKeyWarning: string :=
    "Using legacy PRIVATE_KEY. " + "Consider migrating to EVM_PRIVATE_KEY and HEDERA_PRIVATE_KEY for better security separation."
  const MainnetWarnings: seq<string> := [
    "🚨 MAINNET DEPLOYMENT DETECTED! Ensure you have:",
    "   - Thoroughly tested on testnet",
    "   - Reviewed all contract parameters",
    "   - Secured your private keys",
    "   - Prepared for contract verification"
  ]

  const MissingVarsPrefix: string := "Missing environment variables: "
  const HederaKeyVars: string := "HEDERA_PRIVATE_KEY or MNEMONIC"
  const EvmKeyVars: string := "EVM_PRIVATE_KEY, PRIVATE_KEY, or MNEMONIC"

  // ---------------------------------------------------------------------------
  // The checks, each as the list of messages it contributes (empty when it passes).

  /** Check 2: the key lookup of the wallet configuration must succeed. */
  function KeyIssue(env: Env, name: string): seq<string> {
    if WalletConfig.ValidatePrivateKeyConfig(env, name) then []
    else ["Private key configuration invalid for network: " + name]
  }

  /** Check 3: a usable key variable must be set for the network's type. */
  function EnvIssue(env: Env, t: NetworkType): seq<string> {
    if t == WalletConfig.Hedera then
      if !EnvSet(env, "HEDERA_PRIVATE_KEY") && !EnvSet(env, "MNEMONIC") then
        [MissingVarsPrefix + HederaKeyVars]
      else []
    else
      if !EnvSet(env, "EVM_PRIVATE_KEY") && !EnvSet(env, "PRIVATE_KEY") && !EnvSet(env, "MNEMONIC") then
        [MissingVarsPrefix + EvmKeyVars]
      else []
  }

  /** Check 4: the node must answer. */
  function ConnectivityIssue(connectivity: Result<string>): seq<string> {
    if connectivity.Err? then ["Network connectivity failed: " + connectivity.message] else []
  }

  /** Check 5: the deployer's balance must be read and reach the minimum. */
  function BalanceIssue(t: NetworkType, balance: Result<nat>, formatEther: nat -> string): seq<string> {
    match balance
    case Err(message) => ["Failed to check account balance: " + message]
    case Ok(b) =>
      if b < MinBalance(t) then
        ["Insufficient balance. Need at least " + formatEther(MinBalance(t)) + " " + Currency(t)
          + ", have " + formatEther(b) + " " + Currency(t)]
      else []
  }

  /** Every issue a known network of type `t` collects, in check order. */
  function ExpectedIssues(
    name: string, t: NetworkType, env: Env,
    connectivity: Result<string>, balance: Result<nat>, formatEther: nat -> string): seq<string>
  {
    KeyIssue(env, name) + EnvIssue(env, t) + ConnectivityIssue(connectivity) + BalanceIssue(t, balance, formatEther)
  }

  /** Check 3's warning: a Hedera network without its own RPC variable. */
  function RpcWarning(env: Env, name: string, t: NetworkType): seq<string> {
    if t == WalletConfig.Hedera && name in HederaRpcVars && !EnvSet(env, HederaRpcVars[name]) then
      [HederaRpcVars[name] + " not set, using default RPC URL"]
    else []
  }

  /** Check 6: a mnemonic is always reported; a legacy key only when there is no
      mnemonic and not both separate keys. The source also requires the name to be an
      EVM or Hedera name, which every name reaching this point is. */
  function KeyWarning(env: Env): seq<string> {
    var hasEvmKey := EnvSet(env, "EVM_PRIVATE_KEY") || EnvSet(env, "PRIVATE_KEY");
    var hasHederaKey := EnvSet(env, "HEDERA_PRIVATE_KEY");
    if EnvSet(env, "MNEMONIC") then [MnemonicWarning]
    else if hasEvmKey && hasHederaKey then []
    else if EnvSet(env, "PRIVATE_KEY") then [LegacyKeyWarning]
    else []
  }

  function MainnetWarning(name: string): seq<string> {
    if name in Mainnets then MainnetWarnings else []
  }

  function ExpectedWarnings(name: string, t: NetworkType, env: Env): seq<string> {
    RpcWarning(env, name, t) + KeyWarning(env) + MainnetWarning(name)
  }

  // ---------------------------------------------------------------------------

  /** `validateDeployment`. An unknown name records its issue in check 1 but then throws
      at the unguarded Hedera test of check 3, so no report is returned. */
  method ValidateDeployment(
    name: string, env: Env, connectivity: Result<string>, balance: Result<nat>,
    formatEther: nat -> string) returns (r: Result<ValidationReport>)
    ensures r.Err? <==> name !in WalletConfig.NetworkTypeMap
    ensures r.Err? ==> r.message == WalletConfig.UnknownNetworkError(name)
    ensures r.Ok? ==>
      var t := WalletConfig.NetworkTypeMap[name];
      && r.value.issues == ExpectedIssues(name, t, env, connectivity, balance, formatEther)
      && r.value.warnings == ExpectedWarnings(name, t, env)
      && (r.value.passed <==> r.value.issues == [])
      && r.value.networkType == t
      && (r.value.isMainnet <==> name in Mainnets)
  {
    var validationPassed := true;
    var issues: seq<string> := [];

    // 1. network type
    var networkType := WalletConfig.GetNetworkType(name);
    if networkType.Err? {
      issues := issues + ["Unknown network: " + name];
      validationPassed := false;
    }

    // 2. private key configuration
    var keyValid := WalletConfig.ValidatePrivateKeyConfig(env, name);
    if !keyValid {
      issues := issues + ["Private key configuration invalid for network: " + name];
      validationPassed := false;
    }

    // 3. `isHederaNetwork` throws the lookup error for an unknown name
    if networkType.Err? {
      return Err(networkType.message);
    }
    assert issues == KeyIssue(env, name);
    var t := networkType.value;
    if t == WalletConfig.Hedera {
      HederaNamesHaveRpcVars(name);
    }
    var warnings;
    validationPassed, issues, warnings := CheckEnvironment(name, t, env, validationPassed, issues);
    validationPassed, issues := CheckFunds(t, connectivity, balance, formatEther, validationPassed, issues);
    warnings := CheckSecurity(name, env, warnings);
    r := Ok(ValidationReport(validationPassed, issues, warnings, t, name in Mainnets));
  }

  /** Check 3: the key variables of the network's type, and a Hedera network's RPC variable. */
  method CheckEnvironment(name: string, t: NetworkType, env: Env, passed0: bool, issues0: seq<string>)
    returns (validationPassed: bool, issues: seq<string>, warnings: seq<string>)
    requires t == WalletConfig.Hedera ==> name in HederaRpcVars
    requires passed0 <==> issues0 == []
    ensures issues == issues0 + EnvIssue(env, t)
    ensures warnings == RpcWarning(env, name, t)
    ensures validationPassed <==> issues == []
  {
    validationPassed, issues, warnings := passed0, issues0, [];
    var missing: seq<string> := [];
    if t == WalletConfig.Hedera {
      if !EnvSet(env, "HEDERA_PRIVATE_KEY") && !EnvSet(env, "MNEMONIC") {
        missing := missing + [HederaKeyVars];
      }
      var rpcVar := HederaRpcVars[name];
      if !EnvSet(env, rpcVar) {
        warnings := warnings + [rpcVar + " not set, using default RPC URL"];
      }
    } else {
      if !EnvSet(env, "EVM_PRIVATE_KEY") && !EnvSet(env, "PRIVATE_KEY") && !EnvSet(env, "MNEMONIC") {
        missing := missing + [EvmKeyVars];
      }
    }
    if |missing| > 0 {
      issues := issues + [MissingVarsPrefix + missing[0]];
      validationPassed := false;
    }
  }

  /** Checks 4 and 5: the node answers, and the deployer's balance reaches the minimum. */
  method CheckFunds(
    t: NetworkType, connectivity: Result<string>, balance: Result<nat>,
    formatEther: nat -> string, passed0: bool, issues0: seq<string>)
    returns (validationPassed: bool, issues: seq<string>)
    requires passed0 <==> issues0 == []
    ensures issues == issues0 + ConnectivityIssue(connectivity) + BalanceIssue(t, balance, formatEther)
    ensures validationPassed <==> issues == []
  {
    validationPassed, issues := passed0, issues0;
    var hedera := t == WalletConfig.Hedera;

    // 4. connectivity
    if connectivity.Err? {
      issues := issues + ["Network connectivity failed: " + connectivity.message];
      validationPassed := false;
    }

    // 5. account balance
    match balance {
      case Err(message) =>
        issues := issues + ["Failed to check account balance: " + message];
        validationPassed := false;
      case Ok(b) =>
        var minBalance := if hedera then 5 * ContractConstants.Wei else ContractConstants.Wei / 10;
        if b < minBalance {
          var currency := if hedera then "HBAR" else "ETH";
          issues := issues + ["Insufficient balance. Need at least " + formatEther(minBalance) + " " + currency
            + ", have " + formatEther(b) + " " + currency];
          validationPassed := false;
        }
    }
  }

  /** Check 6: key-hygiene warnings, then the mainnet checklist. */
  method CheckSecurity(name: string, env: Env, warnings0: seq<string>) returns (warnings: seq<string>)
    ensures warnings == warnings0 + KeyWarning(env) + MainnetWarning(name)
  {
    warnings := warnings0;
    var hasEvmKey := EnvSet(env, "EVM_PRIVATE_KEY") || EnvSet(env, "PRIVATE_KEY");
    var hasHederaKey := EnvSet(env, "HEDERA_PRIVATE_KEY");
    if EnvSet(env, "MNEMONIC") {
      warnings := warnings + [MnemonicWarning];
    } else if hasEvmKey && hasHederaKey {
    } else if EnvSet(env, "PRIVATE_KEY") {
      warnings := warnings + [LegacyKeyWarning];
    }
    if name in Mainnets {
      warnings := warnings + MainnetWarnings;
    }
  }

  /** `passed` is false exactly when some check failed. */
  lemma PassedIffNoFailedCheck(
    name: string, t: NetworkType, env: Env,
    connectivity: Result<string>, balance: Result<nat>, formatEther: nat -> string)
    ensures ExpectedIssues(name, t, env, connectivity, balance, formatEther) == [] <==>
      && WalletConfig.ValidatePrivateKeyConfig(env, name)
      && EnvIssue(env, t) == []
      && connectivity.Ok?
      && balance.Ok? && balance.value >= MinBalance(t)
  {
  }

  /** The balance check compares against 5·10^18 on Hedera and 10^17 elsewhere. */
  lemma BalanceThreshold(t: NetworkType, b: nat, formatEther: nat -> string)
    ensures BalanceIssue(t, Ok(b), formatEther) != [] <==>
      b < (if t == WalletConfig.Hedera then 5_000_000_000_000_000_000 else 100_000_000_000_000_000)
  {
  }

  /** A Hedera RPC variable is never a cause of failure: it changes the warnings at most. */
  lemma RpcVariableOnlyWarns(
    name: string, t: NetworkType, env: Env, rpcVar: string, value: string,
    connectivity: Result<string>, balance: Result<nat>, formatEther: nat -> string)
    requires rpcVar in HederaRpcVars.Values
    ensures ExpectedIssues(name, t, env[rpcVar := value], connectivity, balance, formatEther)
         == ExpectedIssues(name, t, env, connectivity, balance, formatEther)
  {
    var env2 := env[rpcVar := value];
    assert rpcVar == "HEDERA_RPC_URL" || rpcVar == "HEDERA_TESTNET_RPC_URL" || rpcVar == "HEDERA_PREVIEWNET_RPC_URL";
    assert EnvVar(env2, "HEDERA_PRIVATE_KEY") == EnvVar(env, "HEDERA_PRIVATE_KEY");
    assert EnvVar(env2, "EVM_PRIVATE_KEY") == EnvVar(env, "EVM_PRIVATE_KEY");
    assert EnvVar(env2, "PRIVATE_KEY") == EnvVar(env, "PRIVATE_KEY");
    assert EnvVar(env2, "MNEMONIC") == EnvVar(env, "MNEMONIC");
    IssuesReadOnlyKeyVariables(name, t, env2, env, connectivity, balance, formatEther);
  }

  /** The issues read only the four key variables of the environment. */
  lemma IssuesReadOnlyKeyVariables(
    name: string, t: NetworkType, env1: Env, env2: Env,
    connectivity: Result<string>, balance: Result<nat>, formatEther: nat -> string)
    requires EnvVar(env1, "HEDERA_PRIVATE_KEY") == EnvVar(env2, "HEDERA_PRIVATE_KEY")
    requires EnvVar(env1, "EVM_PRIVATE_KEY") == EnvVar(env2, "EVM_PRIVATE_KEY")
    requires EnvVar(env1, "PRIVATE_KEY") == EnvVar(env2, "PRIVATE_KEY")
    requires EnvVar(env1, "MNEMONIC") == EnvVar(env2, "MNEMONIC")
    ensures ExpectedIssues(name, t, env1, connectivity, balance, formatEther)
         == ExpectedIssues(name, t, env2, connectivity, balance, formatEther)
  {
    KeyIssueReadsOnlyKeyVariables(name, env1, env2);
    EnvIssueReadsOnlyKeyVariables(t, env1, env2);
  }

  lemma KeyIssueReadsOnlyKeyVariables(name: string, env1: Env, env2: Env)
    requires EnvVar(env1, "HEDERA_PRIVATE_KEY") == EnvVar(env2, "HEDERA_PRIVATE_KEY")
    requires EnvVar(env1, "EVM_PRIVATE_KEY") == EnvVar(env2, "EVM_PRIVATE_KEY")
    requires EnvVar(env1, "PRIVATE_KEY") == EnvVar(env2, "PRIVATE_KEY")
    ensures KeyIssue(env1, name) == KeyIssue(env2, name)
  {
    WalletConfig.KeyLookupReadsOnlyKeyVariables(env1, env2, name);
  }

  lemma EnvIssueReadsOnlyKeyVariables(t: NetworkType, env1: Env, env2: Env)
    requires EnvVar(env1, "HEDERA_PRIVATE_KEY") == EnvVar(env2, "HEDERA_PRIVATE_KEY")
    requires EnvVar(env1, "EVM_PRIVATE_KEY") == EnvVar(env2, "EVM_PRIVATE_KEY")
    requires EnvVar(env1, "PRIVATE_KEY") == EnvVar(env2, "PRIVATE_KEY")
    requires EnvVar(env1, "MNEMONIC") == EnvVar(env2, "MNEMONIC")
    ensures EnvIssue(env1, t) == EnvIssue(env2, t)
  {
    EnvSetFollowsEnvVar(env1, env2, "HEDERA_PRIVATE_KEY");
    EnvSetFollowsEnvVar(env1, env2, "EVM_PRIVATE_KEY");
    EnvSetFollowsEnvVar(env1, env2, "PRIVATE_KEY");
    EnvSetFollowsEnvVar(env1, env2, "MNEMONIC");
  }

  /** A Hedera target lacking both its key and a mnemonic records the Hedera message; an
      EVM target needs one of its two key variables or a mnemonic. */
  lemma MissingKeyMessages(t: NetworkType, env: Env)
    ensures t == WalletConfig.Hedera ==>
      (EnvIssue(env, t) == [MissingVarsPrefix + HederaKeyVars]
       <==> !EnvSet(env, "HEDERA_PRIVATE_KEY") && !EnvSet(env, "MNEMONIC"))
    ensures t == WalletConfig.Evm ==>
      (EnvIssue(env, t) != [] <==> !EnvSet(env, "EVM_PRIVATE_KEY") && !EnvSet(env, "PRIVATE_KEY") && !EnvSet(env, "MNEMONIC"))
  {
  }

  /** The mnemonic warning is given whenever a mnemonic is set, and then the legacy-key
      warning is not. */
  lemma MnemonicSuppressesLegacyWarning(name: string, t: NetworkType, env: Env)
    requires EnvSet(env, "MNEMONIC")
    ensures MnemonicWarning in ExpectedWarnings(name, t, env)
    ensures LegacyKeyWarning !in ExpectedWarnings(name, t, env)
  {
    var w := ExpectedWarnings(name, t, env);
    assert w == RpcWarning(env, name, t) + [MnemonicWarning] + MainnetWarning(name);
    assert w[|RpcWarning(env, name, t)|] == MnemonicWarning;
    forall i | 0 <= i < |w| ensures w[i] != LegacyKeyWarning {
      assert |w[i]| != |LegacyKeyWarning|;
    }
  }

  /** A mainnet name adds exactly the five mainnet warnings, at the end. */
  lemma MainnetAddsFiveWarnings(name: string, t: NetworkType, env: Env)
    ensures name in Mainnets ==>
      && |ExpectedWarnings(name, t, env)| == |RpcWarning(env, name, t) + KeyWarning(env)| + 5
      && ExpectedWarnings(name, t, env)[|ExpectedWarnings(name, t, env)| - 5..] == MainnetWarnings
    ensures name !in Mainnets ==> ExpectedWarnings(name, t, env) == RpcWarning(env, name, t) + KeyWarning(env)
  {
    var w := ExpectedWarnings(name, t, env);
    if name in Mainnets {
      assert w == (RpcWarning(env, name, t) + KeyWarning(env)) + MainnetWarnings;
    } else {
      assert w == (RpcWarning(env, name, t) + KeyWarning(env)) + [];
    }
  }

  /** What `validateAndExit` does with the validation's outcome. */
  datatype ExitDecision =
    | Exit(code: int)                               // validation failed: `process.exit(1)`
    | Proceed(report: ValidationReport, cautioned: bool)
    | Rejected(message: string)                     // `validateDeployment` threw

  function ValidateAndExit(outcome: Result<ValidationReport>): (d: ExitDecision)
    ensures d.Exit? <==> outcome.Ok? && !outcome.value.passed
    ensures d.Exit? ==> d.code == 1
    ensures d.Proceed? ==> outcome.Ok? && d.report == outcome.value && d.report.passed
    ensures d.Proceed? ==> (d.cautioned <==> d.report.warnings != [] && d.report.isMainnet)
    ensures d.Rejected? <==> outcome.Err?
  {
    match outcome
    case Err(message) => Rejected(message)
    case Ok(report) =>
      if !report.passed then Exit(1)
      else Proceed(report, |report.warnings| > 0 && report.isMainnet)
  }
}
