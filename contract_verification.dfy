/** The read-only deployment verifier of the front end. Every chain access is an input:
    the bytecode read (a value, `undefined`, or a thrown error), the seven independent
    field reads (each fulfilled or rejected), the balance read and the mint simulation.
    `fmt` is the library's `formatUnits(value, 18)`, and `now` the ISO time stamp. */
module ContractVerification {
  import opened Wrappers
  import opened JsText
  import AppConstants
  import DeploymentSync

  const ZeroAddress: string := AppConstants.ZeroAddress

  /** The chains for which a public client can be created. */
  const ClientChains: set<int> := {296, 11155111, 31337}

  const NotConfiguredError: string := "Contract address not configured"
  const NotFoundError: string := "Contract not found at address"
  const NotDeployedError: string := "Contract not deployed on this network"

  function UnsupportedChainError(chainId: int): string {
    "Unsupported chain ID: " + IntToString(chainId)
  }

  /** The outcome of each of the seven reads: `None` when its promise was rejected. */
  datatype FieldReads = FieldReads(
    name: Option<string>,
    symbol: Option<string>,
    decimals: Option<int>,
    totalSupply: Option<nat>,
    maxSupply: Option<nat>,
    exchangeRate: Option<nat>,
    mintingEnabled: Option<bool>)

  /** What one chain answers: `getBytecode` (which may throw) and the field reads. */
  datatype ChainRpc = ChainRpc(bytecode: Result<Option<string>>, fields: FieldReads)

  datatype ContractInfo = ContractInfo(
    name: string, symbol: string, decimals: int, totalSupply: string,
    maxSupply: string, exchangeRate: string, mintingEnabled: bool)

  datatype FunctionTests = FunctionTests(
    name: bool, symbol: bool, decimals: bool, totalSupply: bool,
    maxSupply: bool, exchangeRate: bool, mintingEnabled: bool)

  /** One verification result; a key the source leaves out of its object is `None`. */
  datatype Verification = Verification(
    chainId: int,
    contractAddress: Option<string>,
    isDeployed: bool,
    error: Option<string>,
    contractInfo: Option<ContractInfo>,
    deploymentInfo: Option<DeploymentSync.DeploymentInfo>,
    verificationTime: Option<string>,
    functionTests: Option<FunctionTests>)

  /** `CONTRACT_ADDRESSES[chainId]` is missing, empty or the sentinel. */
  predicate Unconfigured(chainId: int) {
    var a := Lookup(AppConstants.ContractAddresses, chainId);
    !Truthy(a) || a.value == ZeroAddress
  }

  /** Each field falls back to its own default when its read was rejected. */
  function InfoOf(fr: FieldReads, fmt: nat -> string): (info: ContractInfo)
    ensures info.name == fr.name.GetOr("Unknown")
    ensures info.symbol == fr.symbol.GetOr("Unknown")
    ensures info.decimals == fr.decimals.GetOr(18)
    ensures info.totalSupply == (if fr.totalSupply.Some? then fmt(fr.totalSupply.value) else "0")
    ensures info.maxSupply == (if fr.maxSupply.Some? then fmt(fr.maxSupply.value) else "0")
    ensures info.exchangeRate == (if fr.exchangeRate.Some? then NatToString(fr.exchangeRate.value) else "0")
    ensures info.mintingEnabled == fr.mintingEnabled.GetOr(false)
  {
    ContractInfo(
      fr.name.GetOr("Unknown"),
      fr.symbol.GetOr("Unknown"),
      fr.decimals.GetOr(18),
      if fr.totalSupply.Some? then fmt(fr.totalSupply.value) else "0",
      if fr.maxSupply.Some? then fmt(fr.maxSupply.value) else "0",
      if fr.exchangeRate.Some? then NatToString(fr.exchangeRate.value) else "0",
      fr.mintingEnabled.GetOr(false))
  }

  function TestsOf(fr: FieldReads): (t: FunctionTests)
    ensures t.name <==> fr.name.Some?
    ensures t.symbol <==> fr.symbol.Some?
    ensures t.decimals <==> fr.decimals.Some?
    ensures t.totalSupply <==> fr.totalSupply.Some?
    ensures t.maxSupply <==> fr.maxSupply.Some?
    ensures t.exchangeRate <==> fr.exchangeRate.Some?
    ensures t.mintingEnabled <==> fr.mintingEnabled.Some?
  {
    FunctionTests(
      fr.name.Some?, fr.symbol.Some?, fr.decimals.Some?, fr.totalSupply.Some?,
      fr.maxSupply.Some?, fr.exchangeRate.Some?, fr.mintingEnabled.Some?)
  }

  /** The object the `catch` block returns for a thrown error. */
  function Thrown(chainId: int, message: string, now: string): (v: Verification)
    ensures !v.isDeployed && v.error == Some(message)
  {
    Verification(chainId, Lookup(AppConstants.ContractAddresses, chainId), false, Some(message), None, None, Some(now), None)
  }

  /** What follows the client creation: the bytecode check and then the field reads. */
  function AfterBytecode(
    chainId: int, address: string, info: DeploymentSync.DeploymentInfo,
    rpc: ChainRpc, fmt: nat -> string, now: string): Verification
  {
    match rpc.bytecode
    case Err(message) => Thrown(chainId, message, now)
    case Ok(code) =>
      if !Truthy(code) || code.value == "0x" then
        Verification(chainId, Some(address), false, Some(NotFoundError), None, None, None, None)
      else
        Verification(chainId, Some(address), true, None, Some(InfoOf(rpc.fields, fmt)), Some(info), Some(now), Some(TestsOf(rpc.fields)))
  }

  /** `verifyContractDeployment(chainId)`, with the deployment record taken from the
      deployment-sync module (see the as-written variant below). */
  function VerifyContractDeployment(
    files: DeploymentSync.DeploymentFiles, chainId: int, rpc: ChainRpc,
    fmt: nat -> string, now: string): (v: Verification)
    ensures v.chainId == chainId
    ensures Unconfigured(chainId) ==> v == Verification(chainId, None, false, Some(NotConfiguredError), None, None, None, None)
    ensures !Unconfigured(chainId) && rpc.bytecode.Err? ==> v == Thrown(chainId, rpc.bytecode.message, now)
    ensures !Unconfigured(chainId) && rpc.bytecode.Ok? && (!Truthy(rpc.bytecode.value) || rpc.bytecode.value.value == "0x") ==>
      !v.isDeployed && v.error == Some(NotFoundError) && v.contractInfo.None? && v.functionTests.None?
    ensures v.isDeployed <==> !Unconfigured(chainId) && rpc.bytecode.Ok? && Truthy(rpc.bytecode.value) && rpc.bytecode.value.value != "0x"
    ensures v.isDeployed ==>
      && v.contractInfo == Some(InfoOf(rpc.fields, fmt)) && v.functionTests == Some(TestsOf(rpc.fields))
      && v.deploymentInfo == Some(DeploymentSync.GetDeploymentInfo(files, chainId)) && v.error.None?
  {
    if Unconfigured(chainId) then
      Verification(chainId, None, false, Some(NotConfiguredError), None, None, None, None)
    else
      var address := AppConstants.ContractAddresses[chainId];
      if chainId !in ClientChains then Thrown(chainId, UnsupportedChainError(chainId), now)
      else AfterBytecode(chainId, address, DeploymentSync.GetDeploymentInfo(files, chainId), rpc, fmt, now)
  }

  /** The unsupported-chain error cannot arise: every configured chain has a client. */
  lemma ConfiguredChainsHaveClients(chainId: int)
    ensures !Unconfigured(chainId) ==> chainId in ClientChains
  {
  }

  /** A sentinel or missing address answers without touching the chain: the result is
      the same whatever the chain would have answered. */
  lemma SentinelMakesNoReads(
    files: DeploymentSync.DeploymentFiles, chainId: int, rpc1: ChainRpc, rpc2: ChainRpc,
    fmt: nat -> string, now: string)
    requires Unconfigured(chainId)
    ensures VerifyContractDeployment(files, chainId, rpc1, fmt, now) == VerifyContractDeployment(files, chainId, rpc2, fmt, now)
    ensures !VerifyContractDeployment(files, chainId, rpc1, fmt, now).isDeployed
  {
  }

  /** Empty bytecode answers before any field is read. */
  lemma EmptyCodeMakesNoFieldReads(
    files: DeploymentSync.DeploymentFiles, chainId: int, code: Option<string>,
    fields1: FieldReads, fields2: FieldReads, fmt: nat -> string, now: string)
    requires !Truthy(code) || code.value == "0x"
    ensures VerifyContractDeployment(files, chainId, ChainRpc(Ok(code), fields1), fmt, now)
         == VerifyContractDeployment(files, chainId, ChainRpc(Ok(code), fields2), fmt, now)
  {
  }

  /** A rejected name read changes the name and its test flag and nothing else. */
  lemma FailedReadIsIsolated(fr: FieldReads, fmt: nat -> string)
    ensures var a := InfoOf(fr, fmt); var b := InfoOf(fr.(name := None), fmt);
      b == a.(name := "Unknown")
    ensures TestsOf(fr.(name := None)) == TestsOf(fr).(name := false)
    ensures var a := InfoOf(fr, fmt); var b := InfoOf(fr.(mintingEnabled := None), fmt);
      b == a.(mintingEnabled := false)
    ensures var a := InfoOf(fr, fmt); var b := InfoOf(fr.(exchangeRate := None), fmt);
      b == a.(exchangeRate := "0")
  {
  }

  // ---------------------------------------------------------------------------
  // The code as written imports `getDeploymentInfo` from `./constants`, which exports no
  // such function; the call between client creation and the bytecode read therefore
  // throws a TypeError, which the `catch` block turns into a failed verification. This is
  // the behaviour under a bundler, whose exact wording of the message varies; native ES
  // modules would refuse to link the file instead.

  /** The TypeError's message, in its plain wording. */
  const DeploymentInfoTypeError: string := "getDeploymentInfo is not a function"

  function VerifyContractDeploymentAsWritten(chainId: int, rpc: ChainRpc, fmt: nat -> string, now: string): (v: Verification)
    ensures !v.isDeployed
  {
    if Unconfigured(chainId) then
      Verification(chainId, None, false, Some(NotConfiguredError), None, None, None, None)
    else if chainId !in ClientChains then Thrown(chainId, UnsupportedChainError(chainId), now)
    else Thrown(chainId, DeploymentInfoTypeError, now)
  }

  /** As written, a healthy Hedera-testnet contract is reported as failed with the
      TypeError; with the import corrected it is reported as deployed. */
  lemma AsWrittenReportsHealthyContractAsFailed(files: DeploymentSync.DeploymentFiles, fr: FieldReads, fmt: nat -> string, now: string)
    ensures var rpc := ChainRpc(Ok(Some("0x6080")), fr);
      && VerifyContractDeploymentAsWritten(296, rpc, fmt, now).error == Some(DeploymentInfoTypeError)
      && VerifyContractDeployment(files, 296, rpc, fmt, now).isDeployed
  {
  }

  // ---------------------------------------------------------------------------

  datatype BalanceQuery = BalanceQuery(
    chainId: int, address: string, balance: string, rawBalance: string, success: bool, error: Option<string>)

  /** `testBalanceQuery`; `read` is the outcome of `balanceOf(address)`. */
  function TestBalanceQuery(chainId: int, address: string, read: Result<nat>, fmt: nat -> string): (q: BalanceQuery)
    ensures q.success <==> !Unconfigured(chainId) && read.Ok?
    ensures q.success ==> q.balance == fmt(read.value) && q.rawBalance == NatToString(read.value) && q.error.None?
    ensures !q.success ==> q.balance == "0" && q.rawBalance == "0" && q.error.Some?
    ensures Unconfigured(chainId) ==> q.error == Some(NotDeployedError)
  {
    if Unconfigured(chainId) then BalanceQuery(chainId, address, "0", "0", false, Some(NotDeployedError))
    else if chainId !in ClientChains then BalanceQuery(chainId, address, "0", "0", false, Some(UnsupportedChainError(chainId)))
    else match read
      case Err(message) => BalanceQuery(chainId, address, "0", "0", false, Some(message))
      case Ok(b) => BalanceQuery(chainId, address, fmt(b), NatToString(b), true, None)
  }

  /** The table keys in `Object.entries` order. */
  const AddressOrder: seq<int> := [1, 295, 296, 31337, 11155111]

  /** The keys whose address in `table` is not the sentinel, in order (the filtered entries). */
  function NonSentinel(table: map<int, string>, keys: seq<int>): (r: seq<int>)
    requires forall i :: 0 <= i < |keys| ==> keys[i] in table
    ensures forall k :: k in r <==> k in keys && table[k] != ZeroAddress
    ensures |r| <= |keys|
  {
    if keys == [] then []
    else if table[keys[0]] != ZeroAddress then [keys[0]] + NonSentinel(table, keys[1..])
    else NonSentinel(table, keys[1..])
  }

  function DeployedChains(): seq<int> {
    NonSentinel(AppConstants.ContractAddresses, AddressOrder)
  }

  /** Ethereum and Hedera mainnet hold the sentinel; the other three hold addresses. */
  lemma SentinelEntries()
    ensures AppConstants.ContractAddresses.Keys == {1, 295, 296, 31337, 11155111}
    ensures AppConstants.ContractAddresses[1] == ZeroAddress
    ensures AppConstants.ContractAddresses[295] == ZeroAddress
    ensures AppConstants.ContractAddresses[296] != ZeroAddress
    ensures AppConstants.ContractAddresses[31337] != ZeroAddress
    ensures AppConstants.ContractAddresses[11155111] != ZeroAddress
  {
    var c := AppConstants.ContractAddresses;
    assert c[11155111] != ZeroAddress;
    assert c[31337] != ZeroAddress;
  }

  /** Filtering a table with this sentinel layout keeps the last three keys of `AddressOrder`. */
  lemma NonSentinelOfLayout(table: map<int, string>)
    requires table.Keys == {1, 295, 296, 31337, 11155111}
    requires table[1] == ZeroAddress && table[295] == ZeroAddress
    requires table[296] != ZeroAddress && table[31337] != ZeroAddress && table[11155111] != ZeroAddress
    ensures NonSentinel(table, AddressOrder) == [296, 31337, 11155111]
  {
    assert NonSentinel(table, [11155111]) == [11155111];
    assert NonSentinel(table, [31337, 11155111]) == [31337, 11155111];
    assert NonSentinel(table, [296, 31337, 11155111]) == [296, 31337, 11155111];
    assert NonSentinel(table, [295, 296, 31337, 11155111]) == [296, 31337, 11155111];
  }

  /** The chains `verifyAllContracts` visits: the three with a recorded address. */
  lemma DeployedChainsAre()
    ensures DeployedChains() == [296, 31337, 11155111]
  {
    SentinelEntries();
    NonSentinelOfLayout(AppConstants.ContractAddresses);
  }

  /** `results.filter(r => r.isDeployed).length`. */
  function CountDeployed(vs: seq<Verification>): nat {
    CountWhere(vs, (v: Verification) => v.isDeployed)
  }

  /** `results.filter(r => !r.isDeployed).length`. */
  function CountFailed(vs: seq<Verification>): nat {
    CountWhere(vs, (v: Verification) => !v.isDeployed)
  }

  lemma CountsPartition(vs: seq<Verification>)
    ensures CountDeployed(vs) + CountFailed(vs) == |vs|
  {
    CountComplement(vs, (v: Verification) => v.isDeployed, (v: Verification) => !v.isDeployed);
  }

  datatype AllVerifications = AllVerifications(
    totalNetworks: nat, successfulVerifications: nat, failedVerifications: nat,
    results: seq<Verification>, verificationTime: string)

  /** `verifyAllContracts`: one verification per non-sentinel entry, in entry order. Built on
      the corrected verifier `VerifyContractDeployment` (the import fixed), not on
      `VerifyContractDeploymentAsWritten`, under which every result is not deployed. */
  function VerifyAllContracts(
    files: DeploymentSync.DeploymentFiles, rpcs: int -> ChainRpc,
    fmt: nat -> string, now: string): (a: AllVerifications)
    ensures a.totalNetworks == |a.results| == |DeployedChains()|
    ensures forall i :: 0 <= i < |a.results| ==>
      a.results[i] == VerifyContractDeployment(files, DeployedChains()[i], rpcs(DeployedChains()[i]), fmt, now)
    ensures a.successfulVerifications + a.failedVerifications == a.totalNetworks
    ensures a.successfulVerifications == CountDeployed(a.results) && a.failedVerifications == CountFailed(a.results)
  {
    var chains := DeployedChains();
    var results := seq(|chains|, i requires 0 <= i < |chains| => VerifyContractDeployment(files, chains[i], rpcs(chains[i]), fmt, now));
    CountsPartition(results);
    AllVerifications(|chains|, CountDeployed(results), CountFailed(results), results, now)
  }

  datatype SimulationOk = SimulationOk(gas: Option<nat>, result: Option<string>)

  datatype MintTest = MintTest(
    chainId: int, amount: string, success: bool,
    gasEstimate: Option<string>, result: Option<string>, error: Option<string>)

  /** The SyntaxError `BigInt` throws for text that is not an integer, as V8 words it. */
  function BigIntSyntaxError(amount: string): string {
    "Cannot convert " + amount + " to a BigInt"
  }

  /** `testMintSimulation`; `sim` is the outcome of `simulateContract`. The call's
      arguments, `BigInt(amount)` among them, are built before the simulation runs. */
  function TestMintSimulation(chainId: int, amount: string, sim: Result<SimulationOk>): (t: MintTest)
    ensures t.chainId == chainId && t.amount == amount
    ensures t.success <==> !Unconfigured(chainId) && BigIntAccepts(amount) && sim.Ok?
    ensures Unconfigured(chainId) ==> t.error == Some(NotDeployedError)
    ensures !Unconfigured(chainId) && !BigIntAccepts(amount) ==> t.error == Some(BigIntSyntaxError(amount))
    ensures !Unconfigured(chainId) && BigIntAccepts(amount) && sim.Err? ==> t.error == Some(sim.message)
    ensures t.success ==> t.gasEstimate.Some? && t.result.Some? && t.error.None?
    ensures t.success && sim.value.gas.Some? ==> t.gasEstimate == Some(NatToString(sim.value.gas.value))
    ensures t.success && sim.value.gas.None? ==> t.gasEstimate == Some("Unknown")
    ensures t.success && Truthy(sim.value.result) ==> t.result == sim.value.result
    ensures t.success && !Truthy(sim.value.result) ==> t.result == Some("Success")
    ensures !t.success ==> t.gasEstimate.None? && t.result.None? && t.error.Some?
  {
    if Unconfigured(chainId) then MintTest(chainId, amount, false, None, None, Some(NotDeployedError))
    else if chainId !in ClientChains then MintTest(chainId, amount, false, None, None, Some(UnsupportedChainError(chainId)))
    else if !BigIntAccepts(amount) then MintTest(chainId, amount, false, None, None, Some(BigIntSyntaxError(amount)))
    else match sim
      case Err(message) => MintTest(chainId, amount, false, None, None, Some(message))
      case Ok(s) =>
        MintTest(chainId, amount, true,
          Some(if s.gas.Some? then NatToString(s.gas.value) else "Unknown"),
          Some(OrElse(s.result, "Success")), None)
  }

  datatype ContractStatus = ContractStatus(verification: Verification, mintTest: Option<MintTest>, status: Option<string>)

  /** `getContractStatus`: a failed verification is returned unchanged; otherwise the
      mint simulation and the 'operational' status are added. Built on the corrected
      verifier `VerifyContractDeployment`; as written, every status is the failed one. */
  function GetContractStatus(
    files: DeploymentSync.DeploymentFiles, chainId: int, rpc: ChainRpc, sim: Result<SimulationOk>,
    fmt: nat -> string, now: string): (s: ContractStatus)
    ensures s.verification == VerifyContractDeployment(files, chainId, rpc, fmt, now)
    ensures !s.verification.isDeployed ==> s.mintTest.None? && s.status.None?
    ensures s.verification.isDeployed ==> s.mintTest == Some(TestMintSimulation(chainId, "1", sim)) && s.status == Some("operational")
    ensures s.verification.isDeployed ==> (s.mintTest.value.success <==> sim.Ok?)
  {
    BigIntAcceptsIntegers();
    var v := VerifyContractDeployment(files, chainId, rpc, fmt, now);
    if !v.isDeployed then ContractStatus(v, None, None)
    else ContractStatus(v, Some(TestMintSimulation(chainId, "1", sim)), Some("operational"))
  }

  const ConnectivityAdvice: string :=
    "Some contracts failed verification. " + "Check network connectivity and contract addresses."

  function MintingAdvice(n: nat): string {
    "Minting is disabled on " + NatToString(n) + " network(s). Enable minting if needed."
  }

  /** `r.isDeployed && r.contractInfo?.mintingEnabled === false`. */
  predicate MintingDisabled(v: Verification) {
    v.isDeployed && v.contractInfo.Some? && !v.contractInfo.value.mintingEnabled
  }

  function CountMintingDisabled(vs: seq<Verification>): (n: nat)
    ensures n <= CountDeployed(vs)
    ensures n > 0 <==> exists i :: 0 <= i < |vs| && MintingDisabled(vs[i])
  {
    if vs == [] then 0
    else
      var rest := CountMintingDisabled(vs[1..]);
      assert forall i :: 1 <= i < |vs| ==> vs[i] == vs[1..][i - 1];
      (if MintingDisabled(vs[0]) then 1 else 0) + rest
  }

  datatype ReportSummary = ReportSummary(
    totalNetworks: nat, deployedContracts: nat, failedVerifications: nat, overallStatus: string)

  datatype Report = Report(
    summary: ReportSummary, networks: seq<Verification>, recommendations: seq<string>, generatedAt: string)

  /** The recommendations, as pushed: connectivity advice first when any verification
      failed, then the minting advice quoting the number of networks with minting off. */
  function Recommendations(failed: nat, disabled: nat): (r: seq<string>)
    ensures ConnectivityAdvice in r <==> failed > 0
    ensures failed > 0 ==> r[0] == ConnectivityAdvice
    ensures (exists n :: MintingAdvice(n) in r) <==> disabled > 0
    ensures forall n :: MintingAdvice(n) in r ==> n == disabled
    ensures |r| == (if failed > 0 then 1 else 0) + (if disabled > 0 then 1 else 0)
  {
    forall n ensures MintingAdvice(n) != ConnectivityAdvice {
      var m := MintingAdvice(n);
      assert m == "Minting is disabled on " + (NatToString(n) + " network(s). Enable minting if needed.");
      assert m[0] == 'M' && ConnectivityAdvice[0] == 'S';
    }
    forall n | MintingAdvice(n) == MintingAdvice(disabled) ensures n == disabled {
      MintingAdviceInjective(n, disabled);
    }
    (if failed > 0 then [ConnectivityAdvice] else [])
      + (if disabled > 0 then [MintingAdvice(disabled)] else [])
  }

  /** The body of `generateVerificationReport` after the verifications are in: the
      summary, then the recommendations pushed one by one. */
  method AssembleReport(all: AllVerifications, now: string) returns (report: Report)
    ensures report.networks == all.results && report.generatedAt == now
    ensures report.summary == ReportSummary(all.totalNetworks, all.successfulVerifications, all.failedVerifications,
      if all.failedVerifications == 0 then "healthy" else "issues-detected")
    ensures report.recommendations == Recommendations(all.failedVerifications, CountMintingDisabled(all.results))
  {
    var summary := ReportSummary(
      all.totalNetworks, all.successfulVerifications, all.failedVerifications,
      if all.failedVerifications == 0 then "healthy" else "issues-detected");
    var recommendations: seq<string> := [];
    if all.failedVerifications > 0 {
      recommendations := recommendations + [ConnectivityAdvice];
    }
    var disabled := CountMintingDisabled(all.results);
    if disabled > 0 {
      recommendations := recommendations + [MintingAdvice(disabled)];
    }
    report := Report(summary, all.results, recommendations, now);
  }

  /** `generateVerificationReport`: every deployed chain verified, then summarised. Built
      on `VerifyAllContracts`, and so on the corrected verifier, not the as-written one. */
  method GenerateVerificationReport(
    files: DeploymentSync.DeploymentFiles, rpcs: int -> ChainRpc,
    fmt: nat -> string, now: string) returns (report: Report)
    ensures var all := VerifyAllContracts(files, rpcs, fmt, now);
      && report.networks == all.results
      && report.generatedAt == now
      && report.summary == ReportSummary(all.totalNetworks, all.successfulVerifications, all.failedVerifications,
           if all.failedVerifications == 0 then "healthy" else "issues-detected")
      && report.summary.totalNetworks == |report.networks|
      && report.summary.deployedContracts == CountDeployed(report.networks)
      && report.summary.failedVerifications == CountFailed(report.networks)
      && report.summary.deployedContracts + report.summary.failedVerifications == report.summary.totalNetworks
      && (report.summary.overallStatus == "healthy" <==> all.failedVerifications == 0)
      && report.recommendations == Recommendations(all.failedVerifications, CountMintingDisabled(all.results))
  {
    var all := VerifyAllContracts(files, rpcs, fmt, now);
    report := AssembleReport(all, now);
  }

  /** The minting advice quotes its count unambiguously. */
  lemma MintingAdviceInjective(a: nat, b: nat)
    requires MintingAdvice(a) == MintingAdvice(b)
    ensures a == b
  {
    var pre := "Minting is disabled on ";
    var sa, sb := NatToString(a), NatToString(b);
    var post := " network(s). Enable minting if needed.";
    assert MintingAdvice(a) == pre + sa + post;
    assert MintingAdvice(b) == pre + sb + post;
    assert sa == MintingAdvice(a)[|pre|..|pre| + |sa|];
    assert sb == MintingAdvice(b)[|pre|..|pre| + |sb|];
    NatToStringInjective(a, b);
  }
}
