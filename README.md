# Amazon Coin: token ledger, network registry and deployment checks in Dafny

This project models the core of the Amazon Coin repository. The repository has a Hardhat
token contract ("Amazon Coin", symbol AC), a Next.js front end that reads the contract on
several chains, and deployment scripts for EVM and Hedera networks. The model has three
parts.

- **The token ledger** (`ledger.dfy`, `ledger_scenarios.dfy`). The Solidity source is not
  part of this model, so the contract is defined by what its unit and integration tests
  assert. `Ledger.TokenLedger` is a class over a balance map. It has a total supply capped
  at 10^27, an exchange rate, the ether it has collected, a minting switch, a pause switch,
  an owner and the contract's own native balance.
  - Every call returns `Ok(events)` or `Revert(reason)`. A revert leaves every field as it
    was (`unchanged(this)`).
  - The class invariant is that the balances sum to the total supply, which never exceeds
    the cap.
  - `LedgerScenarios` replays every test scenario as a method on a fresh ledger. Its
    `ensures` clauses are the test's expectations.
- **The network registry and configuration helpers**:
  - `app_constants.dfy`: the front end's chain-id tables (`lib/constants.js`);
  - `contract_constants.dfy`: the token constants and the chain table of the contract
    project;
  - `deployment_sync.dfy`: the deployment-address table and its summary;
  - `wallet_config.dfy`: network types and private-key selection from the environment;
  - `network_utils.dfy`: the deployment scripts' network profiles and URL builders;
  - `hardhat_networks.dfy`: the Hardhat `networks` table;
  - `hedera_deploy.dfy`: the Hedera deployment script's guard, gas arithmetic and HashScan
    links.
- **The deployment verifier and the pre-flight validator**:
  - `contract_verification.dfy`: the front end's on-chain verifier and its report;
  - `deployment_validation.dfy`: the script that collects issues and warnings before a
    deployment.
  - Every RPC answer is an input: bytecode, the seven field reads, balance reads, mint
    simulation, connectivity and the deployer balance. Thrown errors are `Err` values.

Shared modules:
- `wrappers.dfy` holds `Option` and `Result`.
- `js_text.dfy` holds the JavaScript rules the configuration code relies on:
  - `||` and truthiness: an empty string is falsy, the zero-address string is truthy;
  - `process.env` as a map from name to text;
  - decimal rendering of numbers;
  - the shape check `0x` plus 40 hex digits.

Values the model cannot compute are function parameters:
- the ethers and viem decimal formatters (`formatEther`, `formatUnits`);
- the ledger's `calculateTokenAmount` formula;
- the time stamp.

## Model

| member | source | states |
|---|---|---|
| ContractConstants.InitialSupply | smart-contract/config/constants.js:10-12 | the owner's initial balance is 10% of the 10^9·10^18 cap |
| ContractConstants.GetNetworkConfig | smart-contract/config/constants.js:195-197 | the table entry for the nine listed ids, the hardhat (31337) entry for any other id; it never fails |
| ContractConstants.NetworkConfigIds | smart-contract/config/constants.js:16-80 | the chain table is keyed by exactly 1, 5, 11155111, 137, 80001, 295, 296, 297, 31337 |
| ContractConstants.GasLimitAndConfirmations | smart-contract/config/constants.js:16-80 | every entry, and so every lookup, has gas limit 8,000,000; confirmations are 2 exactly for chains 1 and 137 |
| ContractConstants.HederaEntries | smart-contract/config/constants.js:53-72 | 295, 296, 297 are hedera, hederaTestnet, hederaPreviewnet, each at 10 gwei |
| ContractConstants.ValidateConfig | smart-contract/config/constants.js:200-204 | configuration validation always succeeds |
| AppConstants.GetContractAddress | lib/constants.js:6-22 | the table entry for a listed chain id, the 296 address for any other |
| AppConstants.SentinelIsNotReplaced | lib/constants.js:9-21 | chains 295 and 1 get the zero-address sentinel itself (a truthy string), not the fallback; an unlisted chain gets the real 296 address |
| AppConstants.GetNetworkPricing | lib/constants.js:33-69 | the pricing entry when present, else the 296 entry |
| AppConstants.GetBlockExplorerUrl | lib/constants.js:84-94 | the explorer entry when present, else the Hedera testnet HashScan URL |
| AppConstants.TablesShareKeys | lib/constants.js:6-90 | the address, pricing and explorer tables have the same five keys |
| AppConstants.ClassifiersDisjoint | lib/constants.js:75-81 | no chain is both Hedera and Ethereum; 31337 is neither |
| AppConstants.PricingCurrency | lib/constants.js:33-69 | the currency is HBAR exactly for Hedera ids (and for the 296 fallback), ETH for the other listed ids; every rate string is the same |
| AppConstants.RateTextIsInitialRate | lib/constants.js:33-64 | the pricing rate string is the decimal text of the contract's initial rate 10^14 |
| AppConstants.SupportedNetworksShape | lib/constants.js:129-158 | four networks 296, 295, 11155111, 1 in that order, no 31337, and the Hedera flag set exactly where the classifier holds |
| DeploymentSync.DeployedAddresses | lib/deployment-sync.js:16-27 | the address table has the five chain keys and no empty entry |
| DeploymentSync.AddressFallbacks | lib/deployment-sync.js:16-27 | 295 and 1 are always the sentinel; 296 falls back to the sentinel and 31337 to the default hardhat address when the deployment file has no address; Sepolia is fixed |
| DeploymentSync.DeploymentMetadata | lib/deployment-sync.js:30-56 | metadata exists exactly for 296 and 31337; 296's is its deployment record including `contractInfo` and `burnOperations`; 31337's keeps the record's fields and `contractInfo` but has no Hedera URLs and no `burnOperations` |
| DeploymentSync.ChainOrderIsKeyOrder | lib/deployment-sync.js:16-27 | the model's entry order lists exactly the table's keys, ascending, as JavaScript enumerates integer keys |
| DeploymentSync.ValidationOf | lib/deployment-sync.js:62-74 | one record per chain: deployed iff the address is truthy and not the sentinel; metadata iff the chain is 296 or 31337, otherwise network "unknown" and null date and URL |
| DeploymentSync.ValidateDeployments | lib/deployment-sync.js:59-78 | the loop pushes exactly one record per table entry, in entry order |
| DeploymentSync.GetDeploymentInfo | lib/deployment-sync.js:81-87 | the table's address and metadata for the chain; deployed iff the address is not the sentinel; an unlisted chain has no address and counts as deployed |
| DeploymentSync.DeployedAmong | lib/deployment-sync.js:90-98 | every listed entry is a non-sentinel key with its address and metadata, and every non-sentinel key is listed |
| DeploymentSync.DeployedAmongOfLayout | lib/deployment-sync.js:90-98 | with both mainnets on the sentinel, the filter keeps 296, 31337 and 11155111, each when not the sentinel, in that order |
| DeploymentSync.DeployedNetworksAre | lib/deployment-sync.js:90-98 | `getDeployedNetworks` is exactly Hedera testnet and hardhat when their addresses are not the sentinel, then Sepolia with no metadata, in ascending key order, with no duplicates |
| DeploymentSync.GetContractConfig | lib/deployment-sync.js:101-116 | null exactly when the deployment info says not deployed; otherwise that address, the chain, the deployment metadata, and its explorer URL and timestamp when the metadata is present (`metadata?.` gives undefined otherwise) |
| DeploymentSync.UnknownChainConfig | lib/deployment-sync.js:101-116 | an unlisted chain gets a configuration with no address; 295 and 1 get none |
| DeploymentSync.VerifyContractDeployment | lib/deployment-sync.js:119-133 | valid iff the address is "0x" followed by exactly 40 hex digits; metadata iff 296 or 31337 |
| DeploymentSync.DeployedPlusPending | lib/deployment-sync.js:147-159 | over any key list, deployed entries plus pending validations make up all keys |
| DeploymentSync.PendingComplementsDeployed | lib/deployment-sync.js:147-159 | deployed networks plus pending deployments equal the number of table entries |
| JsText.PropertyValue | lib/deployment-sync.js:151-158 | an object built from a literal holds, under each key, the value of the last property naming that key, and nothing under a key no property names |
| DeploymentSync.SummaryLiteral | lib/deployment-sync.js:151-158 | the summary literal has six properties and names `deployedNetworks` twice, second and fifth |
| DeploymentSync.SummaryLiteralValues | lib/deployment-sync.js:151-158 | the object holds the total, the pending count, the validations and the time stamp under their keys, and the list under `deployedNetworks` |
| DeploymentSync.DuplicateKeyDropsCount | lib/deployment-sync.js:153-156 | the shorthand property overwrites the count: `deployedNetworks` holds the list, not the count |
| DeploymentSync.GetDeploymentSummary | lib/deployment-sync.js:147-159 | total is 5; the validations are one record per entry; `deployedNetworks` is the deployed list; its length + pending = total; each field is what the literal leaves under its key |
| DeploymentSync.DistinctKeys | lib/deployment-sync.js:151-158 | the summary's keys are pairwise different |
| DeploymentSync.CorrectedSummaryLiteral | lib/deployment-sync.js:151-158 | the corrected literal names every key once |
| DeploymentSync.CorrectedSummaryLiteralValues | lib/deployment-sync.js:151-158 | the corrected object keeps the count under `deployedNetworks` and the list under `deployedList` |
| DeploymentSync.CorrectedSummaryCounts | lib/deployment-sync.js:147-159 | in the corrected summary of the table, deployed count + pending count = 5, and the list is kept |
| ContractVerification.VerifyContractDeployment | lib/contract-verification.js:39-149 | a missing or sentinel address answers "Contract address not configured"; a thrown bytecode read gives its message; empty or "0x" code answers "Contract not found at address" with no field data; deployed iff code is present, in which case it carries the defaulted fields, the read flags and the deployment record |
| ContractVerification.ConfiguredChainsHaveClients | lib/contract-verification.js:9-50 | every configured chain has a client, so the unsupported-chain error cannot arise after the sentinel check |
| ContractVerification.SentinelMakesNoReads | lib/contract-verification.js:41-48 | with a sentinel address the result does not depend on anything the chain would answer |
| ContractVerification.EmptyCodeMakesNoFieldReads | lib/contract-verification.js:54-64 | with empty code the result does not depend on the field reads |
| ContractVerification.InfoOf | lib/contract-verification.js:114-122 | each field takes its own default when its read was rejected: "Unknown", 18, "0" or false |
| ContractVerification.TestsOf | lib/contract-verification.js:131-139 | each function-test flag is set iff its read succeeded |
| ContractVerification.FailedReadIsIsolated | lib/contract-verification.js:114-139 | a rejected read changes its own field and flag and nothing else |
| ContractVerification.Thrown | lib/contract-verification.js:141-149 | a thrown error gives a not-deployed result carrying the message |
| ContractVerification.VerifyContractDeploymentAsWritten | lib/contract-verification.js:6-51 | as written, no configured chain is ever reported as deployed |
| ContractVerification.AsWrittenReportsHealthyContractAsFailed | lib/contract-verification.js:6-51 | a healthy 296 contract is reported failed with the TypeError as written, deployed once corrected |
| ContractVerification.TestBalanceQuery | lib/contract-verification.js:155-188 | success iff the address is configured and the read succeeded; on failure balance and raw balance are "0" and an error is set |
| ContractVerification.NonSentinel | lib/contract-verification.js:194-196 | the filtered chains are exactly the keys whose address is not the sentinel |
| ContractVerification.SentinelEntries | lib/constants.js:6-17 | chains 1 and 295 hold the sentinel; 296, 31337 and 11155111 hold addresses |
| ContractVerification.NonSentinelOfLayout | lib/contract-verification.js:194-196 | filtering a table with that layout keeps 296, 31337, 11155111 in order |
| ContractVerification.DeployedChainsAre | lib/contract-verification.js:194-196 | the verifier visits exactly 296, 31337, 11155111 |
| JsText.CountWhere | lib/contract-verification.js:210-211 | a filter's length never exceeds the list's |
| JsText.CountComplement | lib/contract-verification.js:210-211 | a filter and the filter of its negation split the list between them |
| ContractVerification.CountsPartition | lib/contract-verification.js:210-211 | successful + failed = number of results |
| ContractVerification.VerifyAllContracts | lib/contract-verification.js:193-215 | one verification per non-sentinel chain, in order, by the corrected verifier; total is their count; successful + failed = total |
| ContractVerification.TestMintSimulation | lib/contract-verification.js:220-257 | success iff the address is configured, `BigInt(amount)` parses and the simulation succeeded; the errors in that order are "Contract not deployed on this network", the SyntaxError and the simulation's message; on success the gas estimate is the decimal text of the simulated gas, or "Unknown" without one, and the result is the simulation's result when truthy, else "Success"; a failure carries only the error |
| JsText.BigIntAcceptsIntegers | lib/contract-verification.js:234 | `BigInt` reads "1", "-7", "0x1F", " 42 " and the empty text |
| JsText.BigIntRejectsNonIntegers | lib/contract-verification.js:234 | `BigInt` throws on "1.5", "1e3", "abc" and "-0x1" |
| JsText.TrimSpaceOfTrimmed | lib/contract-verification.js:234 | text with no surrounding white space is parsed as it stands |
| ContractVerification.GetContractStatus | lib/contract-verification.js:262-277 | built on the corrected verifier: a failed verification is returned unchanged; a deployed one gets the mint test of "1", which succeeds iff the simulation does, and status "operational" |
| ContractVerification.CountMintingDisabled | lib/contract-verification.js:302-304 | positive iff some result is deployed with minting off; at most the deployed count |
| ContractVerification.Recommendations | lib/contract-verification.js:297-308 | the connectivity advice is present iff something failed and then comes first; the minting advice is present iff minting is off somewhere and quotes exactly that count; there is nothing else |
| ContractVerification.MintingAdviceInjective | lib/contract-verification.js:307 | the minting advice determines the count it quotes |
| ContractVerification.AssembleReport | lib/contract-verification.js:285-310 | the summary and status ("healthy" iff nothing failed), then the recommendations pushed in order |
| ContractVerification.GenerateVerificationReport | lib/contract-verification.js:282-311 | built on the corrected verifier: the networks are its results; the summary's total, deployed and failed counts are the number of results and the counts of deployed and failed ones, so deployed + failed = total; "healthy" iff no failure, else "issues-detected"; the time stamp is `now`; recommendations as above |
| WalletConfig.NetworkTypeTable | smart-contract/config/wallet-config.js:16-33 | ten EVM names map to evm, three Hedera names to hedera, and the map has no other key |
| WalletConfig.GetNetworkType | smart-contract/config/wallet-config.js:40-46 | the mapped type for a known name, the "Unknown network" error otherwise |
| WalletConfig.IsHederaNetwork | smart-contract/config/wallet-config.js:53-55 | fails on unknown names, otherwise true iff the type is hedera |
| WalletConfig.IsEvmNetwork | smart-contract/config/wallet-config.js:62-64 | fails on unknown names, otherwise true iff the type is evm |
| WalletConfig.ClassifiersComplementary | smart-contract/config/wallet-config.js:53-64 | both fail together, and on known names exactly one holds |
| WalletConfig.GetPrivateKeyForNetwork | smart-contract/config/wallet-config.js:72-102 | Hedera: HEDERA_PRIVATE_KEY or an error; EVM: EVM_PRIVATE_KEY, then PRIVATE_KEY, or an error; unknown names fail; a returned key is never empty |
| WalletConfig.HederaIgnoresEvmKeys | smart-contract/config/wallet-config.js:75-83 | a Hedera lookup is unaffected by the EVM keys, so it never falls back to them |
| WalletConfig.EvmIgnoresHederaKey | smart-contract/config/wallet-config.js:84-99 | an EVM lookup is unaffected by HEDERA_PRIVATE_KEY |
| WalletConfig.KeyLookupReadsOnlyKeyVariables | smart-contract/config/wallet-config.js:72-102 | the lookup depends on the three key variables only |
| WalletConfig.GetAccountsForNetwork | smart-contract/config/wallet-config.js:109-126 | with MNEMONIC set, the mnemonic with 20 accounts for any name; otherwise the one key, or none when the lookup fails |
| WalletConfig.ValidatePrivateKeyConfig | smart-contract/config/wallet-config.js:133-141 | true iff the key lookup succeeds |
| WalletConfig.NamesOfType | smart-contract/config/wallet-config.js:155-161 | the filter keeps exactly the names of the given type |
| WalletConfig.NamesOfTypeKeepsPrefix | smart-contract/config/wallet-config.js:155-161 | filtering a list whose head is all of one type and whose tail has none keeps the head |
| WalletConfig.SkipPrefix | smart-contract/config/wallet-config.js:155-161 | names of another type before the rest do not change the filter |
| WalletConfig.NamesPartition | smart-contract/config/wallet-config.js:147-167 | filtering the map's keys gives the EVM names and the Hedera names in order |
| WalletConfig.GetAvailableNetworks | smart-contract/config/wallet-config.js:147-167 | total = evm + hedera; all EVM names iff an EVM key or MNEMONIC is set, all Hedera names iff HEDERA_PRIVATE_KEY or MNEMONIC is set, none otherwise |
| NetworkUtils.GetNetworkConfig | smart-contract/scripts/utils/network-config.js:141-147 | the profile for the 13 names, the "not found" error otherwise |
| NetworkUtils.IsTestnet | smart-contract/scripts/utils/network-config.js:154-157 | fails outside the table, otherwise true exactly for the seven test networks |
| NetworkUtils.GetExplorerUrl | smart-contract/scripts/utils/network-config.js:164-167 | the profile's explorer, an error outside the table; of the 13 profiles only hardhat has an empty explorer |
| NetworkUtils.GetContractUrl | smart-contract/scripts/utils/network-config.js:175-179 | explorer + "/address/" + address, "" for hardhat, an error outside the table |
| NetworkUtils.GetTransactionUrl | smart-contract/scripts/utils/network-config.js:187-191 | explorer + "/tx/" + hash, "" for hardhat, an error outside the table |
| NetworkUtils.ChainIdsDistinct | smart-contract/scripts/utils/network-config.js:8-134 | distinct names have distinct chain ids |
| NetworkUtils.HbarExactlyOnHedera | smart-contract/scripts/utils/network-config.js:8-134 | the currency is HBAR exactly for chains 295, 296, 297 |
| NetworkUtils.FormatAddress | smart-contract/scripts/utils/network-config.js:199-203 | "" for a falsy address; unchanged up to 2·len+2 characters; otherwise the first len+2, "...", and the last len (the whole string when len is 0, as `slice(-0)` does) |
| NetworkUtils.SliceFromEnd | smart-contract/scripts/utils/network-config.js:202 | `slice(-n)`: the last n characters, or the whole string for n = 0 |
| NetworkUtils.FormatAddressShortens | smart-contract/scripts/utils/network-config.js:199-203 | when len > 0 and the address is longer than 2·len+5, the shortened address is shorter than the original |
| NetworkUtils.TruncDiv | smart-contract/scripts/utils/network-config.js:253 | BigNumber division truncates toward zero: for x >= 0 the quotient q satisfies q·d <= x < (q+1)·d; for x < 0 it is non-positive and -q·d <= -x < (-q+1)·d |
| NetworkUtils.EstimateGasWithBuffer | smart-contract/scripts/utils/network-config.js:251-254 | estimate·(100+buffer)/100 truncated, never below the estimate for a non-negative buffer |
| NetworkUtils.EstimateGasExamples | smart-contract/scripts/utils/network-config.js:251-254 | the default 20% buffer gives 120,000 for 100,000 and 8 for 7 |
| HardhatNetworks.RemoteAccounts | smart-contract/config/networks.js:23 | the single PRIVATE_KEY account when that variable is set, none otherwise |
| HardhatNetworks.Networks | smart-contract/config/networks.js:5-124 | the table has hardhat and the nine remote entries, each built from its own settings and the environment |
| HardhatNetworks.GetNetworkConfig | smart-contract/config/networks.js:127-133 | an entry for the ten names, the "not found" error otherwise |
| HardhatNetworks.NoHederaEntry | smart-contract/config/networks.js:5-133 | every Hedera name fails |
| HardhatNetworks.RemoteEntriesFollowEnv | smart-contract/config/networks.js:18-123 | each remote URL is its variable when set and non-empty, else its default; accounts follow PRIVATE_KEY; gas is 8,000,000 |
| HardhatNetworks.IsTestnet | smart-contract/config/networks.js:136-139 | true exactly for goerli, sepolia, mumbai, bscTestnet, hardhat; never an error |
| HardhatNetworks.GetExplorerUrl | smart-contract/config/networks.js:142-155 | the explorer for the nine public names, "" for anything else, including hardhat |
| HardhatNetworks.ExplorersAgreeWithProfiles | smart-contract/config/networks.js:142-155 | each explorer equals the deployment scripts' profile explorer for the same name |
| HardhatNetworks.HederaTestnetClassification | smart-contract/config/networks.js:136-139 | hederaTestnet is not a testnet here though the scripts' profiles call it one |
| DeploymentValidation.HederaNamesHaveRpcVars | smart-contract/scripts/utils/validate-deployment.js:62-68 | every Hedera name has an RPC variable in the script's table |
| DeploymentValidation.MinBalance | smart-contract/scripts/utils/validate-deployment.js:105-107 | 5·10^18 for Hedera targets, 10^17 for EVM targets |
| DeploymentValidation.ValidateDeployment | smart-contract/scripts/utils/validate-deployment.js:15-178 | an unknown name throws the "Unknown network" error (after recording its issue); otherwise the issues and warnings are those of the checks in program order, passed iff there is no issue, and mainnet is flagged for the six mainnets |
| DeploymentValidation.CheckEnvironment | smart-contract/scripts/utils/validate-deployment.js:50-81 | appends the missing-key issue and the RPC warning; passed iff no issue so far |
| DeploymentValidation.CheckFunds | smart-contract/scripts/utils/validate-deployment.js:83-120 | appends the connectivity issue and then the balance issue; passed iff no issue so far |
| DeploymentValidation.CheckSecurity | smart-contract/scripts/utils/validate-deployment.js:122-146 | appends the key warning and then the five mainnet warnings |
| DeploymentValidation.PassedIffNoFailedCheck | smart-contract/scripts/utils/validate-deployment.js:20-156 | no issue iff the key is valid, the key variables are present, the node answers and the balance reaches the minimum |
| DeploymentValidation.BalanceThreshold | smart-contract/scripts/utils/validate-deployment.js:105-116 | a successfully read balance records an issue iff it is below the minimum |
| DeploymentValidation.RpcVariableOnlyWarns | smart-contract/scripts/utils/validate-deployment.js:62-71 | setting or clearing a Hedera RPC variable never changes the issues |
| DeploymentValidation.IssuesReadOnlyKeyVariables | smart-contract/scripts/utils/validate-deployment.js:39-81 | the issues depend on the environment only through the four key variables |
| DeploymentValidation.KeyIssueReadsOnlyKeyVariables | smart-contract/scripts/utils/validate-deployment.js:39-48 | the key-configuration issue depends only on the three key variables |
| DeploymentValidation.EnvIssueReadsOnlyKeyVariables | smart-contract/scripts/utils/validate-deployment.js:56-81 | the missing-variables issue depends only on the four key variables |
| DeploymentValidation.MissingKeyMessages | smart-contract/scripts/utils/validate-deployment.js:56-81 | the exact missing-variables message for Hedera and for EVM targets, and when each appears |
| DeploymentValidation.MnemonicSuppressesLegacyWarning | smart-contract/scripts/utils/validate-deployment.js:126-136 | with MNEMONIC set the mnemonic warning appears and the legacy PRIVATE_KEY warning does not |
| DeploymentValidation.MainnetAddsFiveWarnings | smart-contract/scripts/utils/validate-deployment.js:139-146 | a mainnet name adds exactly the five mainnet warnings after the others; any other name adds none |
| DeploymentValidation.ValidateAndExit | smart-contract/scripts/utils/validate-deployment.js:183-197 | exit with code 1 iff the report did not pass; a passing mainnet report with warnings proceeds with caution; a thrown validation is rejected |
| HederaDeploy.GetHederaExplorerUrl | smart-contract/scripts/deploy/02-deploy-hedera-amazon-coin.js:178-187 | the HashScan base + "/contract/" + address for the three Hedera names, "" otherwise |
| HederaDeploy.GetHederaTransactionUrl | smart-contract/scripts/deploy/02-deploy-hedera-amazon-coin.js:192-201 | the same base + "/transaction/" + hash, "" otherwise |
| HederaDeploy.LinksExactlyForHederaNames | smart-contract/scripts/deploy/02-deploy-hedera-amazon-coin.js:178-201 | both helpers give a link exactly for the names the wallet configuration calls Hedera |
| HederaDeploy.BasesAgreeWithProfiles | smart-contract/scripts/deploy/02-deploy-hedera-amazon-coin.js:180-184 | each HashScan base is the profile explorer of the same network |
| HederaDeploy.HelpersDifferOnlyInPath | smart-contract/scripts/deploy/02-deploy-hedera-amazon-coin.js:178-201 | the two links share the base and the identifier and differ only in the path segment |
| HederaDeploy.PlanDeployment | smart-contract/scripts/deploy/02-deploy-hedera-amazon-coin.js:10-67 | `validateAndExit` decides first: exit 1 on a failed validation, its error when validation throws; then non-Hedera names throw the guard error, then a balance below 5·10^18 throws; otherwise the gas limit is estimate·150/100 truncated (3,000,000 when estimation throws) and the gas price is the configured one or 10 gwei |
| HederaDeploy.BalanceFloorIsDeadCode | smart-contract/scripts/deploy/02-deploy-hedera-amazon-coin.js:13-37 | when the validation read the same balance, the script's own balance error never arises: a low balance has already exited with code 1 |
| HederaDeploy.GasLimitBuffer | smart-contract/scripts/deploy/02-deploy-hedera-amazon-coin.js:54-66 | the gas limit is never below the estimate, and it is 4,500,000 when estimation fails |
| HederaDeploy.GuardAgreesWithValidator | smart-contract/scripts/deploy/02-deploy-hedera-amazon-coin.js:20-37 | the guard accepts exactly the wallet configuration's Hedera names, and the balance floor is the validator's Hedera minimum |
| JsText.DecimalRoundTrip | lib/contract-verification.js:120 | `toString()` of a number is a decimal rendering that reads back as the number |
| Ledger.EtherCost | smart-contract/test/unit/AmazonCoin.test.js:249-257 | the cost is amount·rate/10^18 rounded down |
| Ledger.EtherCostDoubles | smart-contract/test/integration/TokenIntegration.test.js:69-96 | doubling the rate doubles an exact cost |
| Ledger.WholeTokensAtInitialRate | smart-contract/test/unit/AmazonCoin.test.js:45-58 | whole tokens at the initial rate cost exactly tokens·10^14, with no rounding |
| Ledger.TinyPurchaseIsFree | smart-contract/test/integration/TokenIntegration.test.js:214-223 | an amount below one wei of cost rounds down to 0 |
| Ledger.SumUpdate | smart-contract/test/integration/TokenIntegration.test.js:38-43 | replacing one balance changes the sum of balances by the difference |
| Ledger.SumBound | smart-contract/test/unit/AmazonCoin.test.js:24-33 | no single balance exceeds the sum of all balances |
| Ledger.Move | smart-contract/test/integration/TokenIntegration.test.js:21-28 | a transfer lowers the sender by the amount, raises the recipient by it, and leaves every other balance |
| Ledger.MovePreservesSum | smart-contract/test/integration/TokenIntegration.test.js:21-43 | a transfer does not change the sum of balances |
| Ledger.TokenLedger.constructor | smart-contract/test/unit/AmazonCoin.test.js:13-41 | name "Amazon Coin", symbol AC, 18 decimals, the deployer as owner holding the whole initial supply of 10^26, the initial rate, minting on, not paused, nothing collected |
| Ledger.TokenLedger.GetRemainingSupply | smart-contract/test/unit/AmazonCoin.test.js:239-247 | remaining + total supply = the cap |
| Ledger.TokenLedger.BalanceWithinSupply | smart-contract/test/unit/AmazonCoin.test.js:24-33 | no balance exceeds the total supply, which never exceeds the cap |
| Ledger.TokenLedger.CapReasonIsNotPaymentReason | smart-contract/test/integration/TokenIntegration.test.js:209-211 | the cap reason differs from the payment reason |
| Ledger.TokenLedger.Credit | smart-contract/test/unit/AmazonCoin.test.js:141-151 | credits one holder and the supply by the amount, keeping the invariant |
| Ledger.TokenLedger.PurchaseTokens | smart-contract/test/unit/AmazonCoin.test.js:45-110 | succeeds iff not paused, amount > 0, minting on, within the cap and paid right; a revert carries one of the failing reasons (never the payment reason when the cap fails) and changes nothing; success credits the buyer, adds the payment to the collected total and the contract balance, and emits TokensPurchased |
| Ledger.TokenLedger.Receive | smart-contract/test/unit/AmazonCoin.test.js:114-137 | a direct payment credits `calculateTokenAmount(value)` and emits it; while paused it reverts with "Contract is paused" |
| Ledger.TokenLedger.Mint | smart-contract/test/unit/AmazonCoin.test.js:141-161 | owner only, minting on, within the cap, and not paused when the policy blocks minting while paused; credits the recipient and emits TokensPurchased with payment 0 |
| Ledger.TokenLedger.Transfer | smart-contract/test/integration/TokenIntegration.test.js:21-28 | blocked while paused or beyond the balance; otherwise moves exactly the amount and keeps the supply |
| Ledger.TokenLedger.Burn | smart-contract/test/integration/TokenIntegration.test.js:30-43 | lowers the holder's balance and the supply by the amount, or reverts beyond the balance |
| Ledger.TokenLedger.SetExchangeRate | smart-contract/test/unit/AmazonCoin.test.js:163-181 | owner only and rate > 0; sets the rate and emits (old, new) |
| Ledger.TokenLedger.SetMintingEnabled | smart-contract/test/unit/AmazonCoin.test.js:183-194 | owner only; sets the flag and emits it |
| Ledger.TokenLedger.Pause | smart-contract/test/unit/AmazonCoin.test.js:196-204 | owner only, when not paused; sets paused |
| Ledger.TokenLedger.Unpause | smart-contract/test/unit/AmazonCoin.test.js:196-204 | owner only, when paused; clears paused |
| Ledger.TokenLedger.WithdrawEther | smart-contract/test/unit/AmazonCoin.test.js:208-222 | owner only and within the balance; lowers the contract balance by exactly the amount and emits EtherWithdrawn |
| Ledger.TokenLedger.EmergencyWithdrawAll | smart-contract/test/unit/AmazonCoin.test.js:224-235 | owner only, even while paused; sends the whole balance and zeroes both the balance and the collected total |
| LedgerScenarios.Deployment | smart-contract/test/unit/AmazonCoin.test.js:13-41 | a fresh ledger's metadata, owner balance = supply = 10^26, rate 10^14, flags, and remaining supply |
| LedgerScenarios.PurchaseAtExactCost | smart-contract/test/unit/AmazonCoin.test.js:45-110 | 1000 tokens cost 10^17 wei; buying them succeeds with TokensPurchased, credits 1000 tokens and collects the payment |
| LedgerScenarios.RejectedPurchases | smart-contract/test/unit/AmazonCoin.test.js:60-77 | underpaying and buying nothing revert with their own reasons; the supply is untouched |
| LedgerScenarios.PurchaseWithMintingOff | smart-contract/test/unit/AmazonCoin.test.js:79-88 | with minting off a purchase reverts with the minting reason |
| LedgerScenarios.PurchaseWhilePaused | smart-contract/test/unit/AmazonCoin.test.js:90-99 | while paused a purchase reverts with "Pausable: paused" |
| LedgerScenarios.DirectPayment | smart-contract/test/unit/AmazonCoin.test.js:114-137 | 0.1 ether sent directly buys `calculateTokenAmount(0.1 ether)` and emits it; while paused it reverts with "Contract is paused" |
| LedgerScenarios.OwnerFunctions | smart-contract/test/unit/AmazonCoin.test.js:141-204 | mint credits 5000 tokens with payment 0; a stranger's mint is rejected; the rate update emits (old, new) and zero is rejected; minting toggles; pause and unpause toggle |
| LedgerScenarios.WithdrawHalf | smart-contract/test/unit/AmazonCoin.test.js:208-222 | withdrawing half of 10^17 wei emits it and leaves the other half |
| LedgerScenarios.EmergencyWithdrawal | smart-contract/test/unit/AmazonCoin.test.js:224-235 | the emergency withdrawal emits the whole 10^17 wei and leaves both the balance and the collected total at 0 |
| LedgerScenarios.MintBeyondCap | smart-contract/test/unit/AmazonCoin.test.js:261-271 | minting one more than the remaining supply reverts with the mint cap reason |
| LedgerScenarios.Lifecycle | smart-contract/test/integration/TokenIntegration.test.js:11-44 | after purchase 1000, transfer 300 and burn 100: balances 700 and 200, supply 10^26 + 900 tokens |
| LedgerScenarios.ThreeBuyers | smart-contract/test/integration/TokenIntegration.test.js:46-67 | three buyers each hold exactly their 500 tokens; the collected total is three times the cost |
| LedgerScenarios.RateChange | smart-contract/test/integration/TokenIntegration.test.js:69-96 | the doubled rate doubles the cost; both buyers get 1000 tokens; the collected total is the sum of both payments |
| LedgerScenarios.PauseBlocksTrading | smart-contract/test/integration/TokenIntegration.test.js:100-120 | while paused, purchase and transfer revert with "Pausable: paused" |
| LedgerScenarios.PauseRecovery | smart-contract/test/integration/TokenIntegration.test.js:100-131 | the emergency withdrawal works while paused and empties the contract; after unpausing, the purchase goes through and the balance exceeds 500 tokens |
| LedgerScenarios.MintingSwitchedOff | smart-contract/test/integration/TokenIntegration.test.js:134-157 | with minting off, purchase and owner mint revert with the minting reason while transfer succeeds |
| LedgerScenarios.MintingSwitchedBackOn | smart-contract/test/integration/TokenIntegration.test.js:134-164 | switching minting back on restores purchases |
| LedgerScenarios.SupplyCap | smart-contract/test/integration/TokenIntegration.test.js:191-211 | minting the remaining supply reaches the cap with 0 remaining; a further mint fails on the mint cap, and a purchase paying the rate fails on the purchase cap, not on the payment |
| LedgerScenarios.SmallestPurchase | smart-contract/test/integration/TokenIntegration.test.js:214-223 | one base unit costs 0 and buying it for 0 credits it |
| LedgerScenarios.LargePurchase | smart-contract/test/integration/TokenIntegration.test.js:225-238 | a 100,000-token purchase at its exact cost succeeds and credits the amount |

## Left out

- Console output, `process.exit`, file writes, the React and wagmi front end, the Hedera SDK wrapper, and the CLI scripts that only print or write files. They are I/O.
- The ethers and viem formatters (`formatEther`, `formatUnits`, `parseEther`) and the float formatting helpers (`formatTokenAmount`, the scripts' `formatEther`). The model passes the formatters as function parameters and does not compute decimal fractions.
- Real chain access. Block numbers, bytecode, field reads, balances, gas estimates and simulations are inputs. `Promise.allSettled` becomes seven independent `Option` results.
- The gas-usage assertions of the integration tests. They depend on the EVM's gas schedule.
- `lib/web3-config.js` and `next.config.js`: library configuration data.
- The ERC-20 `Transfer` event and the OpenZeppelin `Paused`/`Unpaused` events. No test asserts them, so the ledger's event lists hold only the contract's own events.
- The ledger does not model the OpenZeppelin zero-address checks, `approve`/`transferFrom`, or ownership transfer. No test exercises them.
- Ledger.TokenLedger.Burn: whether burning is blocked while paused is a per-ledger choice. No test fixes it, and the only hint is a log line in a script.
- Ledger.TokenLedger.Mint: whether the owner's mint is blocked while paused is a per-ledger choice. No test mints while paused. No test or script fixes whether mint checks the pause, and the contract source is not modelled.
- Ledger.TokenLedger.PurchaseTokens: whether paying more than the cost is accepted is a per-ledger choice. Only underpayment is tested.
- Ledger.TokenLedger.PurchaseTokens: the order in which the checks run is not fixed. A revert names one of the failing checks. The one ordering a test forces is fixed: the cap check comes before the payment check.
- Ledger.TokenLedger.WithdrawEther: whether it lowers `totalEtherCollected` is a per-ledger choice. No test reads it after a partial withdrawal.
- Ledger.TokenLedger.WithdrawEther: the reason for withdrawing more than the balance is not fixed by any test. The model uses "AmazonCoin: Insufficient Ether balance".
- Ledger.TokenLedger.Receive: `calculateTokenAmount` is a parameter of the ledger, because its formula is not known. The model gives `receive` the same zero-amount, minting and cap checks as a purchase. Only the pause reason is tested.
- Ledger.TokenLedger.Transfer: the OpenZeppelin reason strings for an over-balance transfer or burn are assumed from its 4.x contracts.
- The front end's one-argument payable `mint(amount)` call. Its simulation result is an input to `TestMintSimulation`; the ledger models the tested two-argument owner `mint(to, amount)`.
- HederaDeploy.PlanDeployment: the rest of the deployment script is left out: deploying, waiting, printing, and writing the deployment file. The validation outcome is an input; `BalanceFloorIsDeadCode` states when it agrees with the script's balance.
- The source is written against two ethers APIs that cannot both load. The tests, `config/constants.js` and the Hedera deployment script use the v5 names (`ethers.utils`, BigNumber `.mul`/`.div`/`.lt`, `.deployed()`). `scripts/utils/network-config.js` and the balance check of `validate-deployment.js` use the v6 names (`ethers.parseUnits`, `ethers.formatEther`, `ethers.parseEther`). Each file is modelled under the ethers API it is written against. The model does not capture that, under either version, some of these files throw at load time or on every call.
- ContractVerification.TestMintSimulation: the SyntaxError message is V8's wording. `BigInt` also trims Unicode white space beyond the ASCII set the model trims.
- JavaScript prototype keys such as `"toString"` used as table keys are treated as unknown names.
- NetworkUtils.EstimateGasWithBuffer: the estimate is a non-negative input; the contract call that produces it is left out.

## Findings

| source | as written | input that shows it | evidently intended | confidence | as-written member | corrected member |
|---|---|---|---|---|---|---|
| lib/contract-verification.js:6 | imports `getDeploymentInfo` from `./constants`, which does not export it. Under a bundler the binding is undefined, and the call at line 51 throws a TypeError that the `catch` turns into a failed verification. Native ES modules would refuse to link the module instead. | chain 296 with contract bytecode present: reported as not deployed with a TypeError; the model writes its message as "getDeploymentInfo is not a function", while a bundler prints a variant such as `(0 , …getDeploymentInfo) is not a function` | import it from the deployment-sync module, which defines it, so a deployed contract is reported as deployed | not executed | ContractVerification.VerifyContractDeploymentAsWritten | ContractVerification.VerifyContractDeployment |
| lib/deployment-sync.js:153 | the summary literal sets `deployedNetworks` to the count, then sets it again by shorthand to the list, so the returned object has no deployed count | any deployment files: `getDeploymentSummary().deployedNetworks` is the array of deployed networks | keep the count and the list under different keys | not executed | DeploymentSync.DuplicateKeyDropsCount | DeploymentSync.CorrectedSummaryCounts |
