/** Wallet selection for the deployment tooling: every network name has a type (EVM
    or Hedera), and the key used for a network is chosen from `process.env` by type. */
module WalletConfig {
  import opened Wrappers
  import opened JsText

  datatype NetworkType = Evm | Hedera

  const EvmNames: seq<string> :=
    ["mainnet", "goerli", "sepolia", "polygon", "mumbai", "bsc", "bscTestnet", "arbitrum", "optimism", "hardhat"]
  const HederaNames: seq<string> := ["hedera", "hederaTestnet", "hederaPreviewnet"]

  /** `Object.keys(NETWORK_TYPE_MAP)`: the names in declaration order. */
  const NetworkNames: seq<string> := EvmNames + HederaNames

  const NetworkTypeMap: map<string, NetworkType> := map[
    "mainnet" := Evm, "goerli" := Evm, "sepolia" := Evm, "polygon" := Evm, "mumbai" := Evm,
    "bsc" := Evm, "bscTestnet" := Evm, "arbitrum" := Evm, "optimism" := Evm, "hardhat" := Evm,
    "hedera" := Hedera, "hederaTestnet" := Hedera, "hederaPreviewnet" := Hedera
  ]

  /** The table gives the ten EVM names type EVM and the three Hedera names type Hedera,
      and has no other key. */
  lemma NetworkTypeTable()
    ensures forall i :: 0 <= i < |EvmNames| ==> EvmNames[i] in NetworkTypeMap && NetworkTypeMap[EvmNames[i]] == Evm
    ensures forall i :: 0 <= i < |HederaNames| ==> HederaNames[i] in NetworkTypeMap && NetworkTypeMap[HederaNames[i]] == Hedera
    ensures forall n :: n in NetworkTypeMap <==> n in NetworkNames
  {
  }

  function UnknownNetworkError(name: string): string {
    "Unknown network: " + name + ". Please add it to NETWORK_TYPE_MAP."
  }

  /** `getNetworkType`: the table entry, or the error it throws. */
  function GetNetworkType(name: string): (r: Result<NetworkType>)
    ensures r.Ok? <==> name in NetworkTypeMap
    ensures r.Ok? ==> r.value == NetworkTypeMap[name]
    ensures r.Err? ==> r.message == UnknownNetworkError(name)
  {
    if name in NetworkTypeMap then Ok(NetworkTypeMap[name]) else Err(UnknownNetworkError(name))
  }

  function IsHederaNetwork(name: string): (r: Result<bool>)
    ensures r.Ok? <==> name in NetworkTypeMap
    ensures r.Ok? ==> (r.value <==> NetworkTypeMap[name] == Hedera)
  {
    match GetNetworkType(name)
    case Ok(t) => Ok(t == Hedera)
    case Err(e) => Err(e)
  }

  function IsEvmNetwork(name: string): (r: Result<bool>)
    ensures r.Ok? <==> name in NetworkTypeMap
    ensures r.Ok? ==> (r.value <==> NetworkTypeMap[name] == Evm)
  {
    match GetNetworkType(name)
    case Ok(t) => Ok(t == Evm)
    case Err(e) => Err(e)
  }

  /** The two classifiers throw on the same names and disagree on every other one. */
  lemma ClassifiersComplementary(name: string)
    ensures IsHederaNetwork(name).Ok? <==> IsEvmNetwork(name).Ok?
    ensures IsHederaNetwork(name).Err? ==> IsHederaNetwork(name) == IsEvmNetwork(name)
    ensures IsHederaNetwork(name).Ok? ==> IsHederaNetwork(name).value != IsEvmNetwork(name).value
  {
  }

  function MissingHederaKeyError(name: string): string {
    "HEDERA_PRIVATE_KEY is required for Hedera network: " + name + ". "
      + "Please set HEDERA_PRIVATE_KEY in your .env file."
  }

  function MissingEvmKeyError(name: string): string {
    "EVM_PRIVATE_KEY or PRIVATE_KEY is required for EVM network: " + name + ". "
      + "Please set EVM_PRIVATE_KEY (recommended) or PRIVATE_KEY in your .env file."
  }

  /** `getPrivateKeyForNetwork`. The final "unsupported network type" throw cannot be
      reached as long as prototype keys such as "toString" count as unknown names (as
      this model treats every name outside the table): the table holds only the two types. */
  function GetPrivateKeyForNetwork(env: Env, name: string): (r: Result<string>)
    ensures name !in NetworkTypeMap ==> r == Err(UnknownNetworkError(name))
    ensures GetNetworkType(name) == Ok(Hedera) ==>
      r == if EnvSet(env, "HEDERA_PRIVATE_KEY") then Ok(env["HEDERA_PRIVATE_KEY"]) else Err(MissingHederaKeyError(name))
    ensures GetNetworkType(name) == Ok(Evm) ==>
      r == if EnvSet(env, "EVM_PRIVATE_KEY") then Ok(env["EVM_PRIVATE_KEY"])
           else if EnvSet(env, "PRIVATE_KEY") then Ok(env["PRIVATE_KEY"])
           else Err(MissingEvmKeyError(name))
    ensures r.Ok? ==> r.value != ""
  {
    match GetNetworkType(name)
    case Err(e) => Err(e)
    case Ok(Hedera) =>
      if EnvSet(env, "HEDERA_PRIVATE_KEY") then Ok(env["HEDERA_PRIVATE_KEY"]) else Err(MissingHederaKeyError(name))
    case Ok(Evm) =>
      if EnvSet(env, "EVM_PRIVATE_KEY") then Ok(env["EVM_PRIVATE_KEY"])
      else if EnvSet(env, "PRIVATE_KEY") then Ok(env["PRIVATE_KEY"])
      else Err(MissingEvmKeyError(name))
  }

  /** A Hedera network never falls back to an EVM key: the EVM variables do not
      influence its result at all. */
  lemma HederaIgnoresEvmKeys(env: Env, name: string, evmKey: string, legacyKey: string)
    requires GetNetworkType(name) == Ok(Hedera)
    ensures GetPrivateKeyForNetwork(env["EVM_PRIVATE_KEY" := evmKey]["PRIVATE_KEY" := legacyKey], name)
         == GetPrivateKeyForNetwork(env, name)
  {
    var env2 := env["EVM_PRIVATE_KEY" := evmKey]["PRIVATE_KEY" := legacyKey];
    assert EnvVar(env2, "HEDERA_PRIVATE_KEY") == EnvVar(env, "HEDERA_PRIVATE_KEY");
  }

  /** Likewise an EVM network never uses the Hedera key. */
  lemma EvmIgnoresHederaKey(env: Env, name: string, hederaKey: string)
    requires GetNetworkType(name) == Ok(Evm)
    ensures GetPrivateKeyForNetwork(env["HEDERA_PRIVATE_KEY" := hederaKey], name) == GetPrivateKeyForNetwork(env, name)
  {
    var env2 := env["HEDERA_PRIVATE_KEY" := hederaKey];
    assert EnvVar(env2, "EVM_PRIVATE_KEY") == EnvVar(env, "EVM_PRIVATE_KEY");
    assert EnvVar(env2, "PRIVATE_KEY") == EnvVar(env, "PRIVATE_KEY");
  }

  /** The key lookup reads only the three key variables of the environment. */
  lemma KeyLookupReadsOnlyKeyVariables(env1: Env, env2: Env, name: string)
    requires EnvVar(env1, "HEDERA_PRIVATE_KEY") == EnvVar(env2, "HEDERA_PRIVATE_KEY")
    requires EnvVar(env1, "EVM_PRIVATE_KEY") == EnvVar(env2, "EVM_PRIVATE_KEY")
    requires EnvVar(env1, "PRIVATE_KEY") == EnvVar(env2, "PRIVATE_KEY")
    ensures GetPrivateKeyForNetwork(env1, name) == GetPrivateKeyForNetwork(env2, name)
  {
  }

  /** Hardhat's `accounts` setting: an HD-wallet mnemonic or a list of keys. */
  datatype Accounts = Mnemonic(phrase: string, count: nat) | Keys(keys: seq<string>)

  /** `getAccountsForNetwork`: a mnemonic overrides everything, even an unknown name;
      a failed key lookup is caught and gives no accounts. */
  function GetAccountsForNetwork(env: Env, name: string): (a: Accounts)
    ensures EnvSet(env, "MNEMONIC") ==> a == Mnemonic(env["MNEMONIC"], 20)
    ensures !EnvSet(env, "MNEMONIC") ==> a.Keys? && |a.keys| <= 1
    ensures !EnvSet(env, "MNEMONIC") ==>
      (a.keys == [] <==> GetPrivateKeyForNetwork(env, name).Err?)
    ensures !EnvSet(env, "MNEMONIC") && a.keys != [] ==> a.keys[0] == GetPrivateKeyForNetwork(env, name).value
  {
    if EnvSet(env, "MNEMONIC") then Mnemonic(env["MNEMONIC"], 20)
    else match GetPrivateKeyForNetwork(env, name)
      case Ok(key) => Keys([key])
      case Err(_) => Keys([])
  }

  /** `validatePrivateKeyConfig`: true exactly when the key lookup does not throw. */
  function ValidatePrivateKeyConfig(env: Env, name: string): (ok: bool)
    ensures ok <==> GetPrivateKeyForNetwork(env, name).Ok?
    ensures ok ==> name in NetworkTypeMap
  {
    GetPrivateKeyForNetwork(env, name).Ok?
  }

  /** The names of one type, in key order (`Object.keys(...).filter(...)`). */
  function NamesOfType(names: seq<string>, t: NetworkType): (r: seq<string>)
    requires forall i :: 0 <= i < |names| ==> names[i] in NetworkTypeMap
    ensures forall n :: n in r <==> n in names && NetworkTypeMap[n] == t
    ensures |r| <= |names|
  {
    if names == [] then []
    else if NetworkTypeMap[names[0]] == t then [names[0]] + NamesOfType(names[1..], t)
    else NamesOfType(names[1..], t)
  }

  /** Filtering a run of names of type `t` followed by names of other types keeps
      exactly the run. */
  lemma {:induction false} NamesOfTypeKeepsPrefix(t: NetworkType, kept: seq<string>, dropped: seq<string>)
    requires forall i :: 0 <= i < |kept| ==> kept[i] in NetworkTypeMap && NetworkTypeMap[kept[i]] == t
    requires forall i :: 0 <= i < |dropped| ==> dropped[i] in NetworkTypeMap && NetworkTypeMap[dropped[i]] != t
    ensures NamesOfType(kept + dropped, t) == kept
    decreases |kept| + |dropped|
  {
    if kept == [] {
      assert kept + dropped == dropped;
      if dropped != [] {
        NamesOfTypeKeepsPrefix(t, [], dropped[1..]);
        assert [] + dropped[1..] == dropped[1..];
      }
    } else {
      assert (kept + dropped)[0] == kept[0];
      assert (kept + dropped)[1..] == kept[1..] + dropped;
      NamesOfTypeKeepsPrefix(t, kept[1..], dropped);
    }
  }

  /** Filtering skips a prefix of names of other types. */
  lemma {:induction false} SkipPrefix(t: NetworkType, skipped: seq<string>, rest: seq<string>)
    requires forall i :: 0 <= i < |skipped| ==> skipped[i] in NetworkTypeMap && NetworkTypeMap[skipped[i]] != t
    requires forall i :: 0 <= i < |rest| ==> rest[i] in NetworkTypeMap
    ensures NamesOfType(skipped + rest, t) == NamesOfType(rest, t)
  {
    if skipped != [] {
      assert (skipped + rest)[0] == skipped[0];
      assert (skipped + rest)[1..] == skipped[1..] + rest;
      SkipPrefix(t, skipped[1..], rest);
    } else {
      assert skipped + rest == rest;
    }
  }

  /** Filtering the keys by type gives the ten EVM names and the three Hedera names, each
      group in declaration order. */
  lemma NamesPartition()
    ensures NamesOfType(NetworkNames, Evm) == EvmNames
    ensures NamesOfType(NetworkNames, Hedera) == HederaNames
  {
    NetworkTypeTable();
    NamesOfTypeKeepsPrefix(Evm, EvmNames, HederaNames);
    SkipPrefix(Hedera, EvmNames, HederaNames);
    NamesOfTypeKeepsPrefix(Hedera, HederaNames, []);
    assert HederaNames + [] == HederaNames;
  }

  datatype Available = Available(evm: seq<string>, hedera: seq<string>, total: nat)

  /** `getAvailableNetworks`. */
  function GetAvailableNetworks(env: Env): (a: Available)
    ensures a.total == |a.evm| + |a.hedera|
    ensures a.evm == if EnvSet(env, "EVM_PRIVATE_KEY") || EnvSet(env, "PRIVATE_KEY") || EnvSet(env, "MNEMONIC") then EvmNames else []
    ensures a.hedera == if EnvSet(env, "HEDERA_PRIVATE_KEY") || EnvSet(env, "MNEMONIC") then HederaNames else []
  {
    NetworkTypeTable();
    NamesPartition();
    var evm := if EnvSet(env, "EVM_PRIVATE_KEY") || EnvSet(env, "PRIVATE_KEY") || EnvSet(env, "MNEMONIC")
      then NamesOfType(NetworkNames, Evm) else [];
    var hedera := if EnvSet(env, "HEDERA_PRIVATE_KEY") || EnvSet(env, "MNEMONIC")
      then NamesOfType(NetworkNames, Hedera) else [];
    Available(evm, hedera, |evm| + |hedera|)
  }
}
