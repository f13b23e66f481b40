/** Deployed-address bookkeeping of the front end: the address table filled from the
    recorded deployment files, the per-network deployment status derived from the
    zero-address sentinel, and the summary counts. The two deployment files are imported
    JSON documents; they are inputs here. */
module DeploymentSync {
  import opened Wrappers
  import opened JsText
  import AppConstants

  const ZeroAddress: string := AppConstants.ZeroAddress
  const HardhatDefaultAddress: string := "0x5FbDB2315678afecb367f032d93F642f64180aa3"
  const SepoliaAddress: string := "0x1412D9A28bAAC801777581C28060B2C821e61823"

  /** The fields of a deployment record the module reads; a missing key is `None`.
      `explorerUrl` and `transactionUrl` come from the record's `hederaSpecific` part.
      `contractInfo` and `burnOperations` are nested records that the module copies
      without looking inside; they are kept here as their JSON text. */
  datatype Metadata = Metadata(
    network: Option<string>,
    chainId: Option<int>,
    contractAddress: Option<string>,
    deployerAddress: Option<string>,
    transactionHash: Option<string>,
    blockNumber: Option<int>,
    gasUsed: Option<string>,
    timestamp: Option<string>,
    explorerUrl: Option<string>,
    transactionUrl: Option<string>,
    contractInfo: Option<string>,
    burnOperations: Option<string>)

  /** The recorded deployments on Hedera testnet and on the local hardhat chain. */
  datatype DeploymentFiles = DeploymentFiles(hederaTestnet: Metadata, hardhat: Metadata)

  /** `DEPLOYED_CONTRACT_ADDRESSES`. */
  function DeployedAddresses(files: DeploymentFiles): (m: map<int, string>)
    ensures m.Keys == {1, 295, 296, 31337, 11155111}
    ensures forall k :: k in m ==> m[k] != ""
  {
    map[
      296 := OrElse(files.hederaTestnet.contractAddress, ZeroAddress),
      295 := ZeroAddress,
      11155111 := SepoliaAddress,
      1 := ZeroAddress,
      31337 := OrElse(files.hardhat.contractAddress, HardhatDefaultAddress)
    ]
  }

  /** Hedera mainnet and Ethereum mainnet are always pending; the two recorded networks
      fall back to the sentinel and to hardhat's first deterministic address. */
  lemma AddressFallbacks(files: DeploymentFiles)
    ensures DeployedAddresses(files)[295] == ZeroAddress && DeployedAddresses(files)[1] == ZeroAddress
    ensures !Truthy(files.hederaTestnet.contractAddress) ==> DeployedAddresses(files)[296] == ZeroAddress
    ensures !Truthy(files.hardhat.contractAddress) ==> DeployedAddresses(files)[31337] == HardhatDefaultAddress
    ensures DeployedAddresses(files)[11155111] == SepoliaAddress
  {
  }

  /** `DEPLOYMENT_METADATA`: only the two recorded networks have an entry, and the
      hardhat entry copies neither the Hedera-specific URLs nor `burnOperations`. */
  function DeploymentMetadata(files: DeploymentFiles): (m: map<int, Metadata>)
    ensures m.Keys == {296, 31337}
    ensures m[296] == files.hederaTestnet
    ensures m[31337].explorerUrl.None? && m[31337].transactionUrl.None? && m[31337].burnOperations.None?
    ensures m[31337].contractInfo == files.hardhat.contractInfo
    ensures m[31337].contractAddress == files.hardhat.contractAddress && m[31337].timestamp == files.hardhat.timestamp
  {
    map[
      296 := files.hederaTestnet,
      31337 := files.hardhat.(explorerUrl := None, transactionUrl := None, burnOperations := None)
    ]
  }

  /** `Object.entries` lists integer-like keys in ascending numeric order. */
  const ChainOrder: seq<int> := [1, 295, 296, 31337, 11155111]

  lemma ChainOrderIsKeyOrder(files: DeploymentFiles)
    ensures forall k :: k in ChainOrder <==> k in DeployedAddresses(files)
    ensures forall i, j :: 0 <= i < j < |ChainOrder| ==> ChainOrder[i] < ChainOrder[j]
  {
  }

  datatype ValidationRecord = ValidationRecord(
    chainId: int,
    address: string,
    isDeployed: bool,
    hasMetadata: bool,
    network: string,
    deploymentDate: Option<string>,
    explorerUrl: Option<string>)

  /** `metadata?.field || fallback` for an optional metadata record. */
  function MetaText(meta: Option<Metadata>, field: Metadata -> Option<string>, fallback: string): string {
    if meta.Some? then OrElse(field(meta.value), fallback) else fallback
  }

  /** `metadata?.field || null`. */
  function MetaTextOrNull(meta: Option<Metadata>, field: Metadata -> Option<string>): Option<string> {
    if meta.Some? then OrNull(field(meta.value)) else None
  }

  /** The record `validateDeployments` pushes for one table entry. */
  function ValidationOf(files: DeploymentFiles, chainId: int): (v: ValidationRecord)
    requires chainId in DeployedAddresses(files)
    ensures v.chainId == chainId && v.address == DeployedAddresses(files)[chainId]
    ensures v.isDeployed <==> v.address != "" && v.address != ZeroAddress
    ensures v.hasMetadata <==> chainId == 296 || chainId == 31337
    ensures !v.hasMetadata ==> v.network == "unknown" && v.deploymentDate == None && v.explorerUrl == None
  {
    var address := DeployedAddresses(files)[chainId];
    var meta := Lookup(DeploymentMetadata(files), chainId);
    ValidationRecord(
      chainId,
      address,
      Truthy(Some(address)) && address != ZeroAddress,
      meta.Some?,
      MetaText(meta, (m: Metadata) => m.network, "unknown"),
      MetaTextOrNull(meta, (m: Metadata) => m.timestamp),
      if meta.Some? && Truthy(meta.value.explorerUrl) then meta.value.explorerUrl
      else MetaTextOrNull(meta, (m: Metadata) => m.transactionUrl))
  }

  /** `validateDeployments`: one record per table entry, pushed in entry order. */
  method ValidateDeployments(files: DeploymentFiles) returns (validations: seq<ValidationRecord>)
    ensures |validations| == |ChainOrder|
    ensures forall i :: 0 <= i < |validations| ==> validations[i] == ValidationOf(files, ChainOrder[i])
  {
    validations := [];
    var i := 0;
    while i < |ChainOrder|
      invariant 0 <= i <= |ChainOrder|
      invariant |validations| == i
      invariant forall j :: 0 <= j < i ==> validations[j] == ValidationOf(files, ChainOrder[j])
    {
      validations := validations + [ValidationOf(files, ChainOrder[i])];
      i := i + 1;
    }
  }

  datatype DeploymentInfo = DeploymentInfo(address: Option<string>, metadata: Option<Metadata>, isDeployed: bool)

  /** `getDeploymentInfo`: a chain missing from the table has an `undefined` address,
      and `undefined !== sentinel`, so it counts as deployed. */
  function GetDeploymentInfo(files: DeploymentFiles, chainId: int): (d: DeploymentInfo)
    ensures d.address == Lookup(DeployedAddresses(files), chainId)
    ensures d.metadata == Lookup(DeploymentMetadata(files), chainId)
    ensures d.isDeployed <==> d.address != Some(ZeroAddress)
    ensures d.address.Some? <==> chainId in ChainOrder
    ensures chainId !in ChainOrder ==> d.isDeployed
    ensures d.metadata.Some? <==> chainId == 296 || chainId == 31337
  {
    var address := Lookup(DeployedAddresses(files), chainId);
    DeploymentInfo(address, Lookup(DeploymentMetadata(files), chainId), address != Some(ZeroAddress))
  }

  datatype DeployedNetwork = DeployedNetwork(chainId: int, address: string, metadata: Option<Metadata>)

  /** The entries among the `keys` of the address table whose address is not the
      sentinel: every entry listed is such a key with its address and metadata, and every
      such key is listed. */
  function DeployedAmong(addresses: map<int, string>, metadata: map<int, Metadata>, keys: seq<int>)
    : (r: seq<DeployedNetwork>)
    requires forall k :: k in keys ==> k in addresses
    ensures forall d :: d in r ==>
      && d.chainId in keys && d.address == addresses[d.chainId]
      && d.address != ZeroAddress && d.metadata == Lookup(metadata, d.chainId)
    ensures forall k :: k in keys && addresses[k] != ZeroAddress ==> exists d :: d in r && d.chainId == k
    ensures |r| <= |keys|
    decreases |keys|
  {
    if keys == [] then []
    else
      var rest := DeployedAmong(addresses, metadata, keys[1..]);
      var k := keys[0];
      if addresses[k] != ZeroAddress
      then [DeployedNetwork(k, addresses[k], Lookup(metadata, k))] + rest
      else rest
  }

  /** `getDeployedNetworks`. */
  function GetDeployedNetworks(files: DeploymentFiles): seq<DeployedNetwork>
  {
    ChainOrderIsKeyOrder(files);
    DeployedAmong(DeployedAddresses(files), DeploymentMetadata(files), ChainOrder)
  }

  /** The entry `DeployedAmong` lists for a sentinel-free key. */
  function EntryOf(addresses: map<int, string>, metadata: map<int, Metadata>, k: int): seq<DeployedNetwork>
    requires k in addresses
  {
    if addresses[k] != ZeroAddress then [DeployedNetwork(k, addresses[k], Lookup(metadata, k))] else []
  }

  /** Filtering a table whose two mainnet entries hold the sentinel keeps Hedera testnet,
      hardhat and Sepolia, each when not the sentinel, in that order. */
  lemma DeployedAmongOfLayout(addresses: map<int, string>, metadata: map<int, Metadata>)
    requires forall k :: k in ChainOrder ==> k in addresses
    requires addresses[1] == ZeroAddress && addresses[295] == ZeroAddress
    ensures DeployedAmong(addresses, metadata, ChainOrder) ==
      EntryOf(addresses, metadata, 296) + (EntryOf(addresses, metadata, 31337) + EntryOf(addresses, metadata, 11155111))
  {
    var e1, e2, e3 := EntryOf(addresses, metadata, 296), EntryOf(addresses, metadata, 31337), EntryOf(addresses, metadata, 11155111);
    assert DeployedAmong(addresses, metadata, [11155111]) == e3;
    assert DeployedAmong(addresses, metadata, [31337, 11155111]) == e2 + e3;
    assert DeployedAmong(addresses, metadata, [296, 31337, 11155111]) == e1 + (e2 + e3);
    assert DeployedAmong(addresses, metadata, [295, 296, 31337, 11155111]) == e1 + (e2 + e3);
    assert ChainOrder[1..] == [295, 296, 31337, 11155111];
    assert DeployedAmong(addresses, metadata, ChainOrder) == e1 + (e2 + e3);
  }

  /** The deployed networks of the table, in the ascending key order `Object.entries`
      gives: Hedera testnet and hardhat when their addresses are not the sentinel, then
      Sepolia, which has no metadata; the two mainnets never. */
  lemma DeployedNetworksAre(files: DeploymentFiles)
    ensures var addresses, metadata := DeployedAddresses(files), DeploymentMetadata(files);
      GetDeployedNetworks(files) ==
        (if addresses[296] != ZeroAddress then [DeployedNetwork(296, addresses[296], Some(metadata[296]))] else [])
        + ((if addresses[31337] != ZeroAddress then [DeployedNetwork(31337, addresses[31337], Some(metadata[31337]))] else [])
        + [DeployedNetwork(11155111, SepoliaAddress, None)])
  {
    var addresses, metadata := DeployedAddresses(files), DeploymentMetadata(files);
    AddressFallbacks(files);
    ChainOrderIsKeyOrder(files);
    assert SepoliaAddress != ZeroAddress;
    DeployedAmongOfLayout(addresses, metadata);
  }

  datatype ContractConfig = ContractConfig(
    address: Option<string>, chainId: int, metadata: Option<Metadata>,
    explorerUrl: Option<string>, deploymentDate: Option<string>)

  /** `getContractConfig`: null exactly for the sentinel entries; otherwise the address, the
      metadata, and the metadata's explorer URL and timestamp (`metadata?.`: absent without it). */
  function GetContractConfig(files: DeploymentFiles, chainId: int): (c: Option<ContractConfig>)
    ensures c.None? <==> !GetDeploymentInfo(files, chainId).isDeployed
    ensures c.Some? ==> c.value.address == GetDeploymentInfo(files, chainId).address && c.value.chainId == chainId
    ensures c.Some? ==> c.value.metadata == GetDeploymentInfo(files, chainId).metadata
    ensures c.Some? ==> c.value.metadata == Lookup(DeploymentMetadata(files), chainId)
    ensures c.Some? && c.value.metadata.Some? ==>
      c.value.explorerUrl == c.value.metadata.value.explorerUrl
      && c.value.deploymentDate == c.value.metadata.value.timestamp
    ensures c.Some? && c.value.metadata.None? ==> c.value.explorerUrl.None? && c.value.deploymentDate.None?
  {
    var info := GetDeploymentInfo(files, chainId);
    if !info.isDeployed then None
    else
      Some(ContractConfig(
        info.address, chainId, info.metadata,
        if info.metadata.Some? then info.metadata.value.explorerUrl else None,
        if info.metadata.Some? then info.metadata.value.timestamp else None))
  }

  /** A chain outside the table yields a configuration whose address is `undefined`. */
  lemma UnknownChainConfig(files: DeploymentFiles)
    ensures GetContractConfig(files, 42).Some? && GetContractConfig(files, 42).value.address.None?
    ensures GetContractConfig(files, 295).None? && GetContractConfig(files, 1).None?
  {
  }

  datatype AddressCheck = AddressCheck(
    isValid: bool, hasMetadata: bool, address: string, chainId: int, metadata: Option<Metadata>)

  /** `verifyContractDeployment` of this module: a format check only, no chain access. */
  function VerifyContractDeployment(files: DeploymentFiles, chainId: int, address: string): (r: AddressCheck)
    ensures r.isValid <==> IsHexAddress(address)
    ensures r.hasMetadata <==> chainId == 296 || chainId == 31337
  {
    var meta := Lookup(DeploymentMetadata(files), chainId);
    AddressCheck(IsHexAddress(address), meta.Some?, address, chainId, meta)
  }

  /** `validations.filter(v => !v.isDeployed).length`. */
  function CountPending(vs: seq<ValidationRecord>): nat {
    CountWhere(vs, (v: ValidationRecord) => !v.isDeployed)
  }

  /** Over any run of table keys, the sentinel-free entries and the pending records
      partition the keys. */
  lemma {:induction false} DeployedPlusPending(files: DeploymentFiles, keys: seq<int>, vs: seq<ValidationRecord>)
    requires forall k :: k in keys ==> k in DeployedAddresses(files)
    requires |vs| == |keys|
    requires forall i :: 0 <= i < |vs| ==> vs[i] == ValidationOf(files, keys[i])
    ensures |DeployedAmong(DeployedAddresses(files), DeploymentMetadata(files), keys)| + CountPending(vs) == |keys|
    decreases |keys|
  {
    if keys != [] {
      DeployedPlusPending(files, keys[1..], vs[1..]);
    }
  }

  /** Over the whole table, the deployed list and the pending records partition the entries. */
  lemma PendingComplementsDeployed(files: DeploymentFiles, vs: seq<ValidationRecord>)
    requires |vs| == |ChainOrder|
    requires forall i :: 0 <= i < |vs| ==> vs[i] == ValidationOf(files, ChainOrder[i])
    ensures |GetDeployedNetworks(files)| + CountPending(vs) == |ChainOrder|
  {
    ChainOrderIsKeyOrder(files);
    DeployedPlusPending(files, ChainOrder, vs);
  }

  /** The values the summary object holds. */
  datatype SummaryValue =
    | Count(n: nat)
    | Records(validations: seq<ValidationRecord>)
    | Networks(deployed: seq<DeployedNetwork>)
    | Stamp(text: string)

  const TotalKey: string := "totalNetworks"
  const DeployedKey: string := "deployedNetworks"
  const PendingKey: string := "pendingDeployments"
  const ValidationsKey: string := "validations"
  const UpdatedKey: string := "lastUpdated"
  const DeployedListKey: string := "deployedList"

  /** The object literal `getDeploymentSummary` returns, property by property in source
      order. It writes the key `deployedNetworks` twice: first the count, then, by
      shorthand, the list. */
  function SummaryLiteral(vs: seq<ValidationRecord>, deployed: seq<DeployedNetwork>, now: string)
    : (props: seq<(string, SummaryValue)>)
    ensures |props| == 6 && props[1].0 == props[4].0 == DeployedKey
  {
    [(TotalKey, Count(|ChainOrder|)),
     (DeployedKey, Count(|deployed|)),
     (PendingKey, Count(CountPending(vs))),
     (ValidationsKey, Records(vs)),
     (DeployedKey, Networks(deployed)),
     (UpdatedKey, Stamp(now))]
  }

  /** The shorthand property overwrites the count: the object holds the list under
      `deployedNetworks`, and the deployed count is in none of its properties. */
  lemma DuplicateKeyDropsCount(vs: seq<ValidationRecord>, deployed: seq<DeployedNetwork>, now: string)
    ensures PropertyValue(SummaryLiteral(vs, deployed, now), DeployedKey) == Some(Networks(deployed))
    ensures PropertyValue(SummaryLiteral(vs, deployed, now), DeployedKey) != Some(Count(|deployed|))
  {
    SummaryLiteralValues(vs, deployed, now);
  }

  /** The object `getDeploymentSummary` returns, field by field as the literal leaves
      it: `deployedNetworks` is the list of deployed networks, and there is no count. */
  datatype Summary = Summary(
    totalNetworks: nat,
    deployedNetworks: seq<DeployedNetwork>,
    pendingDeployments: nat,
    validations: seq<ValidationRecord>,
    lastUpdated: string)

  /** `getDeploymentSummary` as written; `now` is the ISO timestamp the source reads from
      the clock. Each field is what the literal leaves under its key. */
  method GetDeploymentSummary(files: DeploymentFiles, now: string) returns (s: Summary)
    ensures s.totalNetworks == |ChainOrder| == 5
    ensures |s.validations| == |ChainOrder|
    ensures forall i :: 0 <= i < |s.validations| ==> s.validations[i] == ValidationOf(files, ChainOrder[i])
    ensures s.deployedNetworks == GetDeployedNetworks(files)
    ensures s.pendingDeployments == CountPending(s.validations)
    ensures |s.deployedNetworks| + s.pendingDeployments == s.totalNetworks
    ensures s.lastUpdated == now
    ensures var props := SummaryLiteral(s.validations, s.deployedNetworks, now);
      && PropertyValue(props, TotalKey) == Some(Count(s.totalNetworks))
      && PropertyValue(props, DeployedKey) == Some(Networks(s.deployedNetworks))
      && PropertyValue(props, PendingKey) == Some(Count(s.pendingDeployments))
      && PropertyValue(props, ValidationsKey) == Some(Records(s.validations))
      && PropertyValue(props, UpdatedKey) == Some(Stamp(now))
  {
    var validations := ValidateDeployments(files);
    var deployed := GetDeployedNetworks(files);
    PendingComplementsDeployed(files, validations);
    SummaryLiteralValues(validations, deployed, now);
    s := Summary(|ChainOrder|, deployed, CountPending(validations), validations, now);
  }

  /** The summary's keys are pairwise different, the list key included. */
  lemma DistinctKeys()
    ensures TotalKey != DeployedKey && TotalKey != PendingKey && TotalKey != ValidationsKey
    ensures TotalKey != UpdatedKey && TotalKey != DeployedListKey
    ensures DeployedKey != PendingKey && DeployedKey != ValidationsKey && DeployedKey != UpdatedKey
    ensures DeployedKey != DeployedListKey
    ensures PendingKey != ValidationsKey && PendingKey != UpdatedKey && PendingKey != DeployedListKey
    ensures ValidationsKey != UpdatedKey && ValidationsKey != DeployedListKey
    ensures UpdatedKey != DeployedListKey
  {
    assert ValidationsKey[0] != UpdatedKey[0];
    assert TotalKey[0] != DeployedListKey[0];
    assert |DeployedKey| != |DeployedListKey|;
  }

  /** The five-property prefix of a six-property literal, and so on down, as `PropertyValue`
      peels properties from the end. */
  lemma LiteralPrefixes<V>(props: seq<(string, V)>)
    requires |props| == 6
    ensures props[..5] == [props[0], props[1], props[2], props[3], props[4]]
    ensures props[..5][..4] == [props[0], props[1], props[2], props[3]]
    ensures props[..5][..4][..3] == [props[0], props[1], props[2]]
    ensures props[..5][..4][..3][..2] == [props[0], props[1]]
    ensures props[..5][..4][..3][..2][..1] == [props[0]]
    ensures props[..5][..4][..3][..2][..1][..0] == []
  {
  }

  /** What the object built from the summary literal holds under each key. */
  lemma SummaryLiteralValues(vs: seq<ValidationRecord>, deployed: seq<DeployedNetwork>, now: string)
    ensures var props := SummaryLiteral(vs, deployed, now);
      && PropertyValue(props, TotalKey) == Some(Count(|ChainOrder|))
      && PropertyValue(props, DeployedKey) == Some(Networks(deployed))
      && PropertyValue(props, PendingKey) == Some(Count(CountPending(vs)))
      && PropertyValue(props, ValidationsKey) == Some(Records(vs))
      && PropertyValue(props, UpdatedKey) == Some(Stamp(now))
  {
    DistinctKeys();
    LiteralPrefixes(SummaryLiteral(vs, deployed, now));
  }

  /** The summary as evidently meant: the count under `deployedNetworks` and the list
      under a key of its own, so no property overwrites another. */
  function CorrectedSummaryLiteral(vs: seq<ValidationRecord>, deployed: seq<DeployedNetwork>, now: string)
    : (props: seq<(string, SummaryValue)>)
    ensures forall i, j :: 0 <= i < j < |props| ==> props[i].0 != props[j].0
  {
    DistinctKeys();
    [(TotalKey, Count(|ChainOrder|)),
     (DeployedKey, Count(|deployed|)),
     (PendingKey, Count(CountPending(vs))),
     (ValidationsKey, Records(vs)),
     (DeployedListKey, Networks(deployed)),
     (UpdatedKey, Stamp(now))]
  }

  /** What the object built from the corrected literal holds under each key. */
  lemma CorrectedSummaryLiteralValues(vs: seq<ValidationRecord>, deployed: seq<DeployedNetwork>, now: string)
    ensures var props := CorrectedSummaryLiteral(vs, deployed, now);
      && PropertyValue(props, TotalKey) == Some(Count(|ChainOrder|))
      && PropertyValue(props, DeployedKey) == Some(Count(|deployed|))
      && PropertyValue(props, PendingKey) == Some(Count(CountPending(vs)))
      && PropertyValue(props, ValidationsKey) == Some(Records(vs))
      && PropertyValue(props, DeployedListKey) == Some(Networks(deployed))
      && PropertyValue(props, UpdatedKey) == Some(Stamp(now))
  {
    DistinctKeys();
    LiteralPrefixes(CorrectedSummaryLiteral(vs, deployed, now));
  }

  /** In the corrected summary of the table, the deployed count and the pending count
      add up to the number of networks, and the list is kept beside them. */
  lemma CorrectedSummaryCounts(files: DeploymentFiles, vs: seq<ValidationRecord>, now: string)
    requires |vs| == |ChainOrder|
    requires forall i :: 0 <= i < |vs| ==> vs[i] == ValidationOf(files, ChainOrder[i])
    ensures var props := CorrectedSummaryLiteral(vs, GetDeployedNetworks(files), now);
      && PropertyValue(props, DeployedListKey) == Some(Networks(GetDeployedNetworks(files)))
      && PropertyValue(props, DeployedKey).Some? && PropertyValue(props, DeployedKey).value.Count?
      && PropertyValue(props, PendingKey).Some? && PropertyValue(props, PendingKey).value.Count?
      && PropertyValue(props, TotalKey) == Some(Count(5))
      && PropertyValue(props, DeployedKey).value.n + PropertyValue(props, PendingKey).value.n == 5
  {
    CorrectedSummaryLiteralValues(vs, GetDeployedNetworks(files), now);
    PendingComplementsDeployed(files, vs);
  }
}
