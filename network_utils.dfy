/** The deployment scripts' per-network profiles (keyed by Hardhat network name, with a
    throwing lookup), the explorer-URL builders, address shortening for display and the
    gas-buffer formula. */
module NetworkUtils {
  import opened Wrappers
  import opened JsText
  import ContractConstants

  datatype NetworkProfile = NetworkProfile(
    name: string, chainId: int, currency: string, explorerUrl: string,
    isTestnet: bool, gasPrice: nat, confirmations: nat)

  function Gwei(n: nat): nat {
    n * ContractConstants.Gwei
  }

  const NetworkConfigs: map<string, NetworkProfile> := map[
    "mainnet" := NetworkProfile("Ethereum Mainnet", 1, "ETH", "https://etherscan.io", false, Gwei(20), 2),
    "polygon" := NetworkProfile("Polygon Mainnet", 137, "MATIC", "https://polygonscan.com", false, Gwei(30), 2),
    "bsc" := NetworkProfile("Binance Smart Chain", 56, "BNB", "https://bscscan.com", false, Gwei(5), 2),
    "arbitrum" := NetworkProfile("Arbitrum One", 42161, "ETH", "https://arbiscan.io", false, Gwei(1), 1),
    "optimism" := NetworkProfile("Optimism", 10, "ETH", "https://optimistic.etherscan.io", false, Gwei(1), 1),
    "hedera" := NetworkProfile("Hedera Mainnet", 295, "HBAR", "https://hashscan.io/mainnet", false, Gwei(50), 1),
    "goerli" := NetworkProfile("Goerli Testnet", 5, "GoerliETH", "https://goerli.etherscan.io", true, Gwei(10), 1),
    "sepolia" := NetworkProfile("Sepolia Testnet", 11155111, "SepoliaETH", "https://sepolia.etherscan.io", true, Gwei(10), 1),
    "mumbai" := NetworkProfile("Polygon Mumbai", 80001, "MATIC", "https://mumbai.polygonscan.com", true, Gwei(10), 1),
    "bscTestnet" := NetworkProfile("BSC Testnet", 97, "tBNB", "https://testnet.bscscan.com", true, Gwei(10), 1),
    "hederaTestnet" := NetworkProfile("Hedera Testnet", 296, "HBAR", "https://hashscan.io/testnet", true, Gwei(50), 1),
    "hederaPreviewnet" := NetworkProfile("Hedera Previewnet", 297, "HBAR", "https://hashscan.io/previewnet", true, Gwei(50), 1),
    "hardhat" := NetworkProfile("Hardhat Local", 31337, "ETH", "", true, Gwei(1), 1)
  ]

  const ProfileNames: set<string> := {
    "mainnet", "polygon", "bsc", "arbitrum", "optimism", "hedera", "goerli", "sepolia",
    "mumbai", "bscTestnet", "hederaTestnet", "hederaPreviewnet", "hardhat"}

  const TestnetNames: set<string> :=
    {"goerli", "sepolia", "mumbai", "bscTestnet", "hederaTestnet", "hederaPreviewnet", "hardhat"}

  function NotFoundError(name: string): string {
    "Network configuration not found for: " + name
  }

  /** `getNetworkConfig`: the profile, or the error it throws for a name outside the table. */
  function GetNetworkConfig(name: string): (r: Result<NetworkProfile>)
    ensures r.Ok? <==> name in ProfileNames
    ensures r.Ok? ==> r.value == NetworkConfigs[name]
    ensures r.Err? ==> r.message == NotFoundError(name)
  {
    if name in NetworkConfigs then Ok(NetworkConfigs[name]) else Err(NotFoundError(name))
  }

  /** `isTestnet`: true for the seven test and local networks, false for the six
      mainnets, and the lookup error for any other name. */
  function IsTestnet(name: string): (r: Result<bool>)
    ensures r.Ok? <==> name in ProfileNames
    ensures r.Ok? ==> (r.value <==> name in TestnetNames)
    ensures r.Err? ==> r.message == NotFoundError(name)
  {
    match GetNetworkConfig(name)
    case Ok(c) => Ok(c.isTestnet)
    case Err(e) => Err(e)
  }

  function GetExplorerUrl(name: string): (r: Result<string>)
    ensures r.Ok? <==> name in ProfileNames
    ensures r.Ok? ==> r.value == NetworkConfigs[name].explorerUrl
    ensures r.Ok? ==> (r.value == "" <==> name == "hardhat")
  {
    match GetNetworkConfig(name)
    case Ok(c) => Ok(c.explorerUrl)
    case Err(e) => Err(e)
  }

  /** `explorer + segment + id`, or "" when the network has no explorer. */
  function ExplorerLink(name: string, segment: string, id: string): Result<string> {
    match GetExplorerUrl(name)
    case Err(e) => Err(e)
    case Ok(base) => Ok(if base == "" then "" else base + segment + id)
  }

  /** `getContractUrl`: the explorer's address page, "" for hardhat. */
  function GetContractUrl(name: string, address: string): (r: Result<string>)
    ensures r.Ok? <==> name in ProfileNames
    ensures r.Ok? && name == "hardhat" ==> r.value == ""
    ensures r.Ok? && name != "hardhat" ==> r.value == NetworkConfigs[name].explorerUrl + "/address/" + address
  {
    ExplorerLink(name, "/address/", address)
  }

  /** `getTransactionUrl`: the explorer's transaction page, "" for hardhat. */
  function GetTransactionUrl(name: string, txHash: string): (r: Result<string>)
    ensures r.Ok? <==> name in ProfileNames
    ensures r.Ok? && name == "hardhat" ==> r.value == ""
    ensures r.Ok? && name != "hardhat" ==> r.value == NetworkConfigs[name].explorerUrl + "/tx/" + txHash
  {
    ExplorerLink(name, "/tx/", txHash)
  }

  /** Chain ids identify the profiles: no two names share one. */
  lemma ChainIdsDistinct(a: string, b: string)
    requires a in NetworkConfigs && b in NetworkConfigs && a != b
    ensures NetworkConfigs[a].chainId != NetworkConfigs[b].chainId
  {
  }

  /** The currency is HBAR exactly on the three Hedera chain ids. */
  lemma HbarExactlyOnHedera(name: string)
    requires name in NetworkConfigs
    ensures NetworkConfigs[name].currency == "HBAR" <==> NetworkConfigs[name].chainId in {295, 296, 297}
  {
  }

  /** `formatAddress(address, length)`: "" for a missing or empty address, the address
      itself when it is short, and otherwise its first `length + 2` characters, "..." and
      its last `length` characters. With `length` 0 the tail is `slice(-0)`, which in
      JavaScript is the whole string. */
  function FormatAddress(address: Option<string>, length: nat := 6): (r: string)
    ensures !Truthy(address) ==> r == ""
    ensures Truthy(address) && |address.value| <= 2 * length + 2 ==> r == address.value
    ensures Truthy(address) && |address.value| > 2 * length + 2 && length > 0 ==>
      && r == address.value[..length + 2] + "..." + address.value[|address.value| - length..]
      && |r| == 2 * length + 5
    ensures Truthy(address) && |address.value| > 2 && length == 0 ==> r == address.value[..2] + "..." + address.value
  {
    if !Truthy(address) then ""
    else
      var a := address.value;
      if |a| <= length * 2 + 2 then a
      else a[..length + 2] + "..." + SliceFromEnd(a, length)
  }

  /** `s.slice(-n)` for a natural `n`: `-0` is `0`, so nothing is cut. */
  function SliceFromEnd(s: string, n: nat): (r: string)
    requires n <= |s|
    ensures n > 0 ==> r == s[|s| - n..] && |r| == n
    ensures n == 0 ==> r == s
  {
    if n == 0 then s else s[|s| - n..]
  }

  /** A shortened address is strictly shorter than the original only when the cut
      removes more than the three characters the ellipsis adds. */
  lemma FormatAddressShortens(a: string, length: nat)
    requires |a| > 2 * length + 5 && length > 0
    ensures |FormatAddress(Some(a), length)| < |a|
  {
  }

  /** `BigNumber.div`: division that truncates toward zero, so the quotient's magnitude
      is the floor of |x| / d and its sign is that of x. */
  function TruncDiv(x: int, d: nat): (q: int)
    requires d > 0
    ensures x >= 0 ==> 0 <= q && q * d <= x < (q + 1) * d
    ensures x < 0 ==> q <= 0 && -q * d <= -x < (-q + 1) * d
  {
    if x >= 0 then NonNegativeQuotient(x, d); x / d
    else NegativeQuotient(x, d); -((-x) / d)
  }

  lemma NonNegativeQuotient(x: int, d: nat)
    requires x >= 0 && d > 0
    ensures var q := x / d; 0 <= q && q * d <= x < (q + 1) * d
  {
    var q, r := x / d, x % d;
    assert x == q * d + r && 0 <= r < d;
    assert (q + 1) * d == q * d + d;
  }

  lemma NegativeQuotient(x: int, d: nat)
    requires x < 0 && d > 0
    ensures var q := -((-x) / d); q <= 0 && -q * d <= -x < (-q + 1) * d
  {
    var m := (-x) / d;
    NonNegativeQuotient(-x, d);
    assert -(-m) == m;
  }

  /** `estimated.mul(100 + buffer).div(100)`. */
  function EstimateGasWithBuffer(estimated: nat, buffer: int := 20): (g: int)
    ensures buffer >= 0 ==> g >= estimated
    ensures buffer >= -100 ==> g >= 0 && g * 100 <= estimated * (100 + buffer) < (g + 1) * 100
  {
    TruncDiv(estimated * (100 + buffer), 100)
  }

  /** With the default 20 % buffer, an estimate of 100000 gas becomes 120000, and the
      truncation drops the fraction: 7 becomes 8. */
  lemma EstimateGasExamples()
    ensures EstimateGasWithBuffer(100000) == 120000
    ensures EstimateGasWithBuffer(7) == 8
  {
  }
}
