/** The ledger's test scenarios, one method each: a fresh deployment by `owner`, then the
    calls of the scenario in order. They hold for every token formula and every choice of
    the untested behaviours. */
module LedgerScenarios {
  import ContractConstants
  import opened Ledger

  const Wei: nat := ContractConstants.Wei

  /** A fresh deployment's metadata and initial state. */
  method Deployment(owner: Addr, tokensFor: (nat, nat) -> nat, policy: Policy)
    returns (name: string, symbol: string, decimals: nat, ownerBalance: nat, supply: nat,
             rate: nat, minting: bool, paused: bool, remaining: nat)
    ensures name == "Amazon Coin" && symbol == "AC" && decimals == 18
    ensures ownerBalance == supply == MaxSupply / 10
    ensures rate == InitialExchangeRate == 100_000_000_000_000
    ensures minting && !paused
    ensures remaining == MaxSupply - supply
  {
    var c := new TokenLedger(owner, tokensFor, policy);
    name, symbol, decimals := c.name, c.symbol, c.decimals;
    ownerBalance, supply, rate := c.BalanceOf(owner), c.totalSupply, c.exchangeRate;
    minting, paused := c.mintingEnabled, c.paused;
    remaining := c.GetRemainingSupply();
  }

  /** Buying 1000 tokens at their exact cost credits them, records the payment, and
      reports the purchase. */
  method PurchaseAtExactCost(owner: Addr, buyer: Addr, tokensFor: (nat, nat) -> nat, policy: Policy)
    returns (cost: nat, o: Outcome, balance: nat, collected: nat)
    requires buyer != owner
    ensures cost == EtherCost(1000 * Wei, InitialExchangeRate) == 100_000_000_000_000_000
    ensures o == Ok([TokensPurchased(buyer, 1000 * Wei, cost)])
    ensures balance == 1000 * Wei && collected == cost
  {
    var c := new TokenLedger(owner, tokensFor, policy);
    WholeTokensAtInitialRate(1000);
    cost := c.CalculateEtherCost(1000 * Wei);
    o := c.PurchaseTokens(buyer, 1000 * Wei, cost);
    balance, collected := c.BalanceOf(buyer), c.totalEtherCollected;
  }

  /** Underpaying and buying nothing revert with their own reasons and leave the supply alone. */
  method RejectedPurchases(owner: Addr, buyer: Addr, tokensFor: (nat, nat) -> nat, policy: Policy)
    returns (underpaid: Outcome, nothing: Outcome, supply: nat)
    requires buyer != owner
    ensures underpaid == Revert(WrongPayment)
    ensures nothing == Revert(ZeroAmount)
    ensures supply == MaxSupply / 10
  {
    var c := new TokenLedger(owner, tokensFor, policy);
    underpaid := c.PurchaseTokens(buyer, 1000 * Wei, 50_000_000_000_000_000);
    nothing := c.PurchaseTokens(buyer, 0, 0);
    supply := c.totalSupply;
  }

  /** With minting switched off a purchase at the exact cost reverts. */
  method PurchaseWithMintingOff(owner: Addr, buyer: Addr, tokensFor: (nat, nat) -> nat, policy: Policy)
    returns (o: Outcome, supply: nat)
    requires buyer != owner
    ensures o == Revert(MintingDisabled) && supply == MaxSupply / 10
  {
    WholeTokensAtInitialRate(1000);
    var c := new TokenLedger(owner, tokensFor, policy);
    var _ := c.SetMintingEnabled(owner, false);
    o := c.PurchaseTokens(buyer, 1000 * Wei, EtherCost(1000 * Wei, InitialExchangeRate));
    supply := c.totalSupply;
  }

  /** While paused a purchase at the exact cost reverts. */
  method PurchaseWhilePaused(owner: Addr, buyer: Addr, tokensFor: (nat, nat) -> nat, policy: Policy)
    returns (o: Outcome, supply: nat)
    requires buyer != owner
    ensures o == Revert(WhilePaused) && supply == MaxSupply / 10
  {
    WholeTokensAtInitialRate(1000);
    var c := new TokenLedger(owner, tokensFor, policy);
    var _ := c.Pause(owner);
    o := c.PurchaseTokens(buyer, 1000 * Wei, EtherCost(1000 * Wei, InitialExchangeRate));
    supply := c.totalSupply;
  }

  /** Sending 0.1 ether directly buys `calculateTokenAmount(0.1 ether)` tokens (when that
      amount is a valid purchase, as the test's success shows); while paused it reverts. */
  method DirectPayment(owner: Addr, sender: Addr, tokensFor: (nat, nat) -> nat, policy: Policy)
    returns (expected: nat, o: Outcome, balance: nat, whilePaused: Outcome)
    requires sender != owner
    requires 0 < tokensFor(Wei / 10, InitialExchangeRate) <= MaxSupply - MaxSupply / 10
    ensures expected == tokensFor(Wei / 10, InitialExchangeRate)
    ensures o == Ok([TokensPurchased(sender, expected, Wei / 10)])
    ensures balance == expected
    ensures whilePaused == Revert(ContractPaused)
  {
    var c := new TokenLedger(owner, tokensFor, policy);
    expected := c.CalculateTokenAmount(Wei / 10);
    o := c.Receive(sender, Wei / 10);
    balance := c.BalanceOf(sender);

    var d := new TokenLedger(owner, tokensFor, policy);
    var _ := d.Pause(owner);
    whilePaused := d.Receive(sender, Wei / 10);
  }

  /** The owner's calls: minting, the non-owner rejection, the rate and its zero check,
      the minting switch, and pausing. */
  method OwnerFunctions(owner: Addr, user1: Addr, user2: Addr, tokensFor: (nat, nat) -> nat, policy: Policy)
    returns (minted: Outcome, balance: nat, byStranger: Outcome, rateSet: Outcome, rate: nat, zeroRate: Outcome,
             switchedOff: Outcome, mintingAfterOff: bool, mintingAfterOn: bool, pausedAfterPause: bool, pausedAfterUnpause: bool)
    requires user1 != owner && user2 != owner
    ensures minted == Ok([TokensPurchased(user1, 5000 * Wei, 0)]) && balance == 5000 * Wei
    ensures byStranger == Revert(NotOwner)
    ensures rateSet == Ok([ExchangeRateUpdated(InitialExchangeRate, 200_000_000_000_000)])
    ensures rate == 200_000_000_000_000
    ensures zeroRate == Revert(ZeroRate)
    ensures switchedOff == Ok([MintingStatusChanged(false)]) && !mintingAfterOff && mintingAfterOn
    ensures pausedAfterPause && !pausedAfterUnpause
  {
    var c := new TokenLedger(owner, tokensFor, policy);
    minted := c.Mint(owner, user1, 5000 * Wei);
    balance := c.BalanceOf(user1);
    byStranger := c.Mint(user1, user2, 5000 * Wei);
    rateSet := c.SetExchangeRate(owner, 200_000_000_000_000);
    rate := c.exchangeRate;
    zeroRate := c.SetExchangeRate(owner, 0);
    switchedOff := c.SetMintingEnabled(owner, false);
    mintingAfterOff := c.mintingEnabled;
    var _ := c.SetMintingEnabled(owner, true);
    mintingAfterOn := c.mintingEnabled;
    var _ := c.Pause(owner);
    pausedAfterPause := c.paused;
    var _ := c.Unpause(owner);
    pausedAfterUnpause := c.paused;
  }

  /** After one 1000-token purchase, withdrawing half the contract's ether leaves the
      other half. */
  method WithdrawHalf(owner: Addr, buyer: Addr, tokensFor: (nat, nat) -> nat, policy: Policy)
    returns (withdrawn: Outcome, left: nat)
    requires buyer != owner
    ensures withdrawn == Ok([EtherWithdrawn(owner, 50_000_000_000_000_000)])
    ensures left == 100_000_000_000_000_000 - 50_000_000_000_000_000
  {
    var c := new TokenLedger(owner, tokensFor, policy);
    WholeTokensAtInitialRate(1000);
    var _ := c.PurchaseTokens(buyer, 1000 * Wei, c.CalculateEtherCost(1000 * Wei));
    var contractBalance := c.etherBalance;
    withdrawn := c.WithdrawEther(owner, contractBalance / 2);
    left := c.etherBalance;
  }

  /** After one 1000-token purchase, the emergency withdrawal sends the whole balance and
      empties both the balance and the collected total. */
  method EmergencyWithdrawal(owner: Addr, buyer: Addr, tokensFor: (nat, nat) -> nat, policy: Policy)
    returns (emergency: Outcome, leftAfter: nat, collectedAfter: nat)
    requires buyer != owner
    ensures emergency == Ok([Ledger.EmergencyWithdrawal(owner, 100_000_000_000_000_000)])
    ensures leftAfter == 0 && collectedAfter == 0
  {
    var c := new TokenLedger(owner, tokensFor, policy);
    WholeTokensAtInitialRate(1000);
    var _ := c.PurchaseTokens(buyer, 1000 * Wei, c.CalculateEtherCost(1000 * Wei));
    emergency := c.EmergencyWithdrawAll(owner);
    leftAfter, collectedAfter := c.etherBalance, c.totalEtherCollected;
  }

  /** Minting one more than the remaining supply reverts with the mint cap reason. */
  method MintBeyondCap(owner: Addr, user: Addr, tokensFor: (nat, nat) -> nat, policy: Policy)
    returns (o: Outcome, supply: nat)
    ensures o == Revert(MintCap) && supply == MaxSupply / 10
  {
    var c := new TokenLedger(owner, tokensFor, policy);
    o := c.Mint(owner, user, c.GetRemainingSupply() + 1);
    supply := c.totalSupply;
  }

  /** Purchase 1000, transfer 300, burn 100: the balances and the supply follow. */
  method Lifecycle(owner: Addr, user1: Addr, user2: Addr, tokensFor: (nat, nat) -> nat, policy: Policy)
    returns (b1: nat, b2: nat, supply: nat)
    requires owner != user1 && owner != user2 && user1 != user2
    ensures b1 == 1000 * Wei - 300 * Wei
    ensures b2 == 300 * Wei - 100 * Wei
    ensures supply == MaxSupply / 10 + 1000 * Wei - 100 * Wei
  {
    var c := new TokenLedger(owner, tokensFor, policy);
    WholeTokensAtInitialRate(1000);
    var _ := c.PurchaseTokens(user1, 1000 * Wei, c.CalculateEtherCost(1000 * Wei));
    var _ := c.Transfer(user1, user2, 300 * Wei);
    var _ := c.Burn(user2, 100 * Wei);
    b1, b2, supply := c.BalanceOf(user1), c.BalanceOf(user2), c.totalSupply;
  }

  /** Three buyers of 500 tokens each: each holds exactly their own purchase, and the
      contract has collected three times the cost. */
  method ThreeBuyers(owner: Addr, user1: Addr, user2: Addr, user3: Addr, tokensFor: (nat, nat) -> nat, policy: Policy)
    returns (cost: nat, b1: nat, b2: nat, b3: nat, collected: nat)
    requires owner != user1 && owner != user2 && owner != user3
    requires user1 != user2 && user1 != user3 && user2 != user3
    ensures b1 == b2 == b3 == 500 * Wei
    ensures collected == 3 * cost
  {
    var c := new TokenLedger(owner, tokensFor, policy);
    WholeTokensAtInitialRate(500);
    cost := c.CalculateEtherCost(500 * Wei);
    var _ := c.PurchaseTokens(user1, 500 * Wei, cost);
    var _ := c.PurchaseTokens(user2, 500 * Wei, cost);
    var _ := c.PurchaseTokens(user3, 500 * Wei, cost);
    b1, b2, b3, collected := c.BalanceOf(user1), c.BalanceOf(user2), c.BalanceOf(user3), c.totalEtherCollected;
  }

  /** A doubled rate doubles the cost of 1000 tokens; both buyers get the same amount and
      the contract collects both payments. */
  method RateChange(owner: Addr, user1: Addr, user2: Addr, tokensFor: (nat, nat) -> nat, policy: Policy)
    returns (initialCost: nat, newCost: nat, b1: nat, b2: nat, collected: nat)
    requires owner != user1 && owner != user2 && user1 != user2
    ensures newCost == 2 * initialCost
    ensures b1 == b2 == 1000 * Wei
    ensures collected == initialCost + newCost
  {
    var c := new TokenLedger(owner, tokensFor, policy);
    WholeTokensAtInitialRate(1000);
    var initialRate := c.exchangeRate;
    initialCost := c.CalculateEtherCost(1000 * Wei);
    var _ := c.PurchaseTokens(user1, 1000 * Wei, initialCost);
    var _ := c.SetExchangeRate(owner, 2 * initialRate);
    EtherCostDoubles(1000 * Wei, initialRate);
    newCost := c.CalculateEtherCost(1000 * Wei);
    var _ := c.PurchaseTokens(user2, 1000 * Wei, newCost);
    b1, b2, collected := c.BalanceOf(user1), c.BalanceOf(user2), c.totalEtherCollected;
  }

  /** Pausing after two purchases blocks both purchases and transfers. */
  method PauseBlocksTrading(owner: Addr, user: Addr, tokensFor: (nat, nat) -> nat, policy: Policy)
    returns (blockedPurchase: Outcome, blockedTransfer: Outcome)
    requires user != owner
    ensures blockedPurchase == Revert(WhilePaused) && blockedTransfer == Revert(WhilePaused)
  {
    var c := new TokenLedger(owner, tokensFor, policy);
    WholeTokensAtInitialRate(1000);
    WholeTokensAtInitialRate(500);
    var _ := c.PurchaseTokens(user, 1000 * Wei, c.CalculateEtherCost(1000 * Wei));
    var cost := c.CalculateEtherCost(500 * Wei);
    var _ := c.PurchaseTokens(user, 500 * Wei, cost);
    var _ := c.Pause(owner);
    blockedPurchase := c.PurchaseTokens(user, 500 * Wei, cost);
    blockedTransfer := c.Transfer(user, owner, 500 * Wei);
  }

  /** While paused the emergency withdrawal still empties the contract; after unpausing,
      purchases go through again. */
  method PauseRecovery(owner: Addr, user: Addr, tokensFor: (nat, nat) -> nat, policy: Policy)
    returns (emergency: Outcome, leftAfter: nat, resumed: Outcome, balance: nat)
    requires user != owner
    ensures emergency.Ok? && leftAfter == 0
    ensures resumed.Ok? && balance == 1000 * Wei + 500 * Wei + 500 * Wei
  {
    var c := new TokenLedger(owner, tokensFor, policy);
    WholeTokensAtInitialRate(1000);
    WholeTokensAtInitialRate(500);
    var _ := c.PurchaseTokens(user, 1000 * Wei, c.CalculateEtherCost(1000 * Wei));
    var cost := c.CalculateEtherCost(500 * Wei);
    var _ := c.PurchaseTokens(user, 500 * Wei, cost);
    var _ := c.Pause(owner);
    emergency := c.EmergencyWithdrawAll(owner);
    leftAfter := c.etherBalance;
    var _ := c.Unpause(owner);
    resumed := c.PurchaseTokens(user, 500 * Wei, cost);
    balance := c.BalanceOf(user);
  }

  /** With minting off, purchases and the owner's mint revert while transfers still work. */
  method MintingSwitchedOff(owner: Addr, user: Addr, tokensFor: (nat, nat) -> nat, policy: Policy)
    returns (blockedPurchase: Outcome, blockedMint: Outcome, transfer: Outcome)
    requires user != owner
    ensures blockedPurchase == Revert(MintingDisabled) && blockedMint == Revert(MintingDisabled)
    ensures transfer.Ok?
  {
    var c := new TokenLedger(owner, tokensFor, policy);
    WholeTokensAtInitialRate(1000);
    var cost := c.CalculateEtherCost(1000 * Wei);
    var _ := c.PurchaseTokens(user, 1000 * Wei, cost);
    var _ := c.SetMintingEnabled(owner, false);
    blockedPurchase := c.PurchaseTokens(user, 1000 * Wei, cost);
    blockedMint := c.Mint(owner, user, 1000 * Wei);
    transfer := c.Transfer(user, owner, 1000 * Wei / 2);
  }

  /** Switching minting off and back on restores purchases. */
  method MintingSwitchedBackOn(owner: Addr, user: Addr, tokensFor: (nat, nat) -> nat, policy: Policy)
    returns (resumed: Outcome, balance: nat)
    requires user != owner
    ensures resumed.Ok? && balance == 1000 * Wei + 1000 * Wei
  {
    var c := new TokenLedger(owner, tokensFor, policy);
    WholeTokensAtInitialRate(1000);
    var cost := c.CalculateEtherCost(1000 * Wei);
    var _ := c.PurchaseTokens(user, 1000 * Wei, cost);
    var _ := c.SetMintingEnabled(owner, false);
    var _ := c.SetMintingEnabled(owner, true);
    resumed := c.PurchaseTokens(user, 1000 * Wei, cost);
    balance := c.BalanceOf(user);
  }

  /** Minting exactly the remaining supply reaches the cap; after that a mint of one base
      unit fails on the mint cap, and a purchase of one base unit paying the rate (more
      than its zero cost) fails on the purchase cap, not on the payment. */
  method SupplyCap(owner: Addr, user: Addr, tokensFor: (nat, nat) -> nat, policy: Policy)
    returns (supply: nat, remaining: nat, extraMint: Outcome, extraPurchase: Outcome)
    ensures supply == MaxSupply && remaining == 0
    ensures extraMint == Revert(MintCap)
    ensures extraPurchase == Revert(PurchaseCap)
  {
    var c := new TokenLedger(owner, tokensFor, policy);
    var _ := c.Mint(owner, user, c.GetRemainingSupply());
    supply, remaining := c.totalSupply, c.GetRemainingSupply();
    extraMint := c.Mint(owner, user, 1);
    extraPurchase := c.PurchaseTokens(user, 1, c.exchangeRate);
  }

  /** One base unit costs nothing at the initial rate, and buying it for nothing credits it. */
  method SmallestPurchase(owner: Addr, user: Addr, tokensFor: (nat, nat) -> nat, policy: Policy)
    returns (cost: nat, o: Outcome, balance: nat)
    requires user != owner
    ensures cost == 0 && o.Ok? && balance == 1
  {
    var c := new TokenLedger(owner, tokensFor, policy);
    TinyPurchaseIsFree(1, InitialExchangeRate);
    cost := c.CalculateEtherCost(1);
    o := c.PurchaseTokens(user, 1, cost);
    balance := c.BalanceOf(user);
  }

  /** A 100,000-token purchase at its exact cost goes through. */
  method LargePurchase(owner: Addr, user: Addr, tokensFor: (nat, nat) -> nat, policy: Policy)
    returns (o: Outcome, balance: nat)
    requires user != owner
    ensures o.Ok? && balance == 100_000 * Wei
  {
    var c := new TokenLedger(owner, tokensFor, policy);
    WholeTokensAtInitialRate(100_000);
    o := c.PurchaseTokens(user, 100_000 * Wei, c.CalculateEtherCost(100_000 * Wei));
    balance := c.BalanceOf(user);
  }
}
