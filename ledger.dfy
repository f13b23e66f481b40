/** The Amazon Coin token contract as its unit and integration tests fix it: an ERC-20
    balance table with a supply cap, an owner, a minting switch, a pause switch and the
    ether it has collected from purchases. Every call either succeeds with the events it
    emits or reverts with a reason and leaves every field as it was. */
module Ledger {
  import ContractConstants

  type Addr = nat

  const MaxSupply: nat := ContractConstants.MaxSupply
  const InitialExchangeRate: nat := ContractConstants.InitialExchangeRate

  datatype Event =
    | TokensPurchased(buyer: Addr, amount: nat, payment: nat)
    | ExchangeRateUpdated(oldRate: nat, newRate: nat)
    | MintingStatusChanged(enabled: bool)
    | EtherWithdrawn(to: Addr, amount: nat)
    | EmergencyWithdrawal(to: Addr, amount: nat)

  datatype Outcome = Ok(events: seq<Event>) | Revert(reason: string)

  /** The four behaviours no test pins down: whether `burn` and the owner's `mint` are
      blocked while paused, whether a purchase may overpay, and whether `withdrawEther`
      lowers `totalEtherCollected`. */
  datatype Policy = Policy(
    burnBlockedWhilePaused: bool, mintBlockedWhilePaused: bool,
    acceptsOverpayment: bool, withdrawReducesCollected: bool)

  // Revert reasons. The OpenZeppelin ones are those of its 4.x contracts; the last one is
  // not fixed by any test.
  const NotOwner: string := "Ownable: caller is not the owner"
  const WhilePaused: string := "Pausable: paused"
  const WhileNotPaused: string := "Pausable: not paused"
  const Prefix: string := "AmazonCoin: "
  const ContractPaused: string := Prefix + "Contract is paused"
  const ZeroAmount: string := Prefix + "Amount must be greater than zero"
  const MintingDisabled: string := Prefix + "Minting is currently disabled"
  const PurchaseCap: string := Prefix + "Purchase would exceed maximum supply"
  const MintCap: string := Prefix + "Minting would exceed maximum supply"
  const WrongPayment: string := Prefix + "Incorrect Ether amount sent"
  const ZeroRate: string := Prefix + "Exchange rate must be greater than zero"
  const TransferExceeds: string := "ERC20: transfer amount exceeds balance"
  const BurnExceeds: string := "ERC20: burn amount exceeds balance"
  const InsufficientEther: string := Prefix + "Insufficient Ether balance"

  // ---------------------------------------------------------------------------
  // Arithmetic of the views

  /** `calculateEtherCost`: `amount * rate / 1e18`, rounded down. */
  function EtherCost(amount: nat, rate: nat): (c: nat)
    ensures c * ContractConstants.Wei <= amount * rate < (c + 1) * ContractConstants.Wei
  {
    amount * rate / ContractConstants.Wei
  }

  /** Doubling the rate doubles the cost when the old cost was exact, as it is for whole
      tokens at the initial rate. */
  lemma EtherCostDoubles(amount: nat, rate: nat)
    requires (amount * rate) % ContractConstants.Wei == 0
    ensures EtherCost(amount, 2 * rate) == 2 * EtherCost(amount, rate)
  {
    var w := ContractConstants.Wei;
    var c := EtherCost(amount, rate);
    assert amount * rate == c * w;
    assert amount * (2 * rate) == 2 * (amount * rate);
    assert amount * (2 * rate) == (2 * c) * w;
  }

  /** Whole tokens at the initial rate cost an exact 10^-4 ether each. */
  lemma WholeTokensAtInitialRate(tokens: nat)
    ensures EtherCost(tokens * ContractConstants.Wei, InitialExchangeRate) == tokens * InitialExchangeRate
    ensures (tokens * ContractConstants.Wei * InitialExchangeRate) % ContractConstants.Wei == 0
  {
    var w := ContractConstants.Wei;
    assert tokens * w * InitialExchangeRate == (tokens * InitialExchangeRate) * w;
  }

  /** A purchase too small to cost a whole wei is free: any amount whose product with the
      rate stays below 10^18. */
  lemma TinyPurchaseIsFree(amount: nat, rate: nat)
    requires amount * rate < ContractConstants.Wei
    ensures EtherCost(amount, rate) == 0
  {
  }

  // ---------------------------------------------------------------------------
  // The balance table

  function BalanceIn(m: map<Addr, nat>, a: Addr): nat {
    if a in m then m[a] else 0
  }

  ghost function Pick(s: set<Addr>): (x: Addr)
    requires s != {}
    ensures x in s
  {
    var x :| x in s; x
  }

  /** The sum of all balances. */
  ghost function Sum(m: map<Addr, nat>): nat
    decreases |m.Keys|
  {
    if m == map[] then 0
    else
      var k := Pick(m.Keys);
      assert (m - {k}).Keys == m.Keys - {k};
      m[k] + Sum(m - {k})
  }

  /** Any key can be the one taken out first. */
  lemma {:induction false} SumRemove(m: map<Addr, nat>, k: Addr)
    requires k in m
    ensures Sum(m) == m[k] + Sum(m - {k})
    decreases |m.Keys|
  {
    var j := Pick(m.Keys);
    assert (m - {j}).Keys == m.Keys - {j};
    if j != k {
      assert (m - {k}).Keys == m.Keys - {k};
      SumRemove(m - {j}, k);
      SumRemove(m - {k}, j);
      assert m - {j} - {k} == m - {k} - {j};
    }
  }

  /** Overwriting one balance changes the sum by the difference. */
  lemma SumUpdate(m: map<Addr, nat>, k: Addr, v: nat)
    ensures Sum(m[k := v]) + BalanceIn(m, k) == Sum(m) + v
  {
    var m2 := m[k := v];
    SumRemove(m2, k);
    assert m2 - {k} == m - {k};
    if k in m {
      SumRemove(m, k);
    } else {
      assert m - {k} == m;
    }
  }

  /** No balance exceeds the sum. */
  lemma SumBound(m: map<Addr, nat>, a: Addr)
    ensures BalanceIn(m, a) <= Sum(m)
  {
    if a in m {
      SumRemove(m, a);
    }
  }

  /** The table after `amount` moves from `from` to `to`. */
  function Move(m: map<Addr, nat>, from: Addr, to: Addr, amount: nat): (r: map<Addr, nat>)
    requires amount <= BalanceIn(m, from)
    ensures forall a :: BalanceIn(r, a) == BalanceIn(m, a) - (if a == from then amount else 0) + (if a == to then amount else 0)
  {
    var m1 := m[from := BalanceIn(m, from) - amount];
    m1[to := BalanceIn(m1, to) + amount]
  }

  /** A move keeps the sum of all balances. */
  lemma MovePreservesSum(m: map<Addr, nat>, from: Addr, to: Addr, amount: nat)
    requires amount <= BalanceIn(m, from)
    ensures Sum(Move(m, from, to, amount)) == Sum(m)
  {
    var m1 := m[from := BalanceIn(m, from) - amount];
    SumUpdate(m, from, BalanceIn(m, from) - amount);
    SumUpdate(m1, to, BalanceIn(m1, to) + amount);
  }

  // ---------------------------------------------------------------------------

  /** The contract, with its untested behaviours fixed per instance by `policy`.
      `tokensFor(value, rate)` is `calculateTokenAmount`, whose formula is not known. */
  class TokenLedger {
    var balances: map<Addr, nat>
    var totalSupply: nat
    var exchangeRate: nat
    var totalEtherCollected: nat
    var mintingEnabled: bool
    var paused: bool
    /** The contract account's native balance. */
    var etherBalance: nat
    const name: string
    const symbol: string
    const decimals: nat
    const owner: Addr
    const tokensFor: (nat, nat) -> nat
    const policy: Policy

    ghost predicate Valid()
      reads this
    {
      && Sum(balances) == totalSupply
      && totalSupply <= MaxSupply
      && exchangeRate > 0
      && etherBalance <= totalEtherCollected
    }

    /** Deployment: 10% of the cap to the deployer, the initial rate, minting on, not paused. */
    constructor(deployer: Addr, tokensFor: (nat, nat) -> nat, policy: Policy)
      ensures Valid()
      ensures name == "Amazon Coin" && symbol == "AC" && decimals == 18
      ensures balances == map[deployer := ContractConstants.InitialSupply()]
      ensures totalSupply == ContractConstants.InitialSupply() == MaxSupply / 10
      ensures exchangeRate == InitialExchangeRate
      ensures mintingEnabled && !paused
      ensures totalEtherCollected == 0 && etherBalance == 0
      ensures owner == deployer && this.tokensFor == tokensFor && this.policy == policy
    {
      name := ContractConstants.TokenName;
      symbol := ContractConstants.TokenSymbol;
      decimals := ContractConstants.TokenDecimals;
      balances := map[deployer := ContractConstants.InitialSupply()];
      totalSupply := ContractConstants.InitialSupply();
      exchangeRate := InitialExchangeRate;
      totalEtherCollected := 0;
      mintingEnabled := true;
      paused := false;
      etherBalance := 0;
      owner := deployer;
      this.tokensFor := tokensFor;
      this.policy := policy;
      new;
      SumRemove(balances, deployer);
      assert balances - {deployer} == map[];
    }

    // Views

    function BalanceOf(a: Addr): nat
      reads this
    {
      BalanceIn(balances, a)
    }

    /** `getRemainingSupply`. */
    function GetRemainingSupply(): (r: nat)
      reads this
      requires Valid()
      ensures r + totalSupply == MaxSupply
    {
      MaxSupply - totalSupply
    }

    function CalculateEtherCost(amount: nat): nat
      reads this
    {
      EtherCost(amount, exchangeRate)
    }

    function CalculateTokenAmount(value: nat): nat
      reads this
    {
      tokensFor(value, exchangeRate)
    }

    /** Every holder's balance is within the total supply, hence within the cap. */
    lemma BalanceWithinSupply(a: Addr)
      requires Valid()
      ensures BalanceOf(a) <= totalSupply <= MaxSupply
    {
      SumBound(balances, a);
    }

    // Frames of the state changes

    twostate predicate TokensUnchanged()
      reads this
    {
      balances == old(balances) && totalSupply == old(totalSupply)
    }

    twostate predicate EtherUnchanged()
      reads this
    {
      totalEtherCollected == old(totalEtherCollected) && etherBalance == old(etherBalance)
    }

    twostate predicate SettingsUnchanged()
      reads this
    {
      exchangeRate == old(exchangeRate) && mintingEnabled == old(mintingEnabled) && paused == old(paused)
    }

    /** `amount` new tokens for `to`. */
    twostate predicate Credited(to: Addr, amount: nat)
      reads this
    {
      balances == old(balances)[to := old(BalanceOf(to)) + amount] && totalSupply == old(totalSupply) + amount
    }

    /** `_mint`, once the caller's gates have passed. */
    method Credit(to: Addr, amount: nat)
      requires Valid() && totalSupply + amount <= MaxSupply
      modifies this
      ensures Valid()
      ensures Credited(to, amount) && EtherUnchanged() && SettingsUnchanged()
    {
      SumUpdate(balances, to, BalanceOf(to) + amount);
      balances := balances[to := BalanceOf(to) + amount];
      totalSupply := totalSupply + amount;
    }

    // -------------------------------------------------------------------------
    // Gates: the reasons of the checks that fail in the current state, in the order the
    // model tests them.

    predicate PaymentAccepted(amount: nat, value: nat)
      reads this
    {
      if policy.acceptsOverpayment then value >= EtherCost(amount, exchangeRate)
      else value == EtherCost(amount, exchangeRate)
    }

    function PurchaseFailures(amount: nat, value: nat): seq<string>
      reads this
    {
      (if paused then [WhilePaused] else [])
      + (if amount == 0 then [ZeroAmount] else [])
      + (if !mintingEnabled then [MintingDisabled] else [])
      + (if totalSupply + amount > MaxSupply then [PurchaseCap] else [])
      + (if !PaymentAccepted(amount, value) then [WrongPayment] else [])
    }

    /** `receive`: the pause check has its own reason; the other checks are purchase's on
        the token amount the value buys. */
    function ReceiveFailures(value: nat): seq<string>
      reads this
    {
      var tokens := tokensFor(value, exchangeRate);
      (if paused then [ContractPaused] else [])
      + (if tokens == 0 then [ZeroAmount] else [])
      + (if !mintingEnabled then [MintingDisabled] else [])
      + (if totalSupply + tokens > MaxSupply then [PurchaseCap] else [])
    }

    function MintFailures(caller: Addr, amount: nat): seq<string>
      reads this
    {
      (if caller != owner then [NotOwner] else [])
      + (if policy.mintBlockedWhilePaused && paused then [WhilePaused] else [])
      + (if !mintingEnabled then [MintingDisabled] else [])
      + (if totalSupply + amount > MaxSupply then [MintCap] else [])
    }

    function TransferFailures(from: Addr, amount: nat): seq<string>
      reads this
    {
      (if paused then [WhilePaused] else [])
      + (if BalanceOf(from) < amount then [TransferExceeds] else [])
    }

    function BurnFailures(holder: Addr, amount: nat): seq<string>
      reads this
    {
      (if policy.burnBlockedWhilePaused && paused then [WhilePaused] else [])
      + (if BalanceOf(holder) < amount then [BurnExceeds] else [])
    }

    function OwnerFailures(caller: Addr): seq<string>
      reads this
    {
      if caller != owner then [NotOwner] else []
    }

    /** The cap reason and the payment reason differ, so a purchase that breaks the cap
        cannot report the payment. */
    lemma CapReasonIsNotPaymentReason()
      ensures PurchaseCap != WrongPayment
    {
      assert |PurchaseCap| != |WrongPayment|;
    }

    // -------------------------------------------------------------------------
    // Calls

    /** `purchaseTokens(amount)` with `value` attached. */
    method PurchaseTokens(buyer: Addr, amount: nat, value: nat) returns (o: Outcome)
      requires Valid()
      modifies this
      ensures Valid()
      ensures o.Ok? <==> old(PurchaseFailures(amount, value)) == []
      ensures o.Revert? ==> o.reason in old(PurchaseFailures(amount, value)) && unchanged(this)
      ensures o.Revert? && PurchaseCap in old(PurchaseFailures(amount, value)) ==> o.reason != WrongPayment
      ensures o.Ok? ==>
        && Credited(buyer, amount) && SettingsUnchanged()
        && totalEtherCollected == old(totalEtherCollected) + value
        && etherBalance == old(etherBalance) + value
        && o.events == [TokensPurchased(buyer, amount, value)]
    {
      if paused {
        return Revert(WhilePaused);
      }
      if amount == 0 {
        return Revert(ZeroAmount);
      }
      if !mintingEnabled {
        return Revert(MintingDisabled);
      }
      if totalSupply + amount > MaxSupply {
        CapReasonIsNotPaymentReason();
        return Revert(PurchaseCap);
      }
      if !PaymentAccepted(amount, value) {
        return Revert(WrongPayment);
      }
      Credit(buyer, amount);
      totalEtherCollected := totalEtherCollected + value;
      etherBalance := etherBalance + value;
      o := Ok([TokensPurchased(buyer, amount, value)]);
    }

    /** Ether sent with no call data: buys `calculateTokenAmount(value)` tokens. */
    method Receive(sender: Addr, value: nat) returns (o: Outcome)
      requires Valid()
      modifies this
      ensures Valid()
      ensures o.Ok? <==> old(ReceiveFailures(value)) == []
      ensures o.Revert? ==> o.reason in old(ReceiveFailures(value)) && unchanged(this)
      ensures old(paused) ==> o == Revert(ContractPaused)
      ensures o.Ok? ==>
        && Credited(sender, old(CalculateTokenAmount(value))) && SettingsUnchanged()
        && totalEtherCollected == old(totalEtherCollected) + value
        && etherBalance == old(etherBalance) + value
        && o.events == [TokensPurchased(sender, old(CalculateTokenAmount(value)), value)]
    {
      if paused {
        return Revert(ContractPaused);
      }
      var tokens := tokensFor(value, exchangeRate);
      if tokens == 0 {
        return Revert(ZeroAmount);
      }
      if !mintingEnabled {
        return Revert(MintingDisabled);
      }
      if totalSupply + tokens > MaxSupply {
        return Revert(PurchaseCap);
      }
      Credit(sender, tokens);
      totalEtherCollected := totalEtherCollected + value;
      etherBalance := etherBalance + value;
      o := Ok([TokensPurchased(sender, tokens, value)]);
    }

    /** The owner's `mint(to, amount)`: reported like a purchase with no payment. */
    method Mint(caller: Addr, to: Addr, amount: nat) returns (o: Outcome)
      requires Valid()
      modifies this
      ensures Valid()
      ensures o.Ok? <==> old(MintFailures(caller, amount)) == []
      ensures o.Revert? ==> o.reason in old(MintFailures(caller, amount)) && unchanged(this)
      ensures o.Ok? ==>
        && Credited(to, amount) && SettingsUnchanged() && EtherUnchanged()
        && o.events == [TokensPurchased(to, amount, 0)]
    {
      if caller != owner {
        return Revert(NotOwner);
      }
      if policy.mintBlockedWhilePaused && paused {
        return Revert(WhilePaused);
      }
      if !mintingEnabled {
        return Revert(MintingDisabled);
      }
      if totalSupply + amount > MaxSupply {
        return Revert(MintCap);
      }
      Credit(to, amount);
      o := Ok([TokensPurchased(to, amount, 0)]);
    }

    /** `transfer(to, amount)` from `from`; a transfer to oneself changes no balance. */
    method Transfer(from: Addr, to: Addr, amount: nat) returns (o: Outcome)
      requires Valid()
      modifies this
      ensures Valid()
      ensures o.Ok? <==> old(TransferFailures(from, amount)) == []
      ensures o.Revert? ==> o.reason in old(TransferFailures(from, amount)) && unchanged(this)
      ensures o.Ok? ==>
        && balances == Move(old(balances), from, to, amount) && totalSupply == old(totalSupply)
        && SettingsUnchanged() && EtherUnchanged() && o.events == []
    {
      if paused {
        return Revert(WhilePaused);
      }
      if BalanceOf(from) < amount {
        return Revert(TransferExceeds);
      }
      MovePreservesSum(balances, from, to, amount);
      balances := Move(balances, from, to, amount);
      o := Ok([]);
    }

    /** `burn(amount)` by `holder`. */
    method Burn(holder: Addr, amount: nat) returns (o: Outcome)
      requires Valid()
      modifies this
      ensures Valid()
      ensures o.Ok? <==> old(BurnFailures(holder, amount)) == []
      ensures o.Revert? ==> o.reason in old(BurnFailures(holder, amount)) && unchanged(this)
      ensures o.Ok? ==>
        && balances == old(balances)[holder := old(BalanceOf(holder)) - amount]
        && totalSupply == old(totalSupply) - amount
        && SettingsUnchanged() && EtherUnchanged() && o.events == []
    {
      if policy.burnBlockedWhilePaused && paused {
        return Revert(WhilePaused);
      }
      if BalanceOf(holder) < amount {
        return Revert(BurnExceeds);
      }
      SumUpdate(balances, holder, BalanceOf(holder) - amount);
      SumBound(balances, holder);
      balances := balances[holder := BalanceOf(holder) - amount];
      totalSupply := totalSupply - amount;
      o := Ok([]);
    }

    method SetExchangeRate(caller: Addr, newRate: nat) returns (o: Outcome)
      requires Valid()
      modifies this
      ensures Valid()
      ensures o.Ok? <==> old(OwnerFailures(caller)) == [] && newRate > 0
      ensures o.Revert? ==> o.reason in old(OwnerFailures(caller)) + (if newRate == 0 then [ZeroRate] else []) && unchanged(this)
      ensures o.Ok? ==>
        && exchangeRate == newRate && mintingEnabled == old(mintingEnabled) && paused == old(paused)
        && TokensUnchanged() && EtherUnchanged()
        && o.events == [ExchangeRateUpdated(old(exchangeRate), newRate)]
    {
      if caller != owner {
        return Revert(NotOwner);
      }
      if newRate == 0 {
        return Revert(ZeroRate);
      }
      o := Ok([ExchangeRateUpdated(exchangeRate, newRate)]);
      exchangeRate := newRate;
    }

    method SetMintingEnabled(caller: Addr, enabled: bool) returns (o: Outcome)
      requires Valid()
      modifies this
      ensures Valid()
      ensures o.Ok? <==> old(OwnerFailures(caller)) == []
      ensures o.Revert? ==> o == Revert(NotOwner) && unchanged(this)
      ensures o.Ok? ==>
        && mintingEnabled == enabled && exchangeRate == old(exchangeRate) && paused == old(paused)
        && TokensUnchanged() && EtherUnchanged()
        && o.events == [MintingStatusChanged(enabled)]
    {
      if caller != owner {
        return Revert(NotOwner);
      }
      mintingEnabled := enabled;
      o := Ok([MintingStatusChanged(enabled)]);
    }

    method Pause(caller: Addr) returns (o: Outcome)
      requires Valid()
      modifies this
      ensures Valid()
      ensures o.Ok? <==> old(OwnerFailures(caller)) == [] && !old(paused)
      ensures o.Revert? ==> o.reason in old(OwnerFailures(caller)) + (if old(paused) then [WhilePaused] else []) && unchanged(this)
      ensures o.Ok? ==>
        && paused && exchangeRate == old(exchangeRate) && mintingEnabled == old(mintingEnabled)
        && TokensUnchanged() && EtherUnchanged()
    {
      if caller != owner {
        return Revert(NotOwner);
      }
      if paused {
        return Revert(WhilePaused);
      }
      paused := true;
      o := Ok([]);
    }

    method Unpause(caller: Addr) returns (o: Outcome)
      requires Valid()
      modifies this
      ensures Valid()
      ensures o.Ok? <==> old(OwnerFailures(caller)) == [] && old(paused)
      ensures o.Revert? ==> o.reason in old(OwnerFailures(caller)) + (if !old(paused) then [WhileNotPaused] else []) && unchanged(this)
      ensures o.Ok? ==>
        && !paused && exchangeRate == old(exchangeRate) && mintingEnabled == old(mintingEnabled)
        && TokensUnchanged() && EtherUnchanged()
    {
      if caller != owner {
        return Revert(NotOwner);
      }
      if !paused {
        return Revert(WhileNotPaused);
      }
      paused := false;
      o := Ok([]);
    }

    /** `withdrawEther(amount)` to the owner. */
    method WithdrawEther(caller: Addr, amount: nat) returns (o: Outcome)
      requires Valid()
      modifies this
      ensures Valid()
      ensures o.Ok? <==> old(OwnerFailures(caller)) == [] && amount <= old(etherBalance)
      ensures o.Revert? ==>
        o.reason in old(OwnerFailures(caller)) + (if amount > old(etherBalance) then [InsufficientEther] else [])
        && unchanged(this)
      ensures o.Ok? ==>
        && etherBalance == old(etherBalance) - amount
        && totalEtherCollected == old(totalEtherCollected) - (if policy.withdrawReducesCollected then amount else 0)
        && TokensUnchanged() && SettingsUnchanged()
        && o.events == [EtherWithdrawn(caller, amount)]
    {
      if caller != owner {
        return Revert(NotOwner);
      }
      if amount > etherBalance {
        return Revert(InsufficientEther);
      }
      etherBalance := etherBalance - amount;
      if policy.withdrawReducesCollected {
        totalEtherCollected := totalEtherCollected - amount;
      }
      o := Ok([EtherWithdrawn(caller, amount)]);
    }

    /** `emergencyWithdrawAll`: empties the contract and its ledger of collected ether,
        paused or not. */
    method EmergencyWithdrawAll(caller: Addr) returns (o: Outcome)
      requires Valid()
      modifies this
      ensures Valid()
      ensures o.Ok? <==> old(OwnerFailures(caller)) == []
      ensures o.Revert? ==> o == Revert(NotOwner) && unchanged(this)
      ensures o.Ok? ==>
        && etherBalance == 0 && totalEtherCollected == 0
        && TokensUnchanged() && SettingsUnchanged()
        && o.events == [EmergencyWithdrawal(caller, old(etherBalance))]
    {
      if caller != owner {
        return Revert(NotOwner);
      }
      o := Ok([EmergencyWithdrawal(caller, etherBalance)]);
      etherBalance := 0;
      totalEtherCollected := 0;
    }
  }
}
