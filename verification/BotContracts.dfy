/** The rebalancer's two contracts as they run: each updates its own storage in place, the liquidity
    contract calls the vault, and the vault pays out only what the liquidity contract authorizes. Every
    message is proved equal to its function in BotPair, and a failed transaction changes nothing. */
module BotContracts {
  import opened Arithmetic
  import opened Tokens
  import opened Ledger
  import opened Settlement
  import opened ParityPlan
  import opened BotPair
  import NavShares
  import FeeMint
  import Runs = BotRuns

  /** `bot-vault`: the tokens and the rebalance in progress. */
  class BotVault {
    var balances: Amounts
    var reference: nat
    var rebalance: Option<Pending>
    var paused: bool
    var paid: seq<Transfer>

    constructor (reference: nat)
      ensures balances == Nothing() && this.reference == reference && rebalance.None? && paused && paid == []
    {
      balances, this.reference, rebalance, paused, paid := Nothing(), reference, None, true, [];
    }

    method Pay(t: Token, amount: nat)
      requires amount <= balances.Get(t)
      modifies this`balances
      ensures balances == old(balances).Put(t, old(balances).Get(t) - amount)
    {
      balances := balances.Put(t, balances.Get(t) - amount);
    }

    method Receive(t: Token, amount: nat)
      modifies this`balances
      ensures balances == old(balances).Put(t, old(balances).Get(t) + amount)
    {
      balances := balances.Put(t, balances.Get(t) + amount);
    }
  }

  /** `bot-liquidity`: the LP token and the pending operation. */
  class BotLiquidity {
    const c: Settings
    const vault: BotVault
    var lp: Shares
    var supply: nat
    var allowances: map<(Address, Address), nat>
    var operation: Option<Operation>

    function State(): Bot
      reads this, vault
    {
      Bot(vault.balances, vault.reference, vault.rebalance, vault.paused, lp, supply, allowances, operation,
          vault.paid)
    }

    /** The message did what `outcome` says; after an error the storage is whatever it had reached. */
    ghost predicate Follows(outcome: Outcome, r: Result<(), Error>)
      reads this, vault
    {
      match outcome
      case Ok(after) => r == Ok(()) && State() == after
      case Err(error) => r == Err(error)
    }

    constructor (c: Settings, vault: BotVault)
      requires c.Valid()
      ensures this.c == c && this.vault == vault
      ensures State() == Bot(vault.balances, vault.reference, vault.rebalance, vault.paused, map[], 0, map[], None,
                              vault.paid)
    {
      this.c, this.vault, lp, supply, allowances, operation := c, vault, map[], 0, map[], None;
    }

    // ---- The vault's messages, with the authorization it queries ----

    method VaultSwap(params: Swap, received: Option<nat>) returns (r: Result<(), Error>)
      modifies vault`balances
      ensures Follows(LiquiditySwap(old(State()), params, received), r)
    {
      if vault.paused { return Err(Paused); }
      if vault.rebalance.Some? { return Err(RebalancePending); }
      if Authorized(State()).swap != Some(params) { return Err(NotAuthorized); }
      if received.None? || params.amount > vault.balances.Get(params.offer) { return Err(SwapFailed); }
      vault.Pay(params.offer, params.amount);
      vault.Receive(params.offer.Other(), received.value);
      return Ok(());
    }

    method VaultFinalize() returns (r: Result<(), Error>)
      ensures Follows(Finalize(State()), r)
    {
      if vault.paused { return Err(Paused); }
      if vault.rebalance.Some? { return Err(RebalancePending); }
      if !Authorized(State()).finalize { return Err(NotAuthorized); }
      return Ok(());
    }

    method VaultTransfer(t: Transfer) returns (r: Result<(), Error>)
      modifies vault`balances, vault`paid
      ensures Follows(TransferTo(old(State()), t), r)
    {
      if vault.rebalance.Some? { return Err(RebalancePending); }
      if t.amount == 0 { return Err(ZeroAmount); }
      if t !in Authorized(State()).transfers { return Err(NotAuthorized); }
      if t.amount > vault.balances.Get(t.token) { return Err(TransferFailed); }
      vault.Pay(t.token, t.amount);
      vault.paid := vault.paid + [t];
      return Ok(());
    }

    // ---- Shares ----

    method MintShares(to: Address, amount: nat) returns (r: Result<(), Error>)
      modifies this`lp, this`supply
      ensures Follows(Mint(old(State()), to, amount), r)
      ensures r.Err? ==> State() == old(State())
    {
      if supply + amount >= TWO_128 { return Err(ArithmeticOverflow); }
      supply := supply + amount;
      lp := lp[to := Balance(lp, to) + amount];
      return Ok(());
    }

    method BurnOwned(owner: Address, amount: nat) returns (r: Result<(), Error>)
      modifies this`lp, this`supply
      ensures Follows(Burn(old(State()), owner, amount), r)
      ensures r.Err? ==> State() == old(State())
    {
      if amount > Balance(lp, owner) || amount > supply { return Err(InsufficientShares); }
      lp := lp[owner := Balance(lp, owner) - amount];
      supply := supply - amount;
      return Ok(());
    }

    // ---- Deposit ----

    method ExecuteDeposit(sender: Address, amounts: Amounts, minShares: nat, swap: Option<Swap>, price: nat)
      returns (r: Result<(), Error>)
      modifies this`operation, vault`balances
      ensures Follows(StartDeposit(old(State()), sender, amounts, minShares, swap, price), r)
    {
      if operation.Some? { return Err(OperationPending); }
      if amounts == Nothing() { return Err(ZeroAmount); }
      if swap.Some? && (swap.value.amount == 0 || swap.value.amount > amounts.Get(swap.value.offer)) {
        return Err(InvalidDepositSwap);
      }
      operation := Some(Depositing(sender, vault.balances, supply, price, minShares, swap));
      if amounts.t0 > 0 { vault.Receive(Token0, amounts.t0); }
      if amounts.t1 > 0 { vault.Receive(Token1, amounts.t1); }
      return Ok(());
    }

    method ReplyDeposit(settledPrice: nat) returns (r: Result<(), Error>)
      requires settledPrice > 0 && (operation.Some? && operation.value.Depositing? ==> operation.value.price > 0)
      modifies this`lp, this`supply, this`operation
      ensures Follows(CompleteDeposit(c, old(State()), settledPrice), r)
    {
      hide SharesFor, AllocationDeviation;
      if operation.None? || !operation.value.Depositing? { return Err(UnknownReply); }
      var Depositing(depositor, pre, preSupply, price, minShares, _) := operation.value;
      if !vault.balances.Covers(pre) { return Err(InvalidDepositSettlement); }
      if AllocationDeviation(vault.balances, settledPrice) > c.tolerance { return Err(AllocationOutsideTolerance); }
      var due := SharesFor(c, pre, vault.balances, preSupply, price);
      if due.Err? { return Err(due.error); }
      var (locked, shares) := due.value;
      if preSupply == 0 {
        var first := MintShares(c.self, locked);
        if first.Err? { return first; }
      }
      if shares == 0 { return Err(ZeroShares); }
      if shares < minShares { return Err(MinimumNotMet); }
      r := MintShares(depositor, shares);
      if r.Err? { return; }
      operation := None;
    }

    // ---- Withdrawal ----

    method ExecuteWithdraw(
      sender: Address, shares: nat, recipient: Address, minAssets: Amounts) returns (r: Result<(), Error>)
      modifies this`lp, this`supply, this`operation
      ensures Follows(StartProRata(old(State()), sender, shares, recipient, minAssets), r)
    {
      hide Claims;
      var claims := Claims(State(), sender, shares);
      if claims.Err? { return Err(claims.error); }
      if !claims.value.Covers(minAssets) { return Err(MinimumNotMet); }
      var transfers := TransfersOf(claims.value, recipient);
      if transfers == [] { return Err(ZeroAmount); }
      operation := Some(Transferring(transfers, |transfers|));
      r := BurnOwned(sender, shares);
    }

    method ExecuteSingleWithdraw(
      sender: Address, shares: nat, recipient: Address, payout: Token, minAmount: nat,
      swap: Swap) returns (r: Result<(), Error>)
      modifies this`operation
      ensures Follows(StartSingle(old(State()), sender, shares, recipient, payout, minAmount, swap), r)
    {
      hide Claims;
      var claims := Claims(State(), sender, shares);
      if claims.Err? { return Err(claims.error); }
      var unwanted := claims.value.Get(payout.Other());
      if swap.offer != payout.Other() || swap.amount != unwanted || swap.amount == 0
      {
        return Err(InvalidWithdrawalSwap);
      }
      operation := Some(Withdrawing(sender, shares, recipient, payout, claims.value.Get(payout),
        vault.balances.Get(payout),
                                    minAmount, swap));
      return Ok(());
    }

    method ReplySingle(swapped: bool) returns (r: Result<(), Error>)
      modifies this`lp, this`supply, this`operation
      ensures Follows(CompleteSingle(old(State()), swapped), r)
    {
      if operation.None? || !operation.value.Withdrawing? { return Err(UnknownReply); }
      var Withdrawing(owner, shares, recipient, payout, base, prePayout, minAmount, _) := operation.value;
      if !swapped {
        operation := None;
        return Ok(());
      }
      if vault.balances.Get(payout) < prePayout { return Err(InvalidDepositSettlement); }
      var paid := base + (vault.balances.Get(payout) - prePayout);
      if paid < minAmount { return Err(MinimumNotMet); }
      r := BurnOwned(owner, shares);
      if r.Err? { return; }
      operation := Some(Transferring([Transfer(payout, paid, recipient)], 1));
    }

    method ReplyTransfer() returns (r: Result<(), Error>)
      modifies this`operation
      ensures if old(operation).None? || !old(operation).value.Transferring? || old(operation).value.remaining == 0
              then r == Err(UnknownReply)
              else r == Ok(())
                   && operation == (if old(operation).value.remaining == 1 then None
                                    else Some(old(operation).value.(remaining := old(operation).value.remaining - 1)))
    {
      if operation.None? || !operation.value.Transferring? { return Err(UnknownReply); }
      var Transferring(transfers, remaining) := operation.value;
      if remaining == 0 { return Err(UnknownReply); }
      operation := if remaining == 1 then None else Some(Transferring(transfers, remaining - 1));
      return Ok(());
    }

    /** The queued transfers, each followed by its reply. */
    method RunTransfers(transfers: seq<Transfer>) returns (r: Result<(), Error>)
      modifies this`operation, vault`balances, vault`paid
      ensures Follows(TransferAll(old(State()), transfers), r)
    {
      var i := 0;
      while i < |transfers|
        invariant i <= |transfers|
        invariant lp == old(lp) && supply == old(supply) && allowances == old(allowances)
        invariant vault.reference == old(vault.reference) && vault.rebalance == old(vault.rebalance)
                  && vault.paused == old(vault.paused)
        invariant TransferAll(old(State()), transfers) == TransferAll(State(), transfers[i..])
      {
        assert transfers[i..][0] == transfers[i] && transfers[i..][1..] == transfers[i + 1..];
        r := VaultTransfer(transfers[i]);
        if r.Err? { return; }
        r := ReplyTransfer();
        if r.Err? { return; }
        i := i + 1;
      }
      return Ok(());
    }

    // ---- The LP token ----

    method ExecuteTransfer(sender: Address, to: Address, amount: nat) returns (r: Result<(), Error>)
      modifies this`lp
      ensures Follows(TransferShares(old(State()), sender, to, amount), r)
    {
      if operation.Some? { return Err(OperationPending); }
      if amount > Balance(lp, sender) { return Err(InsufficientShares); }
      lp := lp[sender := Balance(lp, sender) - amount];
      lp := lp[to := Balance(lp, to) + amount];
      return Ok(());
    }

    method ExecuteBurn(sender: Address, amount: nat) returns (r: Result<(), Error>)
      modifies this`lp, this`supply
      ensures Follows(BurnShares(old(State()), sender, amount), r)
    {
      if operation.Some? { return Err(OperationPending); }
      r := BurnOwned(sender, amount);
    }

    method ChangeAllowance(sender: Address, spender: Address, change: int) returns (r: Result<(), Error>)
      modifies this`allowances
      ensures Follows(Approve(old(State()), sender, spender, change), r)
    {
      if operation.Some? { return Err(OperationPending); }
      if sender == spender { return Err(Unauthorized); }
      var next := Allowance(State(), sender, spender) + change;
      if next >= TWO_128 { return Err(ArithmeticOverflow); }
      allowances := allowances[(sender, spender) := if next < 0 then 0 else next];
      return Ok(());
    }

    method SpendAllowance(spender: Address, owner: Address, amount: nat) returns (r: Result<(), Error>)
      modifies this`allowances
      ensures Follows(Spend(old(State()), spender, owner, amount), r)
    {
      if operation.Some? { return Err(OperationPending); }
      if amount > Allowance(State(), owner, spender) { return Err(InsufficientAllowance); }
      allowances := allowances[(owner, spender) := Allowance(State(), owner, spender) - amount];
      return Ok(());
    }

    // ---- Rebalance ----

    method ExecuteRebalance(sender: Address, m: Market) returns (r: Result<(), Error>)
      requires c.Valid() && m.Valid() && vault.reference > 0
      modifies vault`rebalance
      ensures Follows(StartRebalance(c, old(State()), sender, m), r)
    {
      hide Plan, Authorized;
      if sender != c.keeper { return Err(Unauthorized); }
      if vault.paused { return Err(Paused); }
      if vault.rebalance.Some? || !LiquidityIdle(State()) { return Err(RebalancePending); }
      if !m.pairKnown { return Err(PairCodeMismatch); }
      if !m.inTime { return Err(Expired); }
      var plan := Plan(c, State(), m);
      if plan.Err? { return Err(plan.error); }
      if !m.poolSafe { return Err(UnsafePool); }
      vault.rebalance := Some(plan.value);
      return Ok(());
    }

    method ReplyRebalance(feeBps: nat) returns (r: Result<(), Error>)
      requires c.Valid() && (vault.rebalance.Some? ==> vault.rebalance.value.twap > 0)
      modifies this`lp, this`supply, vault`rebalance, vault`reference
      ensures Follows(Settle(c, old(State()), feeBps), r)
    {
      hide AllocationDeviation, Nav, NavShares.CreditedValue, BotPair.ChargeFee;
      if vault.rebalance.None? { return Err(MissingPendingRebalance); }
      var p := vault.rebalance.value;
      var valid := ValidateSettlement(p, vault.balances);
      if valid.Err? { return Err(if valid.error.Overflow? then ArithmeticOverflow else AllocationDidNotImprove); }
      var outcome := ValidateOutcome(p.preDeviation, AllocationDeviation(vault.balances, p.twap), c.tolerance);
      if outcome.Err? { return Err(AllocationDidNotImprove); }
      if outcome.value { vault.reference := p.twap; }
      vault.rebalance := None;
      var ask := p.offer.Other();
      var value := NavShares.CreditedValue(ask, vault.balances.Get(ask) - p.balances.Get(ask), p.twap);
      if value >= TWO_128 { return Err(ArithmeticOverflow); }
      var assets := Nav(vault.balances, p.twap);
      if assets.None? { return Err(ArithmeticOverflow); }
      r := ChargeFee(value, assets.value, feeBps);
    }

    method ChargeFee(value: nat, assets: nat, feeBps: nat) returns (r: Result<(), Error>)
      modifies this`lp, this`supply
      ensures Follows(BotPair.ChargeFee(c, old(State()), value, assets, feeBps), r)
    {
      hide FeeMint.FeeShares, Floor;
      if c.collector.None? { return Ok(()); }
      var fee := Floor(value * feeBps, BPS);
      var minted := FeeMint.FeeShares(fee, assets, supply);
      if minted == 0 { return Ok(()); }
      if minted >= TWO_128 { return Err(ArithmeticOverflow); }
      r := MintShares(c.collector.value, minted);
    }

    method ExecuteSyncReference(sender: Address, twap: nat) returns (r: Result<(), Error>)
      requires twap > 0 && vault.reference > 0
      modifies vault`reference
      ensures Follows(SyncReference(c, old(State()), sender, twap), r)
    {
      hide AllocationDeviation, RatioDeviation, Authorized;
      if sender != c.keeper { return Err(Unauthorized); }
      if vault.paused { return Err(Paused); }
      if !LiquidityIdle(State()) { return Err(RebalancePending); }
      if !RebalanceRequired(c, State(), twap) { return Err(RebalanceNotRequired); }
      if AllocationDeviation(vault.balances, twap) > c.tolerance { return Err(AllocationOutsideTolerance); }
      vault.reference := twap;
      return Ok(());
    }

    // ---- Whole transactions ----

    method DepositTransaction(sender: Address, amounts: Amounts, minShares: nat, swap: Option<Swap>, venue: Venue)
      returns (r: Result<(), Error>)
      requires venue.Valid()
      modifies this, vault
      ensures Follows(Deposit(c, old(State()), sender, amounts, minShares, swap, venue), r)
    {
      hide LiquiditySwap, Finalize, CompleteDeposit;
      r := ExecuteDeposit(sender, amounts, minShares, swap, venue.price);
      if r.Err? { return; }
      if swap.Some? {
        r := VaultSwap(swap.value, venue.received);
      } else {
        r := VaultFinalize();
      }
      if r.Err? { return; }
      SwapKeepsOperation(old(State()), sender, amounts, minShares, swap, venue);
      r := ReplyDeposit(venue.settledPrice);
    }

    method WithdrawTransaction(
      sender: Address, shares: nat, recipient: Address, minAssets: Amounts) returns (r: Result<(), Error>)
      modifies this, vault
      ensures Follows(WithdrawBoth(old(State()), sender, shares, recipient, minAssets), r)
    {
      hide TransferAll, Claims;
      r := ExecuteWithdraw(sender, shares, recipient, minAssets);
      if r.Err? { return; }
      r := RunTransfers(operation.value.transfers);
    }

    /** The chain undoes a failed swap before the reply runs. */
    method SingleTransaction(
      sender: Address, shares: nat, recipient: Address, payout: Token, minAmount: nat, swap: Swap,
      received: Option<nat>)
      returns (r: Result<(), Error>)
      modifies this, vault
      ensures Follows(WithdrawOne(old(State()), sender, shares, recipient, payout, minAmount, swap, received), r)
    {
      hide LiquiditySwap, TransferAll, StartSingle;
      r := ExecuteSingleWithdraw(sender, shares, recipient, payout, minAmount, swap);
      if r.Err? { return; }
      var before := vault.balances;
      var swapped := VaultSwap(swap, received);
      if swapped.Err? { vault.balances := before; }
      r := ReplySingle(swapped.Ok?);
      if r.Err? || swapped.Err? { return; }
      r := RunTransfers(operation.value.transfers);
    }

    method RebalanceTransaction(sender: Address, m: Market) returns (r: Result<(), Error>)
      requires c.Valid() && m.Valid() && vault.reference > 0
      modifies this, vault
      ensures Follows(Rebalance(c, old(State()), sender, m), r)
    {
      hide Plan, Settle;
      ghost var before := State();
      r := ExecuteRebalance(sender, m);
      if r.Err? { return; }
      vault.balances := m.settled;
      StartedAtTwap(c, before, sender, m);
      r := ReplyRebalance(m.feeBps);
    }

    method Dispatch(a: Runs.Action) returns (r: Result<(), Error>)
      requires c.Valid() && a.Valid(c) && vault.reference > 0
      modifies this, vault
      ensures Follows(Runs.Execute(c, old(State()), a), r)
    {
      hide Deposit, WithdrawBoth, WithdrawOne, Rebalance, SyncReference;
      match a
      case DepositBy(sender, amounts, minShares, swap, venue) =>
        r := DepositTransaction(sender, amounts, minShares, swap, venue);
      case ProRataBy(sender, shares, recipient, minAssets) =>
        r := WithdrawTransaction(sender, shares, recipient, minAssets);
      case SingleBy(sender, shares, recipient, payout, minAmount, swap, received) =>
        r := SingleTransaction(sender, shares, recipient, payout, minAmount, swap, received);
      case TransferBy(sender, to, amount) => r := ExecuteTransfer(sender, to, amount);
      case BurnBy(sender, amount) => r := ExecuteBurn(sender, amount);
      case ApproveBy(sender, spender, change) => r := ChangeAllowance(sender, spender, change);
      case TransferFromBy(spender, owner, to, amount) =>
        r := SpendAllowance(spender, owner, amount);
        if r.Ok? { r := ExecuteTransfer(owner, to, amount); }
      case BurnFromBy(spender, owner, amount) =>
        r := SpendAllowance(spender, owner, amount);
        if r.Ok? { r := ExecuteBurn(owner, amount); }
      case RebalanceBy(sender, m) => r := RebalanceTransaction(sender, m);
      case SyncBy(sender, twap) => r := ExecuteSyncReference(sender, twap);
      case SetPaused(paused) => vault.paused := paused; r := Ok(());
      case Donation(gift) => vault.balances := vault.balances.Plus(gift); r := Ok(());
    }

    /** One transaction: it commits whole or leaves both contracts as they were, and the invariant holds after. */
    method Execute(a: Runs.Action) returns (r: Result<(), Error>)
      requires c.Valid() && a.Valid(c) && Runs.Inv(c, State())
      modifies this, vault
      ensures State() == Runs.Apply(c, old(State()), a) && Runs.Inv(c, State())
      ensures r.Ok? <==> Runs.Execute(c, old(State()), a).Ok?
    {
      hide Runs.Execute;
      var before := State();
      Runs.StepKeepsInv(c, before, a);
      r := Dispatch(a);
      if r.Err? {
        vault.balances, vault.reference, vault.rebalance, vault.paused, vault.paid := before.held, before.reference,
          before.rebalance, before.paused, before.paid;
        lp, supply, allowances, operation := before.lp, before.supply, before.allowances, before.operation;
      }
    }
  }

  lemma SwapKeepsOperation(b: Bot, sender: Address, amounts: Amounts, minShares: nat, swap: Option<Swap>, venue: Venue)
    requires StartDeposit(b, sender, amounts, minShares, swap, venue.price).Ok?
    requires var started := StartDeposit(b, sender, amounts, minShares, swap, venue.price).value;
             if swap.Some? then LiquiditySwap(started, swap.value, venue.received).Ok? else Finalize(started).Ok?
    ensures var started := StartDeposit(b, sender, amounts, minShares, swap, venue.price).value;
            var settled := if swap.Some? then LiquiditySwap(started, swap.value, venue.received).value
              else Finalize(started).value;
            settled.operation == Some(Depositing(sender, b.held, b.supply, venue.price, minShares, swap))
  {
  }

  lemma StartedAtTwap(c: Settings, b: Bot, sender: Address, m: Market)
    requires c.Valid() && m.Valid() && b.reference > 0 && StartRebalance(c, b, sender, m).Ok?
    ensures var started := StartRebalance(c, b, sender, m).value;
            started.rebalance.Some? && started.rebalance.value.twap == m.twap
              && started == b.(rebalance := started.rebalance)
  {
    hide AllocationDeviation, PlannedOffer, RatioDeviation;
  }
}
