/** The market-grid vault as the contract runs it: storage items updated in place by handlers, with
    checks before writes. Every handler is proved equal to its function in GridMarket. */
module GridVaultSwap {
  import opened Arithmetic
  import opened Tokens
  import opened Ledger
  import opened Settlement
  import opened GridPlan
  import opened GridMarket
  import NavShares
  import FeeMint
  import Runs = GridMarketRuns

  class Contract {
    var config: Config
    var shares: Shares
    var totalShares: nat
    var pendingSwap: Option<Pending>
    var paused: bool
    /** What the two token contracts report for this vault's address. */
    var balances: Amounts

    ghost function State(): Vault
      reads this
    {
      Vault(config, shares, totalShares, pendingSwap, paused, balances)
    }

    ghost predicate Valid()
      reads this
    {
      Runs.Inv(State())
    }

    /** `r` and the state now are what `outcome` says, an error standing for a full revert. */
    ghost predicate Follows(before: Vault, outcome: Outcome, r: Result<(), Error>)
      reads this
    {
      match outcome
      case Ok(after) => r == Ok(()) && State() == after
      case Err(error) => r == Err(error) && State() == before
    }

    constructor (config: Config)
      requires config.Valid() && config.pendingAdmin.None?
      ensures Valid() && totalShares == 0 && balances == Nothing() && !paused
      ensures this.config == config
    {
      this.config, shares, totalShares := config, map[], 0;
      pendingSwap, paused, balances := None, false, Nothing();
    }

    /** The token contract moves the deposit in, then calls the hook; an error undoes both. */
    method ExecuteReceive(sender: Address, token: Token, amount: nat, price: nat) returns (r: Result<(), Error>)
      requires Valid() && 0 < price < TWO_128
      modifies this
      ensures Valid()
      ensures Follows(old(State()), Deposit(old(State()), sender, token, amount, price), r)
    {
      Runs.StepKeepsInv(State(), Runs.DepositBy(sender, token, amount, price));
      if paused { return Err(Paused); }
      if amount == 0 { return Err(ZeroAmount); }
      if sender != config.admin { return Err(Unauthorized); }
      var held := balances.Plus(Just(token, amount));
      var minted := NavShares.DepositShares(amount, token, price, held, totalShares);
      if minted.None? { return Err(ArithmeticOverflow); }
      if minted.value == 0 { return Err(ZeroAmount); }
      var owned := Balance(shares, sender) + minted.value;
      if totalShares + minted.value >= TWO_128 || owned >= TWO_128 { return Err(ArithmeticOverflow); }
      balances := held;
      totalShares := totalShares + minted.value;
      shares := shares[sender := owned];
      return Ok(());
    }

    /** Pays both floored claims out of the vault and retires the shares. */
    method PayOut(owner: Address, burned: nat)
      requires 0 < burned <= Balance(shares, owner) && burned <= totalShares
      modifies this`shares, this`totalShares, this`balances
      ensures State() == Burn(old(State()), owner, burned)
    {
      NavShares.PayoutCovered(balances, burned, totalShares);
      var amount0 := Floor(balances.t0 * burned, totalShares);
      var amount1 := Floor(balances.t1 * burned, totalShares);
      if amount0 > 0 { balances := balances.Put(Token0, balances.t0 - amount0); }
      if amount1 > 0 { balances := balances.Put(Token1, balances.t1 - amount1); }
      totalShares := totalShares - burned;
      shares := shares[owner := Balance(shares, owner) - burned];
    }

    method ExecuteWithdraw(sender: Address, burned: nat) returns (r: Result<(), Error>)
      requires Valid()
      modifies this
      ensures Valid()
      ensures Follows(old(State()), Withdraw(old(State()), sender, burned), r)
    {
      Runs.StepKeepsInv(State(), Runs.WithdrawBy(sender, burned));
      if pendingSwap.Some? { return Err(RebalancePending); }
      if burned == 0 { return Err(ZeroAmount); }
      if burned > Balance(shares, sender) || burned > totalShares { return Err(InsufficientShares); }
      PayOut(sender, burned);
      return Ok(());
    }

    method ExecuteRedeemShares(sender: Address) returns (r: Result<(), Error>)
      requires Valid()
      modifies this
      ensures Valid()
      ensures Follows(old(State()), Redeem(old(State()), sender), r)
    {
      Runs.StepKeepsInv(State(), Runs.RedeemBy(sender));
      if config.collector != Some(sender) { return Err(Unauthorized); }
      var burned := Balance(shares, sender);
      if burned == 0 { return Err(ZeroAmount); }
      if burned > totalShares { return Err(InsufficientShares); }
      if pendingSwap.Some? { return Err(RebalancePending); }
      PayOut(sender, burned);
      return Ok(());
    }

    method ExecuteRebalance(m: Market) returns (r: Result<(), Error>)
      requires config.Valid() && m.Valid()
      modifies this`pendingSwap
      ensures Follows(old(State()), StartRebalance(old(State()), m), r)
    {
      if paused { return Err(Paused); }
      if pendingSwap.Some? { return Err(RebalancePending); }
      if !m.inTime { return Err(Expired); }
      if !m.pairKnown { return Err(PairCodeMismatch); }
      var plan := Plan(Vault(config, shares, totalShares, pendingSwap, paused, balances), m);
      if plan.Err? { return Err(plan.error); }
      if !m.poolSafe { return Err(UnsafePool); }
      pendingSwap := Some(plan.value);
      return Ok(());
    }

    method ChargeFee(value: nat, assets: nat, feeBps: nat) returns (r: Result<(), Error>)
      modifies this`shares, this`totalShares
      ensures Follows(old(State()), GridMarket.ChargeFee(old(State()), value, assets, feeBps), r)
    {
      if config.collector.None? || value == 0 || feeBps == 0 {
        FloorUnique(0, BPS, 0);
        return Ok(());
      }
      var fee := Floor(value * feeBps, BPS);
      if fee == 0 { return Ok(()); }
      var minted := FeeMint.FeeShares(fee, assets, totalShares);
      if minted == 0 { return Ok(()); }
      var owned := Balance(shares, config.collector.value) + minted;
      if owned >= TWO_128 || totalShares + minted >= TWO_128 { return Err(ArithmeticOverflow); }
      shares := shares[config.collector.value := owned];
      totalShares := totalShares + minted;
      return Ok(());
    }

    /** The configuration is saved and the pending record removed before the fee is charged, so a
        failing fee leaves them to the caller's revert; the error is still the specified one. */
    method Reply(feeBps: nat) returns (r: Result<(), Error>)
      requires config.Valid() && (pendingSwap.Some? ==> pendingSwap.value.twap > 0)
      modifies this`config, this`pendingSwap, this`shares, this`totalShares
      ensures var outcome := Settle(old(State()), feeBps);
              if outcome.Ok? then r == Ok(()) && State() == outcome.value else r == Err(outcome.error)
    {
      if pendingSwap.None? { return Err(MissingPendingRebalance); }
      var pending := pendingSwap.value;
      var settled := balances;
      var valid := ValidateSettlement(pending, settled);
      if valid.Err? { return Err(if valid.error.Overflow? then ArithmeticOverflow else AllocationDidNotImprove); }
      var current := AllocationDeviation(settled, pending.twap, config.grid);
      if current.None? { return Err(ArithmeticOverflow); }
      var outcome := ValidateOutcome(pending.preDeviation, current.value, config.tolerance);
      if outcome.Err? { return Err(AllocationDidNotImprove); }
      if outcome.value {
        config := config.(referencePrice := pending.twap, lastCell := GridCell(pending.twap, config.grid));
      }
      pendingSwap := None;
      var ask := pending.offer.Other();
      var proceeds := settled.Get(ask) - pending.balances.Get(ask);
      var value := NavShares.CreditedValue(ask, proceeds, pending.twap);
      var assets := NavShares.FlooredNav(settled, pending.twap);
      if value >= TWO_128 || assets >= TWO_128 { return Err(ArithmeticOverflow); }
      r := this.ChargeFee(value, assets, feeBps);
    }

    /** The rebalance transaction: handler, swap submessage, reply on success, and the chain's revert of
        everything when any part fails. */
    method RebalanceTransaction(m: Market) returns (r: Result<(), Error>)
      requires Valid() && m.Valid()
      modifies this
      ensures Valid()
      ensures Follows(old(State()), Rebalance(old(State()), m), r)
    {
      ghost var before := State();
      var savedConfig, savedShares, savedTotal := config, shares, totalShares;
      var savedPending, savedBalances := pendingSwap, balances;
      r := ExecuteRebalance(m);
      if r.Err? { return; }
      StartedRebalance(before, m);
      balances := m.settled;
      assert State() == StartRebalance(before, m).value.(held := m.settled);
      r := Reply(m.feeBps);
      if r.Err? {
        config, shares, totalShares := savedConfig, savedShares, savedTotal;
        pendingSwap, balances := savedPending, savedBalances;
      } else {
        Runs.RebalanceKeepsInv(before, m);
      }
    }

    method ExecuteUpdateConfig(sender: Address, u: Update) returns (r: Result<(), Error>)
      requires Valid() && u.Valid()
      modifies this
      ensures Valid()
      ensures Follows(old(State()), UpdateConfig(old(State()), sender, u), r)
    {
      if sender != config.admin { return Err(Unauthorized); }
      if pendingSwap.Some? { return Err(RebalancePending); }
      var next := config;
      if u.collector.Some? { next := next.(collector := u.collector.value); }
      if u.count.Some? {
        if u.count.value == 0 || u.count.value > MAX_GRID_COUNT { return Err(InvalidGridCount); }
        next := next.(grid := next.grid.(count := u.count.value));
      }
      if u.lower.Some? { next := next.(grid := next.grid.(lower := u.lower.value)); }
      if u.upper.Some? { next := next.(grid := next.grid.(upper := u.upper.value)); }
      if next.grid.lower == 0 || next.grid.upper <= next.grid.lower { return Err(InvalidGrid); }
      if u.tolerance.Some? {
        if u.tolerance.value == 0 || u.tolerance.value > MAX_TOLERANCE { return Err(InvalidRiskControl); }
        next := next.(tolerance := u.tolerance.value);
      }
      var maxTrade := Or(u.maxTrade, next.maxTrade);
      var maxExecution := Or(u.maxExecutionDeviation, next.maxExecutionDeviation);
      if maxTrade == 0 || maxTrade > MAX_TRADE || maxExecution > MAX_EXECUTION_DEVIATION || !u.othersValid {
        return Err(InvalidRiskControl);
      }
      config := next.(maxTrade := maxTrade, maxExecutionDeviation := maxExecution);
      return Ok(());
    }

    method ExecuteTransferAdmin(sender: Address, proposed: Address) returns (r: Result<(), Error>)
      requires Valid()
      modifies this
      ensures Valid()
      ensures Follows(old(State()), TransferAdmin(old(State()), sender, proposed), r)
    {
      if sender != config.admin { return Err(Unauthorized); }
      if proposed == config.admin { return Err(Unauthorized); }
      config := config.(pendingAdmin := Some(proposed));
      return Ok(());
    }

    method ExecuteAcceptAdmin(sender: Address) returns (r: Result<(), Error>)
      requires Valid()
      modifies this
      ensures Valid()
      ensures Follows(old(State()), AcceptAdmin(old(State()), sender), r)
    {
      Runs.StepKeepsInv(State(), Runs.AcceptAdminBy(sender));
      if config.pendingAdmin != Some(sender) { return Err(Unauthorized); }
      var previous := config.admin;
      var moved := Balance(shares, previous);
      if moved > 0 {
        var owned := Balance(shares, sender) + moved;
        if owned >= TWO_128 { return Err(ArithmeticOverflow); }
        shares := shares[sender := owned];
        shares := shares - {previous};
      }
      config := config.(admin := sender, pendingAdmin := None);
      return Ok(());
    }

    method ExecuteSetPaused(sender: Address, pause: bool) returns (r: Result<(), Error>)
      requires Valid()
      modifies this
      ensures Valid()
      ensures Follows(old(State()), SetPaused(old(State()), sender, pause), r)
    {
      if sender != config.admin { return Err(Unauthorized); }
      if paused == pause { return Err(if pause then Paused else NotPaused); }
      paused := pause;
      return Ok(());
    }
  }
}
