/** The state of `grid-vault-swap` and its entry points as functions on that state. An error means the
    transaction reverts, so the state before it stands. */
module GridMarket {
  import opened Arithmetic
  import opened Tokens
  import opened Ledger
  import opened Settlement
  import opened GridPlan
  import NavShares
  import FeeMint

  /** `Config`, without addresses and limits that no modelled branch reads. */
  datatype Config = Config(
    admin: Address, pendingAdmin: Option<Address>, collector: Option<Address>,
    grid: Grid, tolerance: nat, maxTrade: nat, maxExecutionDeviation: nat,
    referencePrice: nat, lastCell: nat)
  {
    predicate Valid() { grid.Valid() && maxTrade <= BPS && maxExecutionDeviation <= BPS }
  }

  /** Contract storage together with the vault's real CW20 balances. */
  datatype Vault = Vault(
    config: Config, shares: Shares, total: nat, pending: Option<Pending>, paused: bool, held: Amounts)

  datatype Error =
    | Paused | NotPaused | Unauthorized | ZeroAmount | InsufficientShares | RebalancePending
    | RebalanceNotRequired | InvalidRebalanceSwap | UnsafePool | MissingPendingRebalance
    | AllocationDidNotImprove | ArithmeticOverflow | Expired | PairCodeMismatch | InvalidGridCount | InvalidGrid
    | InvalidRiskControl

  type Outcome = Result<Vault, Error>

  /** `execute_receive`: the token contract has already moved `amount` in when the hook runs. */
  function Deposit(v: Vault, sender: Address, token: Token, amount: nat, price: nat): Outcome
    requires price > 0
  {
    var held := v.held.Plus(Just(token, amount));
    if v.paused then Err(Paused)
    else if amount == 0 then Err(ZeroAmount)
    else if sender != v.config.admin then Err(Unauthorized)
    else
      var minted := NavShares.DepositShares(amount, token, price, held, v.total);
      if minted.None? then Err(ArithmeticOverflow)
      else if minted.value == 0 then Err(ZeroAmount)
      else if v.total + minted.value >= TWO_128 || Balance(v.shares, sender) + minted.value >= TWO_128 then
        Err(ArithmeticOverflow)
      else
        Ok(v.(shares := Credit(v.shares, sender, minted.value), total := v.total + minted.value, held := held))
  }

  /** Retires `shares` of `owner` against their pro-rata claim on both balances. */
  function Burn(v: Vault, owner: Address, shares: nat): Vault
    requires 0 < shares <= Balance(v.shares, owner) && shares <= v.total
  {
    var paid := NavShares.Payout(v.held, shares, v.total);
    NavShares.PayoutCovered(v.held, shares, v.total);
    v.(shares := v.shares[owner := Balance(v.shares, owner) - shares],
       total := v.total - shares,
       held := v.held.Minus(paid))
  }

  /** `execute_withdraw`. */
  function Withdraw(v: Vault, sender: Address, shares: nat): Outcome
  {
    if v.pending.Some? then Err(RebalancePending)
    else if shares == 0 then Err(ZeroAmount)
    else if shares > Balance(v.shares, sender) || shares > v.total then Err(InsufficientShares)
    else Ok(Burn(v, sender, shares))
  }

  /** `execute_redeem_shares`: the fee collector burns everything it holds. */
  function Redeem(v: Vault, sender: Address): Outcome
  {
    if v.config.collector != Some(sender) then Err(Unauthorized)
    else
      var shares := Balance(v.shares, sender);
      if shares == 0 then Err(ZeroAmount)
      else if shares > v.total then Err(InsufficientShares)
      else if v.pending.Some? then Err(RebalancePending)
      else Ok(Burn(v, sender, shares))
  }

  function RebalanceRequired(v: Vault, twap: nat): Option<bool>
    requires v.config.Valid()
  {
    var deviation := AllocationDeviation(v.held, twap, v.config.grid);
    if deviation.None? then None
    else Some(GridCell(twap, v.config.grid) != v.config.lastCell || deviation.value > v.config.tolerance)
  }

  /** `rebalance_plan` up to the pending record: offer, amount and least return. */
  function Plan(v: Vault, m: Market): Result<Pending, Error>
    requires v.config.Valid() && m.Valid()
  {
    var c := v.config;
    var required := RebalanceRequired(v, m.twap);
    if required.None? then Err(ArithmeticOverflow)
    else if !required.value then Err(RebalanceNotRequired)
    else
      var offer := PlannedOffer(v.held, m.twap, GridCell(m.twap, c.grid), c.grid.count, c.maxTrade);
      if offer.None? then Err(ArithmeticOverflow)
      else if offer.value.None? then Err(InvalidRebalanceSwap)
      else
        var Offer(token, amount) := offer.value.value;
        var expected := ExpectedReturn(amount, token, m.twap);
        if expected.None? then Err(ArithmeticOverflow)
        else Ok(Pending(m.twap, v.held, AllocationDeviation(v.held, m.twap, c.grid).value, token, amount,
                        MinReturn(expected.value, c.maxExecutionDeviation, m.quoteFloor)))
  }

  /** `execute_rebalance`: records the pending swap before the swap submessage runs. */
  function StartRebalance(v: Vault, m: Market): Outcome
    requires v.config.Valid() && m.Valid()
  {
    if v.paused then Err(Paused)
    else if v.pending.Some? then Err(RebalancePending)
    else if !m.inTime then Err(Expired)
    else if !m.pairKnown then Err(PairCodeMismatch)
    else
      var plan := Plan(v, m);
      if plan.Err? then Err(plan.error)
      else if !m.poolSafe then Err(UnsafePool)
      else Ok(v.(pending := Some(plan.value)))
  }

  lemma StartedRebalance(v: Vault, m: Market)
    requires v.config.Valid() && m.Valid() && StartRebalance(v, m).Ok?
    ensures var started := StartRebalance(v, m).value;
            started == v.(pending := started.pending) && started.pending.Some? && started.pending.value.twap == m.twap
  {
  }

  /** `charge_fee`: dilutes the holders by fresh collector shares worth at most the fee. */
  function ChargeFee(v: Vault, value: nat, assets: nat, feeBps: nat): Outcome
  {
    if v.config.collector.None? then Ok(v)
    else
      var minted := FeeMint.FeeShares(Floor(value * feeBps, BPS), assets, v.total);
      if minted == 0 then Ok(v)
      else
        var collector := v.config.collector.value;
        if Balance(v.shares, collector) + minted >= TWO_128 || v.total + minted >= TWO_128 then Err(ArithmeticOverflow)
        else Ok(v.(shares := Credit(v.shares, collector, minted), total := v.total + minted))
  }

  /** `reply`: validates the settled balances against the pending record, moves the reference only when
      the allocation ended within tolerance, and charges the fee on the proceeds. */
  function Settle(v: Vault, feeBps: nat): Outcome
    requires v.config.Valid() && (v.pending.Some? ==> v.pending.value.twap > 0)
  {
    if v.pending.None? then Err(MissingPendingRebalance)
    else
      var p, c := v.pending.value, v.config;
      var valid := ValidateSettlement(p, v.held);
      var current := AllocationDeviation(v.held, p.twap, c.grid);
      if valid.Err? then Err(if valid.error.Overflow? then ArithmeticOverflow else AllocationDidNotImprove)
      else if current.None? then Err(ArithmeticOverflow)
      else
        var outcome := ValidateOutcome(p.preDeviation, current.value, c.tolerance);
        if outcome.Err? then Err(AllocationDidNotImprove)
        else
          var config := if outcome.value then c.(referencePrice := p.twap, lastCell := GridCell(p.twap, c.grid)) else c;
          var ask := p.offer.Other();
          var value := NavShares.CreditedValue(ask, v.held.Get(ask) - p.balances.Get(ask), p.twap);
          var assets := NavShares.FlooredNav(v.held, p.twap);
          if value >= TWO_128 || assets >= TWO_128 then Err(ArithmeticOverflow)
          else ChargeFee(v.(config := config, pending := None), value, assets, feeBps)
  }

  /** One whole rebalance transaction: start, swap, reply. The reply runs only on success and any
      error reverts all of it. */
  function Rebalance(v: Vault, m: Market): Outcome
    requires v.config.Valid() && m.Valid()
  {
    var started := StartRebalance(v, m);
    if started.Err? then started else Settle(started.value.(held := m.settled), m.feeBps)
  }

  const MAX_TOLERANCE: nat := 2_000

  const MAX_TRADE: nat := 5_000

  const MAX_EXECUTION_DEVIATION: nat := 1_000

  /** The fields of `execute_update_config` that modelled branches read; None leaves one as it is, and
      `collector` itself may be set to nobody. `othersValid` says whether the remaining limits pass. */
  datatype Update = Update(
    collector: Option<Option<Address>>, count: Option<nat>, lower: Option<nat>, upper: Option<nat>,
    tolerance: Option<nat>, maxTrade: Option<nat>, maxExecutionDeviation: Option<nat>, othersValid: bool)
  {
    /** Prices are `Decimal`s. */
    predicate Valid() { (lower.Some? ==> lower.value < TWO_128) && (upper.Some? ==> upper.value < TWO_128) }
  }

  function Or<T>(value: Option<T>, current: T): T { if value.Some? then value.value else current }

  /** `execute_update_config`. The cell on record is left alone even when the grid changes. */
  function UpdateConfig(v: Vault, sender: Address, u: Update): Outcome
  {
    var c := v.config;
    var grid := Grid(Or(u.lower, c.grid.lower), Or(u.upper, c.grid.upper), Or(u.count, c.grid.count));
    var maxTrade, maxExecution := Or(u.maxTrade, c.maxTrade), Or(u.maxExecutionDeviation, c.maxExecutionDeviation);
    if sender != c.admin then Err(Unauthorized)
    else if v.pending.Some? then Err(RebalancePending)
    else if u.count.Some? && (u.count.value == 0 || u.count.value > MAX_GRID_COUNT) then Err(InvalidGridCount)
    else if grid.lower == 0 || grid.upper <= grid.lower then Err(InvalidGrid)
    else if u.tolerance.Some?
      && (u.tolerance.value == 0 || u.tolerance.value > MAX_TOLERANCE) then Err(InvalidRiskControl)
    else if maxTrade == 0 || maxTrade > MAX_TRADE || maxExecution > MAX_EXECUTION_DEVIATION || !u.othersValid then
      Err(InvalidRiskControl)
    else
      Ok(v.(config := c.(collector := Or(u.collector, c.collector), grid := grid,
        tolerance := Or(u.tolerance, c.tolerance),
                         maxTrade := maxTrade, maxExecutionDeviation := maxExecution)))
  }

  /** `execute_transfer_admin`: proposing the sitting admin is refused. */
  function TransferAdmin(v: Vault, sender: Address, proposed: Address): Outcome
  {
    if sender != v.config.admin || proposed == v.config.admin then Err(Unauthorized)
    else Ok(v.(config := v.config.(pendingAdmin := Some(proposed))))
  }

  /** `execute_accept_admin`: the new admin takes over the old one's shares, added first and the old
      entry removed after. */
  function AcceptAdmin(v: Vault, sender: Address): Outcome
  {
    if v.config.pendingAdmin != Some(sender) then Err(Unauthorized)
    else
      var previous := v.config.admin;
      var moved := Balance(v.shares, previous);
      if moved > 0 && Balance(v.shares, sender) + moved >= TWO_128 then Err(ArithmeticOverflow)
      else
        Ok(v.(shares := if moved > 0 then Credit(v.shares, sender, moved) - {previous} else v.shares,
              config := v.config.(admin := sender, pendingAdmin := None)))
  }

  function SetPaused(v: Vault, sender: Address, paused: bool): Outcome
  {
    if sender != v.config.admin then Err(Unauthorized)
    else if v.paused == paused then Err(if paused then Paused else NotPaused)
    else Ok(v.(paused := paused))
  }
}
