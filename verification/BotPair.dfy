/** The rebalancer's two contracts together: `bot-vault`, which holds the tokens and trades, and
    `bot-liquidity`, which issues the LP token and authorizes what the vault pays out. Every message is a
    function on their joint storage; a transaction is the messages it sends one after the other, and an
    error reverts all of it. */
module BotPair {
  import opened Arithmetic
  import opened Tokens
  import opened Ledger
  import opened Settlement
  import opened ParityPlan
  import NavShares
  import FeeMint

  const LOCKED: nat := 1_000

  /** Settings of both contracts; `self` is the liquidity contract's own address. */
  datatype Settings = Settings(
    self: Address, keeper: Address, collector: Option<Address>, minimumInitial: nat, threshold: nat,
    tolerance: nat, maxTrade: nat, maxExecutionDeviation: nat)
  {
    predicate Valid() {
      0 < threshold <= BPS && tolerance <= BPS && maxTrade <= BPS && maxExecutionDeviation <= BPS
    }
  }

  datatype Swap = Swap(offer: Token, amount: nat, minReturn: nat)

  datatype Transfer = Transfer(token: Token, amount: nat, recipient: Address)

  /** `PendingOperation` of the liquidity contract. */
  datatype Operation =
    | Depositing(depositor: Address, pre: Amounts, preSupply: nat, price: nat, minShares: nat, deposited: Option<Swap>)
    | Withdrawing(owner: Address, shares: nat, recipient: Address, payout: Token, base: nat, prePayout: nat,
                  minAmount: nat, swap: Swap)
    | Transferring(transfers: seq<Transfer>, remaining: nat)

  /** Storage of both contracts, the vault's token balances and, in `paid`, the token transfers it has sent
      out, in order. `reference`, `rebalance` and `paused` are the vault's storage, the rest the liquidity
      contract's. */
  datatype Bot = Bot(
    held: Amounts, reference: nat, rebalance: Option<Pending>, paused: bool,
    lp: Shares, supply: nat, allowances: map<(Address, Address), nat>, operation: Option<Operation>,
    paid: seq<Transfer>)

  datatype Error =
    | OperationPending | ZeroAmount | InvalidDepositSwap | InsufficientShares | MinimumNotMet | InvalidWithdrawalSwap
    | InvalidDepositSettlement | AllocationOutsideTolerance | InitialDepositTooSmall | ZeroShares | UnknownReply
    | ArithmeticOverflow | Paused | RebalancePending | NotAuthorized | SwapFailed | TransferFailed | Unauthorized
    | RebalanceNotRequired | InvalidRebalanceSwap | UnsafePool | MissingPendingRebalance | AllocationDidNotImprove
    | InsufficientAllowance | Expired | PairCodeMismatch

  type Outcome = Result<Bot, Error>

  // ---- What the liquidity contract authorizes ----

  datatype Authorization = Authorization(swap: Option<Swap>, transfers: seq<Transfer>, finalize: bool)

  /** `liquidity_authorization`. */
  function Authorized(b: Bot): Authorization
  {
    match b.operation
    case Some(Depositing(_, _, _, _, _, swap)) => Authorization(swap, [], swap.None?)
    case Some(Withdrawing(_, _, _, _, _, _, _, swap)) => Authorization(Some(swap), [], false)
    case Some(Transferring(transfers, _)) => Authorization(None, transfers, false)
    case None => Authorization(None, [], false)
  }

  // ---- The vault's side of liquidity operations ----

  /** `LiquiditySwap`: `received` is what the venue returns, None when the swap fails. */
  function LiquiditySwap(b: Bot, params: Swap, received: Option<nat>): Outcome
  {
    if b.paused then Err(Paused)
    else if b.rebalance.Some? then Err(RebalancePending)
    else if Authorized(b).swap != Some(params) then Err(NotAuthorized)
    else if received.None? || params.amount > b.held.Get(params.offer) then Err(SwapFailed)
    else Ok(b.(held := Traded(b.held, params.offer, params.amount, received.value)))
  }

  function Traded(held: Amounts, offer: Token, amount: nat, received: nat): Amounts
    requires amount <= held.Get(offer)
  {
    held.Put(offer, held.Get(offer) - amount).Put(offer.Other(), held.Get(offer.Other()) + received)
  }

  function Finalize(b: Bot): Outcome
  {
    if b.paused then Err(Paused)
    else if b.rebalance.Some? then Err(RebalancePending)
    else if !Authorized(b).finalize then Err(NotAuthorized)
    else Ok(b)
  }

  /** `TransferTo`: only a transfer on the authorized list goes out. */
  function TransferTo(b: Bot, t: Transfer): Outcome
  {
    if b.rebalance.Some? then Err(RebalancePending)
    else if t.amount == 0 then Err(ZeroAmount)
    else if t !in Authorized(b).transfers then Err(NotAuthorized)
    else if t.amount > b.held.Get(t.token) then Err(TransferFailed)
    else Ok(b.(held := b.held.Put(t.token, b.held.Get(t.token) - t.amount), paid := b.paid + [t]))
  }

  // ---- LP shares ----

  function Mint(b: Bot, to: Address, amount: nat): Outcome
  {
    if b.supply + amount >= TWO_128 then Err(ArithmeticOverflow)
    else Ok(b.(lp := Credit(b.lp, to, amount), supply := b.supply + amount))
  }

  function Burn(b: Bot, owner: Address, amount: nat): Outcome
  {
    if amount > Balance(b.lp, owner) || amount > b.supply then Err(InsufficientShares)
    else Ok(b.(lp := b.lp[owner := Balance(b.lp, owner) - amount], supply := b.supply - amount))
  }

  // ---- Deposit ----

  /** `nav`: token-0 value of both balances, the token-1 side floored. */
  function Nav(h: Amounts, price: nat): Option<nat>
    requires price > 0
  {
    var value := NavShares.FlooredNav(h, price);
    if value >= TWO_128 then None else Some(value)
  }

  /** `proportional_deposit_shares`. */
  function ProportionalShares(pre: Amounts, post: Amounts, supply: nat): Result<nat, Error>
  {
    if pre.t0 == 0 || pre.t1 == 0 || !post.Covers(pre) then Err(InvalidDepositSettlement)
    else
      var shares0 := CheckedRatio(post.t0 - pre.t0, supply, pre.t0);
      var shares1 := CheckedRatio(post.t1 - pre.t1, supply, pre.t1);
      if shares0.None? || shares1.None? then Err(ArithmeticOverflow) else Ok(Min(shares0.value, shares1.value))
  }

  /** `execute_deposit` and its token transfers into the vault. */
  function StartDeposit(
    b: Bot, sender: Address, amounts: Amounts, minShares: nat, swap: Option<Swap>, price: nat): Outcome
  {
    if b.operation.Some? then Err(OperationPending)
    else if amounts == Nothing() then Err(ZeroAmount)
    else if swap.Some? && (swap.value.amount == 0 || swap.value.amount > amounts.Get(swap.value.offer)) then
      Err(InvalidDepositSwap)
    else
      Ok(b.(operation := Some(Depositing(sender, b.held, b.supply, price, minShares, swap)),
            held := b.held.Plus(amounts)))
  }

  /** Shares for a settled deposit and what is locked for good by the first one. */
  function SharesFor(c: Settings, pre: Amounts, post: Amounts, preSupply: nat, price: nat): Result<(nat, nat), Error>
    requires price > 0
  {
    var before, after := Nav(pre, price), Nav(post, price);
    if before.None? || after.None? then Err(ArithmeticOverflow)
    else if after.value < before.value then Err(InvalidDepositSettlement)
    else
      var value := after.value - before.value;
      if preSupply == 0 then
        if value < c.minimumInitial || value <= LOCKED then Err(InitialDepositTooSmall)
        else Ok((before.value + LOCKED, value - LOCKED))
      else
        var shares := ProportionalShares(pre, post, preSupply);
        if shares.Err? then Err(shares.error) else Ok((0, shares.value))
  }

  /** `complete_deposit`. `settledPrice` is the price behind the vault's status at that moment. */
  function CompleteDeposit(c: Settings, b: Bot, settledPrice: nat): Outcome
    requires settledPrice > 0 && (b.operation.Some? && b.operation.value.Depositing? ==> b.operation.value.price > 0)
  {
    if b.operation.None? || !b.operation.value.Depositing? then Err(UnknownReply)
    else
      var Depositing(depositor, pre, preSupply, price, minShares, _) := b.operation.value;
      if !b.held.Covers(pre) then Err(InvalidDepositSettlement)
      else if AllocationDeviation(b.held, settledPrice) > c.tolerance then Err(AllocationOutsideTolerance)
      else
        var due := SharesFor(c, pre, b.held, preSupply, price);
        if due.Err? then Err(due.error)
        else
          var (locked, shares) := due.value;
          var minted := if preSupply == 0 then Mint(b, c.self, locked) else Ok(b);
          if minted.Err? then minted
          else if shares == 0 then Err(ZeroShares)
          else if shares < minShares then Err(MinimumNotMet)
          else
            var done := Mint(minted.value, depositor, shares);
            if done.Err? then done else Ok(done.value.(operation := None))
  }

  /** What the venue and the oracle contribute to a deposit. */
  datatype Venue = Venue(price: nat, settledPrice: nat, received: Option<nat>) {
    predicate Valid() { price > 0 && settledPrice > 0 }
  }

  /** A whole deposit: start, swap or finalize, complete. */
  function Deposit(
    c: Settings, b: Bot, sender: Address, amounts: Amounts, minShares: nat, swap: Option<Swap>, venue: Venue): Outcome
    requires venue.Valid()
  {
    var started := StartDeposit(b, sender, amounts, minShares, swap, venue.price);
    if started.Err? then started
    else
      var settled := if swap.Some? then LiquiditySwap(started.value, swap.value, venue.received)
        else Finalize(started.value);
      if settled.Err? then settled else CompleteDeposit(c, settled.value, venue.settledPrice)
  }

  // ---- Withdrawal ----

  /** The checks and claims common to all withdrawals. */
  function Claims(b: Bot, sender: Address, shares: nat): Result<Amounts, Error>
  {
    if b.operation.Some? then Err(OperationPending)
    else if shares == 0 then Err(ZeroAmount)
    else if shares > Balance(b.lp, sender) then Err(InsufficientShares)
    else
      var claim0, claim1 := CheckedRatio(b.held.t0, shares, b.supply), CheckedRatio(b.held.t1, shares, b.supply);
      if claim0.None? || claim1.None? then Err(ArithmeticOverflow) else Ok(Amounts(claim0.value, claim1.value))
  }

  /** Transfers of the non-zero claims. */
  function TransfersOf(claims: Amounts, recipient: Address): seq<Transfer>
  {
    (if claims.t0 > 0 then [Transfer(Token0, claims.t0, recipient)] else [])
    + (if claims.t1 > 0 then [Transfer(Token1, claims.t1, recipient)] else [])
  }

  /** `execute_withdraw`, pro rata: authorize the transfers, then burn. */
  function StartProRata(b: Bot, sender: Address, shares: nat, recipient: Address, minAssets: Amounts): Outcome
  {
    var claims := Claims(b, sender, shares);
    if claims.Err? then Err(claims.error)
    else if !claims.value.Covers(minAssets) then Err(MinimumNotMet)
    else
      var transfers := TransfersOf(claims.value, recipient);
      if transfers == [] then Err(ZeroAmount)
      else Burn(b.(operation := Some(Transferring(transfers, |transfers|))), sender, shares)
  }

  /** One authorized transfer and its reply, which counts down and clears the operation at the last. */
  function TransferAndReply(b: Bot, t: Transfer): Outcome
  {
    var sent := TransferTo(b, t);
    if sent.Err? then sent
    else if sent.value.operation.None? || !sent.value.operation.value.Transferring? then Err(UnknownReply)
    else
      var Transferring(transfers, remaining) := sent.value.operation.value;
      if remaining == 0 then Err(UnknownReply)
      else
        Ok(sent.value.(operation := if remaining == 1 then None else Some(Transferring(transfers, remaining - 1))))
  }

  function TransferAll(b: Bot, transfers: seq<Transfer>): Outcome
    decreases |transfers|
  {
    if transfers == [] then Ok(b)
    else
      var first := TransferAndReply(b, transfers[0]);
      if first.Err? then first else TransferAll(first.value, transfers[1..])
  }

  function WithdrawBoth(b: Bot, sender: Address, shares: nat, recipient: Address, minAssets: Amounts): Outcome
  {
    var started := StartProRata(b, sender, shares, recipient, minAssets);
    if started.Err? then started else TransferAll(started.value, started.value.operation.value.transfers)
  }

  /** `execute_single_withdraw`: the unwanted claim is to be swapped, all of it. */
  function StartSingle(
    b: Bot, sender: Address, shares: nat, recipient: Address, payout: Token, minAmount: nat, swap: Swap): Outcome
  {
    var claims := Claims(b, sender, shares);
    if claims.Err? then Err(claims.error)
    else if swap.offer != payout.Other() || swap.amount != claims.value.Get(payout.Other()) || swap.amount == 0 then
      Err(InvalidWithdrawalSwap)
    else
      Ok(b.(operation := Some(Withdrawing(sender, shares, recipient, payout, claims.value.Get(payout),
        b.held.Get(payout),
                                          minAmount, swap))))
  }

  /** `complete_single_withdraw` with the swap's result: a failed swap gives the operation up, a
      successful one burns the shares and authorizes the payout. */
  function CompleteSingle(b: Bot, swapped: bool): Outcome
  {
    if b.operation.None? || !b.operation.value.Withdrawing? then Err(UnknownReply)
    else if !swapped then Ok(b.(operation := None))
    else
      var Withdrawing(owner, shares, recipient, payout, base, prePayout, minAmount, _) := b.operation.value;
      if b.held.Get(payout) < prePayout then Err(InvalidDepositSettlement)
      else
        var paid := base + (b.held.Get(payout) - prePayout);
        if paid < minAmount then Err(MinimumNotMet)
        else
          var burned := Burn(b, owner, shares);
          if burned.Err? then burned
          else Ok(burned.value.(operation := Some(Transferring([Transfer(payout, paid, recipient)], 1))))
  }

  /** A whole single-token withdrawal; a failing swap is undone by the chain before the reply runs. */
  function WithdrawOne(
    b: Bot, sender: Address, shares: nat, recipient: Address, payout: Token, minAmount: nat, swap: Swap,
    received: Option<nat>): Outcome
  {
    var started := StartSingle(b, sender, shares, recipient, payout, minAmount, swap);
    if started.Err? then started
    else
      var swapped := LiquiditySwap(started.value, swap, received);
      var completed := if swapped.Ok? then CompleteSingle(swapped.value, true)
        else CompleteSingle(started.value, false);
      if completed.Err? || swapped.Err? then completed
      else TransferAll(completed.value, completed.value.operation.value.transfers)
  }

  // ---- The LP token ----

  function Allowance(b: Bot, owner: Address, spender: Address): nat
  {
    if (owner, spender) in b.allowances then b.allowances[(owner, spender)] else 0
  }

  function TransferShares(b: Bot, sender: Address, to: Address, amount: nat): Outcome
  {
    if b.operation.Some? then Err(OperationPending)
    else if amount > Balance(b.lp, sender) then Err(InsufficientShares)
    else Ok(b.(lp := Credit(b.lp[sender := Balance(b.lp, sender) - amount], to, amount)))
  }

  function BurnShares(b: Bot, sender: Address, amount: nat): Outcome
  {
    if b.operation.Some? then Err(OperationPending) else Burn(b, sender, amount)
  }

  /** Raising or lowering an allowance; lowering stops at zero. */
  function Approve(b: Bot, sender: Address, spender: Address, change: int): Outcome
  {
    if b.operation.Some? then Err(OperationPending)
    else if sender == spender then Err(Unauthorized)
    else if Allowance(b, sender, spender) + change >= TWO_128 then Err(ArithmeticOverflow)
    else
      var next := Allowance(b, sender, spender) + change;
      Ok(b.(allowances := b.allowances[(sender, spender) := if next < 0 then 0 else next]))
  }

  function Spend(b: Bot, spender: Address, owner: Address, amount: nat): Outcome
  {
    if b.operation.Some? then Err(OperationPending)
    else if amount > Allowance(b, owner, spender) then Err(InsufficientAllowance)
    else Ok(b.(allowances := b.allowances[(owner, spender) := Allowance(b, owner, spender) - amount]))
  }

  function TransferFrom(b: Bot, spender: Address, owner: Address, to: Address, amount: nat): Outcome
  {
    var spent := Spend(b, spender, owner, amount);
    if spent.Err? then spent else TransferShares(spent.value, owner, to, amount)
  }

  function BurnFrom(b: Bot, spender: Address, owner: Address, amount: nat): Outcome
  {
    var spent := Spend(b, spender, owner, amount);
    if spent.Err? then spent else BurnShares(spent.value, owner, amount)
  }

  // ---- Rebalance ----

  function RebalanceRequired(c: Settings, b: Bot, twap: nat): bool
    requires twap > 0 && b.reference > 0
  {
    RatioDeviation(twap, b.reference) >= c.threshold || AllocationDeviation(b.held, twap) > c.tolerance
  }

  /** `rebalance_plan` up to the pending record. */
  function Plan(c: Settings, b: Bot, m: Market): Result<Pending, Error>
    requires c.Valid() && m.Valid() && b.reference > 0
  {
    if !RebalanceRequired(c, b, m.twap) then Err(RebalanceNotRequired)
    else
      var offer := PlannedOffer(b.held, m.twap, c.maxTrade);
      if offer.None? then Err(ArithmeticOverflow)
      else if offer.value.None? then Err(InvalidRebalanceSwap)
      else
        var Offer(token, amount) := offer.value.value;
        var expected := ExpectedReturn(amount, token, m.twap);
        if expected.None? then Err(ArithmeticOverflow)
        else Ok(Pending(m.twap, b.held, AllocationDeviation(b.held, m.twap), token, amount,
                        MinReturn(expected.value, c.maxExecutionDeviation, m.quoteFloor)))
  }

  /** `ensure_no_liquidity_operation`. */
  predicate LiquidityIdle(b: Bot) { Authorized(b) == Authorization(None, [], false) }

  /** `execute_rebalance`. */
  function StartRebalance(c: Settings, b: Bot, sender: Address, m: Market): Outcome
    requires c.Valid() && m.Valid() && b.reference > 0
  {
    if sender != c.keeper then Err(Unauthorized)
    else if b.paused then Err(Paused)
    else if b.rebalance.Some? || !LiquidityIdle(b) then Err(RebalancePending)
    else if !m.pairKnown then Err(PairCodeMismatch)
    else if !m.inTime then Err(Expired)
    else
      var plan := Plan(c, b, m);
      if plan.Err? then Err(plan.error)
      else if !m.poolSafe then Err(UnsafePool)
      else Ok(b.(rebalance := Some(plan.value)))
  }

  /** `charge_fee`, minting through `MintTo`. */
  function ChargeFee(c: Settings, b: Bot, value: nat, assets: nat, feeBps: nat): Outcome
  {
    if c.collector.None? then Ok(b)
    else
      var minted := FeeMint.FeeShares(Floor(value * feeBps, BPS), assets, b.supply);
      if minted == 0 then Ok(b)
      else if minted >= TWO_128 then Err(ArithmeticOverflow)
      else Mint(b, c.collector.value, minted)
  }

  /** `reply`. */
  function Settle(c: Settings, b: Bot, feeBps: nat): Outcome
    requires c.Valid() && (b.rebalance.Some? ==> b.rebalance.value.twap > 0)
  {
    if b.rebalance.None? then Err(MissingPendingRebalance)
    else
      var p := b.rebalance.value;
      var valid := ValidateSettlement(p, b.held);
      if valid.Err? then Err(if valid.error.Overflow? then ArithmeticOverflow else AllocationDidNotImprove)
      else
        var outcome := ValidateOutcome(p.preDeviation, AllocationDeviation(b.held, p.twap), c.tolerance);
        if outcome.Err? then Err(AllocationDidNotImprove)
        else
          var ask := p.offer.Other();
          var value := NavShares.CreditedValue(ask, b.held.Get(ask) - p.balances.Get(ask), p.twap);
          var assets := Nav(b.held, p.twap);
          if value >= TWO_128 || assets.None? then Err(ArithmeticOverflow)
          else ChargeFee(c, b.(rebalance := None, reference := if outcome.value then p.twap else b.reference), value,
            assets.value, feeBps)
  }

  /** A whole rebalance: start, swap, reply. */
  function Rebalance(c: Settings, b: Bot, sender: Address, m: Market): Outcome
    requires c.Valid() && m.Valid() && b.reference > 0
  {
    var started := StartRebalance(c, b, sender, m);
    if started.Err? then started else Settle(c, started.value.(held := m.settled), m.feeBps)
  }

  /** `execute_sync_reference`: moves the reference without a trade when the allocation is fine already. */
  function SyncReference(c: Settings, b: Bot, sender: Address, twap: nat): Outcome
    requires twap > 0 && b.reference > 0
  {
    if sender != c.keeper then Err(Unauthorized)
    else if b.paused then Err(Paused)
    else if !LiquidityIdle(b) then Err(RebalancePending)
    else if !RebalanceRequired(c, b, twap) then Err(RebalanceNotRequired)
    else if AllocationDeviation(b.held, twap) > c.tolerance then Err(AllocationOutsideTolerance)
    else Ok(b.(reference := twap))
  }
}
