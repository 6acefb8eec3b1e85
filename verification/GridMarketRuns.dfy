/** Whole runs of the market-grid vault: what every sequence of its entry points keeps. */
module GridMarketRuns {
  import opened Arithmetic
  import opened Tokens
  import opened Ledger
  import opened Settlement
  import opened GridPlan
  import opened GridMarket
  import opened ProRata
  import NavShares
  import FeeMint

  /** One transaction, whoever sends it, or tokens sent to the vault outside any deposit. */
  datatype Action =
    | DepositBy(depositor: Address, token: Token, amount: nat, price: nat)
    | WithdrawBy(holder: Address, burned: nat)
    | RedeemBy(redeemer: Address)
    | RebalanceBy(market: Market)
    | UpdateBy(updater: Address, update: Update)
    | TransferAdminBy(proposer: Address, proposed: Address)
    | AcceptAdminBy(accepter: Address)
    | SetPausedBy(pauser: Address, paused: bool)
    | Donation(gift: Amounts)
  {
    predicate Valid()
    {
      (DepositBy? ==> 0 < price < TWO_128) && (RebalanceBy? ==> market.Valid()) && (UpdateBy? ==> update.Valid())
    }
  }

  function Execute(v: Vault, a: Action): Outcome
    requires v.config.Valid() && a.Valid()
  {
    match a
    case DepositBy(sender, token, amount, price) => Deposit(v, sender, token, amount, price)
    case WithdrawBy(sender, shares) => Withdraw(v, sender, shares)
    case RedeemBy(sender) => Redeem(v, sender)
    case RebalanceBy(market) => Rebalance(v, market)
    case UpdateBy(sender, update) => UpdateConfig(v, sender, update)
    case TransferAdminBy(sender, proposed) => TransferAdmin(v, sender, proposed)
    case AcceptAdminBy(sender) => AcceptAdmin(v, sender)
    case SetPausedBy(sender, paused) => SetPaused(v, sender, paused)
    case Donation(gift) => Ok(v.(held := v.held.Plus(gift)))
  }

  /** A failed transaction leaves the state as it was. */
  function Apply(v: Vault, a: Action): (after: Vault)
    requires v.config.Valid() && a.Valid()
    ensures after.config.Valid()
  {
    var r := Execute(v, a);
    if r.Ok? then r.value else v
  }

  function Run(v: Vault, actions: seq<Action>): (after: Vault)
    requires v.config.Valid() && forall i :: 0 <= i < |actions| ==> actions[i].Valid()
    ensures after.config.Valid()
    decreases |actions|
  {
    if actions == [] then v else Run(Apply(v, actions[0]), actions[1..])
  }

  /** Shares add up to the recorded total, nobody is proposed to succeed themselves, and no pending
      rebalance outlives its transaction. */
  ghost predicate Inv(v: Vault)
  {
    v.config.Valid()
    && v.total == Sum(v.shares)
    && v.config.pendingAdmin != Some(v.config.admin)
    && v.pending.None?
  }

  lemma BurnKeepsSum(v: Vault, owner: Address, shares: nat)
    requires v.total == Sum(v.shares) && 0 < shares <= Balance(v.shares, owner) && shares <= v.total
    ensures Burn(v, owner, shares).total == Sum(Burn(v, owner, shares).shares)
  {
    SumOfUpdate(v.shares, owner, Balance(v.shares, owner) - shares);
  }

  lemma ChargeFeeKeepsSum(v: Vault, value: nat, assets: nat, feeBps: nat)
    requires v.total == Sum(v.shares) && ChargeFee(v, value, assets, feeBps).Ok?
    ensures var after := ChargeFee(v, value, assets, feeBps).value;
            after.total == Sum(after.shares) && after == v.(shares := after.shares, total := after.total)
  {
    if v.config.collector.Some? {
      var collector := v.config.collector.value;
      var minted := FeeMint.FeeShares(Floor(value * feeBps, BPS), assets, v.total);
      SumOfUpdate(v.shares, collector, Balance(v.shares, collector) + minted);
    }
  }

  /** Handing over moves the old admin's shares whole. Accepting one's own proposal would instead drop
      them, which is why the invariant on the proposal is needed. */
  lemma AcceptAdminKeepsSum(v: Vault, sender: Address)
    requires v.total == Sum(v.shares) && v.config.pendingAdmin != Some(v.config.admin)
    requires AcceptAdmin(v, sender).Ok?
    ensures Sum(AcceptAdmin(v, sender).value.shares) == v.total
  {
    var previous := v.config.admin;
    var moved := Balance(v.shares, previous);
    if moved > 0 {
      var credited := Credit(v.shares, sender, moved);
      SumOfUpdate(v.shares, sender, Balance(v.shares, sender) + moved);
      SumWithout(credited, previous);
    }
  }

  /** The auxiliary invariant is exactly what the hand-over needs: with a self-proposal pending,
      accepting it keeps the sum only if the admin holds nothing. */
  lemma SelfAcceptDropsShares(v: Vault)
    requires v.total == Sum(v.shares) && v.config.pendingAdmin == Some(v.config.admin)
    requires AcceptAdmin(v, v.config.admin).Ok?
    ensures Sum(AcceptAdmin(v, v.config.admin).value.shares) == v.total <==> Balance(v.shares, v.config.admin) == 0
  {
    var admin := v.config.admin;
    var moved := Balance(v.shares, admin);
    if moved > 0 {
      assert Credit(v.shares, admin, moved) - {admin} == v.shares - {admin};
      SumWithout(v.shares, admin);
    }
  }

  lemma StepKeepsInv(v: Vault, a: Action)
    requires Inv(v) && a.Valid()
    ensures Inv(Apply(v, a))
  {
    if Execute(v, a).Ok? {
      match a
      case DepositBy(sender, token, amount, price) =>
        var minted := NavShares.DepositShares(amount, token, price, v.held.Plus(Just(token, amount)), v.total).value;
        SumOfUpdate(v.shares, sender, Balance(v.shares, sender) + minted);
      case WithdrawBy(sender, shares) => BurnKeepsSum(v, sender, shares);
      case RedeemBy(sender) => BurnKeepsSum(v, sender, Balance(v.shares, sender));
      case RebalanceBy(market) => RebalanceKeepsInv(v, market);
      case AcceptAdminBy(sender) => AcceptAdminKeepsSum(v, sender);
      case _ =>
    }
  }

  lemma RebalanceKeepsInv(v: Vault, m: Market)
    requires Inv(v) && m.Valid() && Rebalance(v, m).Ok?
    ensures Inv(Rebalance(v, m).value)
  {
    var swapped := StartRebalance(v, m).value.(held := m.settled);
    var p, c := swapped.pending.value, swapped.config;
    var within := ValidateOutcome(p.preDeviation, AllocationDeviation(swapped.held, p.twap, c.grid).value,
      c.tolerance).value;
    var config := if within then c.(referencePrice := p.twap, lastCell := GridCell(p.twap, c.grid)) else c;
    var ask := p.offer.Other();
    ChargeFeeKeepsSum(swapped.(config := config, pending := None),
                      NavShares.CreditedValue(ask, swapped.held.Get(ask) - p.balances.Get(ask), p.twap),
                      NavShares.FlooredNav(swapped.held, p.twap), m.feeBps);
  }

  /** Share conservation over every run: the recorded total is the sum of all holdings. */
  lemma {:induction false} SharesConserved(v: Vault, actions: seq<Action>)
    requires Inv(v) && forall i :: 0 <= i < |actions| ==> actions[i].Valid()
    ensures Inv(Run(v, actions))
    decreases |actions|
  {
    if actions != [] {
      StepKeepsInv(v, actions[0]);
      SharesConserved(Apply(v, actions[0]), actions[1..]);
    }
  }

  /** In reach of the invariant, a holder's balance never exceeds the total, so neither withdrawal path
      can fail on `shares > total_shares` or underflow. */
  lemma OwnSharesAlwaysBurnable(v: Vault, sender: Address, shares: nat)
    requires Inv(v) && 0 < shares <= Balance(v.shares, sender)
    ensures Withdraw(v, sender, shares).Ok?
    ensures v.config.collector == Some(sender) ==> Redeem(v, sender).Ok?
  {
    BalanceWithinSum(v.shares, sender);
  }

  /** Actions that pay out pro rata or give to the vault. */
  predicate PayoutOrGift(a: Action) { a.WithdrawBy? || a.RedeemBy? || a.Donation? }

  function PoolOf(v: Vault, t: Token): Pool { Pool(v.held.Get(t), v.total) }

  /** Over any run of withdrawals, redemptions and donations, what stands behind each remaining share
      never falls, in either token. */
  lemma {:induction false} PayoutsKeepBacking(v: Vault, actions: seq<Action>, t: Token)
    requires Inv(v) && forall i :: 0 <= i < |actions| ==> actions[i].Valid() && PayoutOrGift(actions[i])
    ensures BackedAtLeast(PoolOf(Run(v, actions), t), PoolOf(v, t))
    ensures v.total == 0 ==> Run(v, actions).total == 0
    decreases |actions|
  {
    if actions != [] {
      var next := Apply(v, actions[0]);
      StepKeepsInv(v, actions[0]);
      PayoutKeepsBacking(v, actions[0], t);
      PayoutsKeepBacking(next, actions[1..], t);
      if next.total > 0 {
        BackingTransitive(PoolOf(v, t), PoolOf(next, t), PoolOf(Run(v, actions), t));
      }
    }
  }

  lemma PayoutKeepsBacking(v: Vault, a: Action, t: Token)
    requires Inv(v) && PayoutOrGift(a)
    ensures BackedAtLeast(PoolOf(Apply(v, a), t), PoolOf(v, t))
    ensures Apply(v, a).total <= v.total
  {
    if Execute(v, a).Ok? {
      match a
      case WithdrawBy(sender, shares) => BurnIsPoolBurn(v, sender, shares, t); BurnKeepsBacking(PoolOf(v, t), shares);
      case RedeemBy(sender) =>
        var shares := Balance(v.shares, sender);
        BurnIsPoolBurn(v, sender, shares, t);
        BurnKeepsBacking(PoolOf(v, t), shares);
      case Donation(gift) => MulLe(v.held.Get(t), v.held.Get(t) + gift.Get(t), v.total);
    }
  }

  lemma BurnIsPoolBurn(v: Vault, owner: Address, shares: nat, t: Token)
    requires 0 < shares <= Balance(v.shares, owner) && shares <= v.total
    ensures PoolOf(Burn(v, owner, shares), t) == PoolBurn(PoolOf(v, t), shares)
  {
    NavShares.PayoutCovered(v.held, shares, v.total);
  }

  /** Burning every share pays both tokens out to the last unit: whichever burn brings the total to
      zero, in whatever order the holders went, leaves nothing behind. */
  lemma LastBurnEmptiesVault(v: Vault, a: Action)
    requires Inv(v) && (a.WithdrawBy? || a.RedeemBy?) && v.total > 0 && Apply(v, a).total == 0
    ensures Apply(v, a).held == Nothing()
  {
    NavShares.PayoutCovered(v.held, v.total, v.total);
  }

  /** A deposit and the immediate withdrawal of exactly the minted shares, as two transactions at one
      price, hand back floored value of at most the credited value (plus one for token 1). */
  lemma DepositThenWithdraw(v: Vault, sender: Address, token: Token, amount: nat, price: nat)
    requires Inv(v) && price > 0 && v.total > 0
    requires Deposit(v, sender, token, amount, price).Ok?
    ensures var mid := Deposit(v, sender, token, amount, price).value;
            var end := Withdraw(mid, sender, mid.total - v.total);
            end.Ok? && end.value.total == v.total && mid.held.Covers(end.value.held)
            && NavShares.FlooredNav(mid.held.Minus(end.value.held), price)
               <= NavShares.CreditedValue(token, amount, price) + (if token == Token0 then 0 else 1)
  {
    var mid := Deposit(v, sender, token, amount, price).value;
    var minted := mid.total - v.total;
    NavShares.DepositSharesIsMintedFor(amount, token, price, v.held, v.total);
    NavShares.DepositRoundTrip(v.held, token, amount, price, v.total);
    NavShares.PayoutCovered(mid.held, minted, mid.total);
    var out := NavShares.Payout(mid.held, minted, mid.total);
    assert mid.held.Minus(mid.held.Minus(out)) == out;
  }

  /** A deposit never lowers the floored value per share of those already in. */
  lemma DepositKeepsNavPerShare(v: Vault, sender: Address, token: Token, amount: nat, price: nat)
    requires Inv(v) && price > 0 && v.total > 0
    requires Deposit(v, sender, token, amount, price).Ok?
    ensures var after := Deposit(v, sender, token, amount, price).value;
            NavShares.FlooredNav(after.held, price) * v.total >= NavShares.FlooredNav(v.held, price) * after.total
  {
    NavShares.DepositSharesIsMintedFor(amount, token, price, v.held, v.total);
    NavShares.DepositNeverDilutes(v.held, token, amount, price, v.total);
  }

  /** What an accepted rebalance did, read off the code: it followed the plan, settled within it, and
      ended within tolerance or closer than it began. */
  lemma RebalanceFollowsPlan(v: Vault, m: Market)
    requires v.config.Valid() && m.Valid() && Rebalance(v, m).Ok?
    ensures var after := Rebalance(v, m).value;
            var before, now := AllocationDeviation(v.held, m.twap, v.config.grid),
              AllocationDeviation(after.held, m.twap, v.config.grid);
            Plan(v, m).Ok? && ValidateSettlement(Plan(v, m).value, after.held).Ok?
            && RebalanceRequired(v, m.twap) == Some(true)
            && before.Some? && now.Some?
            && (now.value <= v.config.tolerance || now.value < before.value)
            && after.config == (if now.value <= v.config.tolerance
                                then v.config.(referencePrice := m.twap, lastCell := GridCell(m.twap, v.config.grid))
                                else v.config)
            && after.held == m.settled && after.paused == v.paused
  {
  }

  /** Bounded loss per rebalance: at the captured price, any accepted settlement loses at most the execution
      deviation on the offered value, hence at most max_trade x max_execution_deviation on the holdings,
      plus two smallest units of the token received. */
  lemma RebalanceLossBounded(v: Vault, m: Market)
    requires v.config.Valid() && m.Valid() && v.held.Fits() && Rebalance(v, m).Ok?
    ensures Plan(v, m).Ok?
    ensures var p := Plan(v, m).value;
            var loss := Value(v.held, m.twap) - Value(Rebalance(v, m).value.held, m.twap);
            var unit := UnitValue(p.offer.Other(), m.twap);
            loss * BPS <= ValueOf(p.offer, p.amount, m.twap) * v.config.maxExecutionDeviation + 2 * BPS * unit
            && loss * BPS * BPS
               <= Value(v.held, m.twap) * v.config.maxTrade * v.config.maxExecutionDeviation + 2 * BPS * BPS * unit
  {
    RebalanceFollowsPlan(v, m);
    var p := Plan(v, m).value;
    CellWithinGrid(m.twap, v.config.grid);
    PlannedOfferIsAimed(v.held, m.twap, GridCell(m.twap, v.config.grid), v.config.grid.count, v.config.maxTrade);
    BoundedLoss(p, m.settled, v.config.maxExecutionDeviation, m.quoteFloor);
    BoundedLossOfPortfolio(p, m.settled, v.config.maxTrade, v.config.maxExecutionDeviation, m.quoteFloor);
  }

  /** Rebalances that commit one after another at one TWAP, with nothing in between. */
  ghost predicate CommitsInARow(run: seq<Vault>, twap: nat)
  {
    |run| > 1 ==> CommitsTo(run[0], run[1], twap) && CommitsInARow(run[1..], twap)
  }

  ghost predicate CommitsTo(v: Vault, after: Vault, twap: nat)
  {
    v.config.Valid() && exists m: Market :: m.Valid() && m.twap == twap && Rebalance(v, m) == Ok(after)
  }

  /** Rebalancing terminates: at an unchanged TWAP at most deviation + 1 rebalances commit in a row. */
  lemma {:induction false} RebalancingTerminates(run: seq<Vault>, twap: nat)
    requires |run| > 0 && run[0].config.Valid() && 0 < twap < TWO_128 && CommitsInARow(run, twap)
    requires AllocationDeviation(run[0].held, twap, run[0].config.grid).Some?
    ensures |run| - 1 <= AllocationDeviation(run[0].held, twap, run[0].config.grid).value + 1
    decreases |run|
  {
    if |run| > 1 {
      var m: Market :| m.Valid() && m.twap == twap && Rebalance(run[0], m) == Ok(run[1]);
      RebalanceFollowsPlan(run[0], m);
      if |run| > 2 {
        // A further commit means this one ended outside tolerance, hence strictly closer.
        assert CommitsTo(run[1..][0], run[1..][1], twap);
        var m': Market :| m'.Valid() && m'.twap == twap && Rebalance(run[1], m') == Ok(run[1..][1]);
        RebalanceFollowsPlan(run[1], m');
        RebalancingTerminates(run[1..], twap);
      }
    }
  }
}
