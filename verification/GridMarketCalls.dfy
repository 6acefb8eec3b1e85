/** What each transaction of the market-grid vault answers, in storage fields, balances and exact values
    alone: exactly when it commits, and then what it mints, pays, sells and charges. */
module GridMarketCalls {
  import opened Arithmetic
  import opened Tokens
  import opened Ledger
  import opened Settlement
  import opened GridPlan
  import opened GridMarket
  import opened GridMarketRuns
  import opened Trades
  import ProRata
  import NavShares
  import FeeMint

  // ---- Deposits ----

  /** `x` shares for a deposit worth `credited` next to holdings worth `nav`: its face value while there is
      nothing to compare with, else the most that leaves value per share where it was. */
  predicate MintsMost(credited: nat, supply: nat, nav: nat, x: nat)
  {
    if supply == 0 || nav == 0 then x == credited else x * nav <= credited * supply < (x + 1) * nav
  }

  lemma MintIs(credited: nat, supply: nat, nav: nat, x: nat)
    requires MintsMost(credited, supply, nav, x)
    ensures NavShares.MintedFor(credited, supply, nav) == x
  {
    if supply > 0 && nav > 0 {
      WholeIs(credited * supply, nav, x);
    }
  }

  /** Nobody's shares change but `holder`'s, which grow by what the total grows by. */
  ghost predicate MintedTo(v: Vault, after: Vault, holder: Address, x: nat)
  {
    after.total == v.total + x
    && forall a :: Balance(after.shares, a) == Balance(v.shares, a) + (if a == holder then x else 0)
  }

  /** A deposit commits exactly when the vault runs, the admin sends something, and the shares it is worth
      are some and fit; then exactly those are minted to the admin. */
  lemma DepositAnswers(
    v: Vault, sender: Address, token: Token, amount: nat, price: nat, credited: nat, nav: nat, x: nat)
    requires Inv(v) && 0 < price < TWO_128
    requires Whole(ValueOf(token, amount, price), price, credited) && Whole(Value(v.held, price), price, nav)
    requires MintsMost(credited, v.total, nav, x)
    ensures var after := Apply(v, DepositBy(sender, token, amount, price));
            if !v.paused && amount > 0 && sender == v.config.admin && credited < TWO_128
               && (v.total > 0 ==> nav < TWO_128) && x > 0 && v.total + x < TWO_128 then
              after == v.(held := v.held.Plus(Just(token, amount)), shares := after.shares, total := after.total)
              && MintedTo(v, after, sender, x)
            else after == v
  {
    CreditIsWhole(token, amount, price, credited);
    NavIsWhole(v.held, price, nav);
    MintIs(credited, v.total, nav, x);
    BalanceWithinSum(v.shares, sender);
    DepositSharesAre(v, token, amount, price);
    hide NavShares.DepositShares, NavShares.FlooredNav, NavShares.CreditedValue, NavShares.MintedFor;
  }

  lemma DepositSharesAre(v: Vault, token: Token, amount: nat, price: nat)
    requires 0 < price
    ensures var credited, nav := NavShares.CreditedValue(token, amount, price), NavShares.FlooredNav(v.held, price);
            NavShares.DepositShares(amount, token, price, v.held.Plus(Just(token, amount)), v.total)
            == if credited < TWO_128
               && (v.total > 0 ==> nav < TWO_128 && NavShares.MintedFor(credited, v.total, nav) < TWO_128)
               then Some(NavShares.MintedFor(credited, v.total, nav)) else None
  {
    assert v.held.Plus(Just(token, amount)).Minus(Just(token, amount)) == v.held;
  }

  // ---- Payouts ----

  /** `holder` burned shares for the most they claim of either token; nothing else changes. */
  ghost predicate BurnedFor(v: Vault, after: Vault, holder: Address, burned: nat)
  {
    (forall t: Token :: ProRata.PaysMost(v.held.Get(t), after.held.Get(t), burned, v.total))
    && after.total == v.total - burned
    && (forall a :: Balance(after.shares, a) == Balance(v.shares, a) - (if a == holder then burned else 0))
    && after == v.(held := after.held, total := after.total, shares := after.shares)
  }

  lemma BurnPays(v: Vault, holder: Address, burned: nat)
    requires 0 < burned <= Balance(v.shares, holder) && burned <= v.total
    ensures BurnedFor(v, Burn(v, holder, burned), holder, burned)
  {
    NavShares.PayoutCovered(v.held, burned, v.total);
    ProRata.ClaimPaysMost(v.held.t0, burned, v.total);
    ProRata.ClaimPaysMost(v.held.t1, burned, v.total);
    hide ProRata.PaysMost;
  }

  /** Anybody can withdraw what it owns, and nothing else. */
  lemma WithdrawalAnswers(v: Vault, sender: Address, burned: nat)
    requires Inv(v)
    ensures var after := Apply(v, WithdrawBy(sender, burned));
            if 0 < burned <= Balance(v.shares, sender) then BurnedFor(v, after, sender, burned) else after == v
  {
    BalanceWithinSum(v.shares, sender);
    hide Burn, BurnedFor;
    if 0 < burned <= Balance(v.shares, sender) {
      BurnPays(v, sender, burned);
    }
  }

  /** The collector can redeem all it owns at once, and nobody else can. */
  lemma RedemptionAnswers(v: Vault, sender: Address)
    requires Inv(v)
    ensures var after := Apply(v, RedeemBy(sender));
            var burned := Balance(v.shares, sender);
            if v.config.collector == Some(sender) && burned > 0 then BurnedFor(v, after, sender, burned) else after == v
  {
    BalanceWithinSum(v.shares, sender);
    hide Burn, BurnedFor;
    if v.config.collector == Some(sender) && Balance(v.shares, sender) > 0 {
      BurnPays(v, sender, Balance(v.shares, sender));
    }
  }

  // ---- When a rebalance is due ----

  /** The products behind the allocation fit in 256 bits. */
  predicate Computes(h: Amounts, price: nat, weight: nat)
  {
    Value(h, price) < TWO_256 && Value(h, price) * weight < TWO_256
  }

  /** `weight` is token 1's part at the price's cell, `target` what token 1 is worth by it. */
  predicate Targets(g: Grid, price: nat, h: Amounts, weight: nat, target: nat)
  {
    Whole(GridCell(price, g) * ONE, g.count, weight) && Whole(Value(h, price) * weight, ONE, target)
  }

  lemma TargetIs(g: Grid, price: nat, h: Amounts, weight: nat, target: nat)
    requires g.count > 0 && Targets(g, price, h, weight, target)
    ensures TargetValue(h, price, GridCell(price, g), g.count)
            == if Computes(h, price, weight) then Some(target) else None
  {
    WholeIs(GridCell(price, g) * ONE, g.count, weight);
    WholeIs(Value(h, price) * weight, ONE, target);
    hide Floor, Whole, GridCell, Value;
  }

  /** The deviation, at every size: at least `bps` basis points exactly when token 1 is worth that far from
      its target. */
  lemma DeviationIs(g: Grid, price: nat, h: Amounts, weight: nat, target: nat, bps: nat)
    requires g.count > 0 && Targets(g, price, h, weight, target)
    ensures var deviation := AllocationDeviation(h, price, g);
            (deviation.Some? <==> Computes(h, price, weight))
            && (deviation.Some? ==> (deviation.value >= bps <==> Apart(h.t1 * ONE, target, bps)))
  {
    TargetIs(g, price, h, weight, target);
    if h == Nothing() {
      NothingIsWorthNothing(h, price, weight, target);
    }
    if target > 0 {
      RatioIsApart(h.t1 * ONE, target, bps);
    }
    hide GridCell, RatioDeviation, TargetValue, Targets;
  }

  lemma NothingIsWorthNothing(h: Amounts, price: nat, weight: nat, target: nat)
    requires Whole(Value(h, price) * weight, ONE, target) && h == Nothing()
    ensures target == 0 && Computes(h, price, weight)
  {
    assert Value(h, price) == 0;
    assert 0 * weight == 0;
  }

  /** A rebalance is due exactly when the price's cell is not the one on record, or token 1 is worth more
      than the tolerance away from its target. */
  predicate Due(v: Vault, price: nat, target: nat)
  {
    GridCell(price, v.config.grid) != v.config.lastCell || Apart(v.held.t1 * ONE, target, v.config.tolerance + 1)
  }

  lemma RequiredIffDue(v: Vault, price: nat, weight: nat, target: nat)
    requires v.config.Valid() && Targets(v.config.grid, price, v.held, weight, target)
    ensures RebalanceRequired(v, price)
            == if Computes(v.held, price, weight) then Some(Due(v, price, target)) else None
  {
    DeviationIs(v.config.grid, price, v.held, weight, target, v.config.tolerance + 1);
    hide AllocationDeviation, Apart, Computes, Targets, GridCell;
  }

  // ---- What a rebalance does ----

  /** Some of a token, within the part of it one trade may take, and the most that a fill at the price itself
      would not carry past the target. */
  predicate Aimed(h: Amounts, price: nat, target: nat, maxTrade: nat, token: Token, amount: nat)
  {
    amount > 0 && StaysOnSide(h, price, target, token, amount) && amount * BPS <= h.Get(token) * maxTrade
    && ((amount + 1) * BPS <= h.Get(token) * maxTrade ==> !StaysOnSide(h, price, target, token, amount + 1))
  }

  lemma FewerStaysOnSide(h: Amounts, price: nat, target: nat, token: Token, n: nat, fewer: nat)
    requires StaysOnSide(h, price, target, token, n) && fewer <= n
    ensures StaysOnSide(h, price, target, token, fewer)
  {
    MulLe(fewer, n, price);
    MulLe(fewer, n, ONE);
  }

  /** There is one way to aim at most. */
  lemma AimedOnce(
    h: Amounts, price: nat, target: nat, maxTrade: nat, token: Token, amount: nat, token': Token, amount': nat)
    requires price > 0 && Aimed(h, price, target, maxTrade, token, amount)
    requires Aimed(h, price, target, maxTrade, token', amount')
    ensures token == token' && amount == amount'
  {
    MulPositive(amount, price);
    MulPositive(amount', price);
    assert token == token';
    if amount < amount' {
      FewerStaysOnSide(h, price, target, token, amount', amount + 1);
      MulLe(amount + 1, amount', BPS);
    } else if amount' < amount {
      FewerStaysOnSide(h, price, target, token, amount, amount' + 1);
      MulLe(amount' + 1, amount, BPS);
    }
  }

  /** The planned offer is exactly the aimed one, and there is none exactly when nothing can be aimed. */
  lemma OfferIsAimed(
    h: Amounts, price: nat, cell: nat, count: nat, maxTrade: nat, target: nat, token: Token, amount: nat)
    requires h.Fits() && 0 < price < TWO_128 && count > 0 && cell <= count && maxTrade <= BPS
    requires TargetValue(h, price, cell, count) == Some(target)
    ensures PlannedOffer(h, price, cell, count, maxTrade).Some?
    ensures PlannedOffer(h, price, cell, count, maxTrade).value == Some(Offer(token, amount))
            <==> Aimed(h, price, target, maxTrade, token, amount)
  {
    PlannedOfferIsAimed(h, price, cell, count, maxTrade);
    var plan := PlannedOffer(h, price, cell, count, maxTrade).value;
    hide PlannedOffer, StaysOnSide;
    if plan.Some? {
      CapIs(h.Get(plan.value.token), maxTrade, plan.value.amount);
      assert Aimed(h, price, target, maxTrade, plan.value.token, plan.value.amount);
      if Aimed(h, price, target, maxTrade, token, amount) {
        AimedOnce(h, price, target, maxTrade, plan.value.token, plan.value.amount, token, amount);
      }
    } else if Aimed(h, price, target, maxTrade, token, amount) {
      FewerStaysOnSide(h, price, target, token, amount, 1);
      CapIs(h.Get(token), maxTrade, amount);
      assert false;
    }
  }

  /** A trade the market lets the vault make: aimed, priced and executed as asked, ending within tolerance or
      closer than it began, and with a fee that can be booked. */
  ghost predicate Makes(v: Vault, m: Market, target: nat, settledTarget: nat, t: Trade)
    requires v.config.Valid()
  {
    Aimed(v.held, m.twap, target, v.config.maxTrade, t.token, t.amount)
    && Priced(m.twap, t)
    && Executed(v.held, m.settled, m.quoteFloor, v.config.maxExecutionDeviation, t)
    && (Within(v, m, settledTarget)
        || exists bps :: Apart(v.held.t1 * ONE, target, bps) && !Apart(m.settled.t1 * ONE, settledTarget, bps))
    && Charged(v.held, m.settled, m.twap, m.feeBps, v.total, v.config.collector.Some?, t)
  }

  /** The settled holdings are within tolerance of their own target. */
  predicate Within(v: Vault, m: Market, settledTarget: nat)
  {
    !Apart(m.settled.t1 * ONE, settledTarget, v.config.tolerance + 1)
  }

  /** The vault may start now. */
  predicate Open(v: Vault, m: Market) { !v.paused && m.inTime && m.pairKnown && m.poolSafe }

  /** The books after such a trade: the settled holdings, the fee minted to the collector alone, and the
      price as the new reference if the trade ended within tolerance. */
  ghost predicate Made(v: Vault, m: Market, settledTarget: nat, t: Trade, after: Vault)
  {
    after == v.(held := m.settled, total := after.total, shares := after.shares, config := after.config)
    && after.total == v.total + t.minted
    && (forall a ::
          Balance(after.shares, a) == Balance(v.shares, a) + (if v.config.collector == Some(a) then t.minted else 0))
    && after.config == if Within(v, m, settledTarget)
                       then v.config.(referencePrice := m.twap, lastCell := GridCell(m.twap, v.config.grid))
                       else v.config
  }

  /** The record of a started rebalance that will make this trade. */
  function Record(v: Vault, m: Market, t: Trade): Pending
    requires v.config.Valid() && AllocationDeviation(v.held, m.twap, v.config.grid).Some?
  {
    Pending(m.twap, v.held, AllocationDeviation(v.held, m.twap, v.config.grid).value, t.token, t.amount,
            MinReturn(t.expected, v.config.maxExecutionDeviation, m.quoteFloor))
  }

  lemma StartsFor(v: Vault, m: Market, weight: nat, target: nat, t: Trade)
    requires Inv(v) && m.Valid() && v.held.Fits() && Targets(v.config.grid, m.twap, v.held, weight, target)
    requires Open(v, m) && Computes(v.held, m.twap, weight) && Due(v, m.twap, target)
    requires Aimed(v.held, m.twap, target, v.config.maxTrade, t.token, t.amount) && Priced(m.twap, t)
    ensures AllocationDeviation(v.held, m.twap, v.config.grid).Some?
    ensures StartRebalance(v, m) == Ok(v.(pending := Some(Record(v, m, t))))
  {
    RequiredIffDue(v, m.twap, weight, target);
    DeviationIs(v.config.grid, m.twap, v.held, weight, target, 0);
    PricedIs(m.twap, t.token, t.amount, t.expected);
    TargetIs(v.config.grid, m.twap, v.held, weight, target);
    CellWithinGrid(m.twap, v.config.grid);
    OfferIsAimed(v.held, m.twap, GridCell(m.twap, v.config.grid), v.config.grid.count, v.config.maxTrade, target,
                 t.token, t.amount);
    hide RebalanceRequired, AllocationDeviation, PlannedOffer, ExpectedReturn, Aimed, Due, Targets, Computes, GridCell,
         MinReturn, Inv;
    RestingInv(v);
  }

  lemma RestingInv(v: Vault)
    requires Inv(v)
    ensures v.config.Valid() && v.pending.None?
  {
  }

  /** A rebalance that starts is due, and its record is of an aimed and priced trade. */
  lemma StartedFor(v: Vault, m: Market, weight: nat, target: nat) returns (t: Trade)
    requires Inv(v) && m.Valid() && v.held.Fits() && Targets(v.config.grid, m.twap, v.held, weight, target)
    requires StartRebalance(v, m).Ok?
    ensures Open(v, m) && Computes(v.held, m.twap, weight) && Due(v, m.twap, target)
    ensures Aimed(v.held, m.twap, target, v.config.maxTrade, t.token, t.amount) && Priced(m.twap, t)
    ensures AllocationDeviation(v.held, m.twap, v.config.grid).Some?
    ensures StartRebalance(v, m).value == v.(pending := Some(Record(v, m, t)))
  {
    RequiredIffDue(v, m.twap, weight, target);
    TargetIs(v.config.grid, m.twap, v.held, weight, target);
    CellWithinGrid(m.twap, v.config.grid);
    var p := StartRebalance(v, m).value.pending.value;
    t := Trade(p.offer, p.amount, ExpectedReturn(p.amount, p.offer, m.twap).value, 0, 0, 0);
    PricedIs(m.twap, t.token, t.amount, t.expected);
    OfferIsAimed(v.held, m.twap, GridCell(m.twap, v.config.grid), v.config.grid.count, v.config.maxTrade, target,
                 t.token, t.amount);
    hide AllocationDeviation, PlannedOffer, ExpectedReturn, Aimed, Due, Targets, Computes, GridCell, MinReturn, Inv;
  }

  lemma ImprovesIff(before: nat, now: nat, a: nat, target: nat, a': nat, target': nat)
    requires forall bps: nat :: before >= bps <==> Apart(a, target, bps)
    requires forall bps: nat :: now >= bps <==> Apart(a', target', bps)
    ensures now < before <==> exists bps: nat :: Apart(a, target, bps) && !Apart(a', target', bps)
  {
    hide Apart;
    if now < before {
      assert Apart(a, target, before) && !Apart(a', target', before);
    }
  }

  /** The trade with the worth and the fee that its settlement comes to. */
  function Completed(v: Vault, m: Market, t: Trade): Trade
    requires m.Valid() && m.settled.Get(t.token.Other()) >= v.held.Get(t.token.Other())
  {
    var ask := t.token.Other();
    var worth := NavShares.CreditedValue(ask, m.settled.Get(ask) - v.held.Get(ask), m.twap);
    var nav := NavShares.FlooredNav(m.settled, m.twap);
    t.(worth := worth, nav := nav,
       minted := if v.config.collector.Some? then FeeMint.FeeShares(FeeOn(worth, m.feeBps), nav, v.total) else 0)
  }

  /** A fee is booked unless its shares leave 128 bits: for the collector, and for nobody else. */
  lemma FeeIsBooked(v: Vault, value: nat, assets: nat, feeBps: nat)
    requires v.total == Sum(v.shares)
    ensures var minted := if v.config.collector.Some? then FeeMint.FeeShares(FeeOn(value, feeBps), assets, v.total)
              else 0;
            var r := ChargeFee(v, value, assets, feeBps);
            (r.Ok? <==> (minted > 0 ==> v.total + minted < TWO_128))
            && (r.Ok? ==>
                  r.value == v.(total := v.total + minted, shares := r.value.shares)
                  && forall a ::
                       Balance(r.value.shares, a)
                       == Balance(v.shares, a) + (if v.config.collector == Some(a) then minted else 0))
  {
    if v.config.collector.Some? {
      BalanceWithinSum(v.shares, v.config.collector.value);
    }
  }

  /** The settled vault before its fee, the reference moved if the allocation ended within tolerance. */
  function Quiet(v: Vault, m: Market, within: bool): Vault
  {
    v.(held := m.settled,
       config := if within then v.config.(referencePrice := m.twap, lastCell := GridCell(m.twap, v.config.grid))
                 else v.config)
  }

  /** The reply, check by check. */
  lemma SettleSteps(v: Vault, m: Market, before: nat, t: Trade)
    requires Inv(v) && m.Valid() && m.settled.Fits()
    requires AllocationDeviation(v.held, m.twap, v.config.grid) == Some(before)
    ensures var r := Settle(v.(pending := Some(Record(v, m, t)), held := m.settled), m.feeBps);
            var now := AllocationDeviation(m.settled, m.twap, v.config.grid);
            if now.Some? && Executed(v.held, m.settled, m.quoteFloor, v.config.maxExecutionDeviation, t)
               && (now.value <= v.config.tolerance || now.value < before)
               && Completed(v, m, t).worth < TWO_128 && Completed(v, m, t).nav < TWO_128 then
              r == ChargeFee(Quiet(v, m, now.value <= v.config.tolerance), Completed(v, m, t).worth,
                             Completed(v, m, t).nav, m.feeBps)
            else r.Err?
  {
    SettlesIffExecuted(Record(v, m, t), m.settled, m.quoteFloor, v.config.maxExecutionDeviation, t);
    hide ChargeFee, AllocationDeviation, ValidateSettlement, NavShares.CreditedValue, NavShares.FlooredNav,
         FeeMint.FeeShares, Floor, GridCell, Sum, MinReturn;
  }

  lemma Improves(
    g: Grid, price: nat, h: Amounts, settled: Amounts, weight: nat, target: nat, settledTarget: nat, tolerance: nat)
    requires g.count > 0 && Targets(g, price, h, weight, target) && Targets(g, price, settled, weight, settledTarget)
    requires AllocationDeviation(h, price, g).Some?
    ensures var now := AllocationDeviation(settled, price, g);
            (now.Some? <==> Computes(settled, price, weight))
            && (now.Some? ==>
                  (now.value <= tolerance <==> !Apart(settled.t1 * ONE, settledTarget, tolerance + 1))
                  && (now.value < AllocationDeviation(h, price, g).value
                      <==> exists bps ::
                             Apart(h.t1 * ONE, target, bps) && !Apart(settled.t1 * ONE, settledTarget, bps)))
  {
    var before, now := AllocationDeviation(h, price, g), AllocationDeviation(settled, price, g);
    DeviationIs(g, price, settled, weight, settledTarget, tolerance + 1);
    if now.Some? {
      forall bps: nat
        ensures (before.value >= bps <==> Apart(h.t1 * ONE, target, bps))
                && (now.value >= bps <==> Apart(settled.t1 * ONE, settledTarget, bps))
      {
        DeviationIs(g, price, h, weight, target, bps);
        DeviationIs(g, price, settled, weight, settledTarget, bps);
      }
      ImprovesIff(before.value, now.value, h.t1 * ONE, target, settled.t1 * ONE, settledTarget);
    }
    hide AllocationDeviation, Apart, Targets, Computes;
  }

  /** The reply accepts a started trade exactly when the vault makes it, and then books it. */
  lemma SettlesFor(v: Vault, m: Market, weight: nat, target: nat, settledTarget: nat, t: Trade)
    requires Inv(v) && m.Valid() && m.settled.Fits() && Targets(v.config.grid, m.twap, v.held, weight, target)
    requires Targets(v.config.grid, m.twap, m.settled, weight, settledTarget)
    requires AllocationDeviation(v.held, m.twap, v.config.grid).Some?
    requires Aimed(v.held, m.twap, target, v.config.maxTrade, t.token, t.amount) && Priced(m.twap, t)
    ensures var r := Settle(v.(pending := Some(Record(v, m, t)), held := m.settled), m.feeBps);
            var made := m.settled.Get(t.token.Other()) >= v.held.Get(t.token.Other())
                        && Computes(m.settled, m.twap, weight)
                        && Makes(v, m, target, settledTarget, Completed(v, m, t));
            (r.Ok? <==> made) && (r.Ok? ==> Made(v, m, settledTarget, Completed(v, m, t), r.value))
  {
    hide Settle, ChargeFee, AllocationDeviation, Apart, Charged, NavShares.CreditedValue, NavShares.FlooredNav,
         FeeMint.FeeShares, Floor, Aimed, Whole, GridCell, Computes, Targets, Sum, MinReturn;
    SettleSteps(v, m, AllocationDeviation(v.held, m.twap, v.config.grid).value, t);
    Improves(v.config.grid, m.twap, v.held, m.settled, weight, target, settledTarget, v.config.tolerance);
    if m.settled.Get(t.token.Other()) >= v.held.Get(t.token.Other()) {
      var done := Completed(v, m, t);
      ChargedIs(v.held, m.settled, m.twap, m.feeBps, v.total, v.config.collector.Some?, done);
      FeeIsBooked(Quiet(v, m, Within(v, m, settledTarget)), done.worth, done.nav, m.feeBps);
    }
  }

  lemma MakesAims(v: Vault, m: Market, target: nat, settledTarget: nat, t: Trade)
    requires v.config.Valid() && Makes(v, m, target, settledTarget, t)
    ensures Aimed(v.held, m.twap, target, v.config.maxTrade, t.token, t.amount) && Priced(m.twap, t)
    ensures m.settled.Get(t.token.Other()) >= v.held.Get(t.token.Other())
  {
  }

  /** Every trade the vault could make is the aimed one, completed. */
  lemma TradeIsCompleted(v: Vault, m: Market, target: nat, settledTarget: nat, t: Trade)
    requires v.config.Valid() && m.Valid()
    requires Aimed(v.held, m.twap, target, v.config.maxTrade, t.token, t.amount) && Priced(m.twap, t)
    ensures forall t': Trade :: Makes(v, m, target, settledTarget, t') ==>
              m.settled.Get(t.token.Other()) >= v.held.Get(t.token.Other()) && t' == Completed(v, m, t)
  {
    forall t': Trade | Makes(v, m, target, settledTarget, t')
      ensures m.settled.Get(t.token.Other()) >= v.held.Get(t.token.Other()) && t' == Completed(v, m, t)
    {
      AimedOnce(v.held, m.twap, target, v.config.maxTrade, t.token, t.amount, t'.token, t'.amount);
      PricedIs(m.twap, t.token, t.amount, t.expected);
      PricedIs(m.twap, t.token, t.amount, t'.expected);
      ChargedIs(v.held, m.settled, m.twap, m.feeBps, v.total, v.config.collector.Some?, t');
      hide Aimed, Priced, Executed, Apart, Charged, NavShares.CreditedValue, NavShares.FlooredNav, FeeMint.FeeShares,
           Floor;
    }
  }

  /** A rebalance commits exactly when the vault is open, the products compute, the rebalance is due and the
      market lets the vault make some trade; that trade is then booked. Otherwise nothing changes. */
  lemma RebalanceAnswers(v: Vault, m: Market, weight: nat, target: nat, settledTarget: nat)
    requires Inv(v) && m.Valid() && v.held.Fits() && m.settled.Fits()
    requires Targets(v.config.grid, m.twap, v.held, weight, target)
    requires Targets(v.config.grid, m.twap, m.settled, weight, settledTarget)
    ensures var after := Apply(v, RebalanceBy(m));
            if Open(v, m) && Computes(v.held, m.twap, weight) && Computes(m.settled, m.twap, weight)
               && Due(v, m.twap, target) && exists t: Trade :: Makes(v, m, target, settledTarget, t) then
              exists t: Trade :: Makes(v, m, target, settledTarget, t) && Made(v, m, settledTarget, t, after)
            else after == v
  {
    hide Makes, Made, Targets, Settle, StartRebalance, Aimed, Due, Computes, Priced, Inv;
    RestingInv(v);
    if StartRebalance(v, m).Ok? {
      var t := StartedFor(v, m, weight, target);
      SettlesFor(v, m, weight, target, settledTarget, t);
      TradeIsCompleted(v, m, target, settledTarget, t);
    } else if t: Trade :| Makes(v, m, target, settledTarget, t) {
      MakesAims(v, m, target, settledTarget, t);
      if Open(v, m) && Computes(v.held, m.twap, weight) && Due(v, m.twap, target) {
        StartsFor(v, m, weight, target, t);
      }
    }
  }

  // ---- What a rebalance charges ----

  /** A committed rebalance is its settled holdings with the fee charged on them. */
  lemma RebalanceCharges(v: Vault, m: Market) returns (offer: Token, within: bool)
    requires Inv(v) && m.Valid() && Rebalance(v, m).Ok?
    ensures m.settled.Get(offer) < v.held.Get(offer) && m.settled.Get(offer.Other()) >= v.held.Get(offer.Other())
    ensures var gained := m.settled.Get(offer.Other()) - v.held.Get(offer.Other());
            Rebalance(v, m) == ChargeFee(Quiet(v, m, within), NavShares.CreditedValue(offer.Other(), gained, m.twap),
                                         NavShares.FlooredNav(m.settled, m.twap), m.feeBps)
  {
    var p := StartRebalance(v, m).value.pending.value;
    offer := p.offer;
    within := AllocationDeviation(m.settled, m.twap, v.config.grid).value <= v.config.tolerance;
    hide ChargeFee, AllocationDeviation, NavShares.CreditedValue, NavShares.FlooredNav, Floor, GridCell, Sum, MinReturn,
         TargetValue, ExpectedReturn, RebalanceRequired;
  }

  /** The fee of a committed rebalance. `worth` is what it bought and `nav` the settled holdings, in whole
      token-0 units at the captured price. The total grows by the most shares whose claim on those holdings
      stays within the fee on what was bought; all of them are the collector's. */
  lemma RebalanceFeeIsLargest(v: Vault, m: Market, ask: Token, worth: nat, nav: nat)
    requires Inv(v) && m.Valid() && Bought(v.held, m.settled, m.twap, ask, worth, nav) && Rebalance(v, m).Ok?
    ensures FeeBooked(v, Rebalance(v, m).value, FeeOn(worth, m.feeBps), nav)
  {
    hide Rebalance, ChargeFee, NavShares.CreditedValue, NavShares.FlooredNav, FeeMint.FeeShares, FeeMint.FairMint,
         Floor, GridCell, Sum, Bought;
    var offer, within := RebalanceCharges(v, m);
    BoughtIs(v.held, m.settled, m.twap, ask, offer, worth, nav);
    FeeIsBooked(Quiet(v, m, within), worth, nav, m.feeBps);
    var fee := FeeOn(worth, m.feeBps);
    FeeMint.FairMintIsFeeShares(fee, nav, v.total, FeeMint.FeeShares(fee, nav, v.total));
    if v.config.collector.Some? {
      FeeMint.FairMintIsNothingIff(fee, nav, v.total, FeeMint.FeeShares(fee, nav, v.total));
    }
  }

  /** The total has grown by a fair mint for the fee, nothing exactly where nothing can be charged, and it is
      the collector's. */
  ghost predicate FeeBooked(v: Vault, after: Vault, fee: nat, nav: nat)
  {
    after.total >= v.total
    && var x := after.total - v.total;
       (if v.config.collector.None? then x == 0 else FeeMint.FairMint(fee, nav, v.total, x))
       && (x == 0 <==> v.config.collector.None? || fee == 0 || v.total == 0 || fee >= nav || fee * (v.total + 1) < nav)
       && forall a ::
            Balance(after.shares, a) == Balance(v.shares, a) + (if v.config.collector == Some(a) then x else 0)
  }

  /** So what the collector could take out with them at once is at most the fee. */
  lemma RebalanceFeeIsFair(v: Vault, m: Market, ask: Token, worth: nat, nav: nat)
    requires Inv(v) && m.Valid() && v.total > 0
    requires Bought(v.held, m.settled, m.twap, ask, worth, nav) && Rebalance(v, m).Ok?
    ensures var total := Rebalance(v, m).value.total;
            total >= v.total && ProRata.Claim(nav, total - v.total, total) <= FeeOn(worth, m.feeBps)
  {
    RebalanceFeeIsLargest(v, m, ask, worth, nav);
    hide Rebalance, Bought, FeeOn, Sum;
    var total, fee := Rebalance(v, m).value.total, FeeOn(worth, m.feeBps);
    if v.config.collector.Some? {
      FeeMint.FairMintClaims(fee, nav, v.total, total - v.total);
    } else {
      FeeMint.FairMintClaims(0, nav, v.total, 0);
    }
  }

  // ---- Governance ----

  /** Nobody is paid, no second rebalance starts and no setting changes between a swap and its reply. */
  lemma PendingBlocks(v: Vault, sender: Address, burned: nat, m: Market, u: Update)
    requires v.pending.Some? && v.config.Valid() && m.Valid()
    ensures Withdraw(v, sender, burned).Err? && Redeem(v, sender).Err? && StartRebalance(v, m).Err?
            && UpdateConfig(v, sender, u).Err?
  {
    hide Plan, Burn;
  }

  /** Only by its own withdrawal or redemption, or as an admin who is being succeeded, does anybody's holding
      shrink: whatever the others send, it stays. */
  lemma HoldingsShrinkByOwner(v: Vault, a: Action, holder: Address)
    requires Inv(v) && a.Valid() && Balance(Apply(v, a).shares, holder) < Balance(v.shares, holder)
    ensures (a.WithdrawBy? && a.holder == holder) || (a.RedeemBy? && a.redeemer == holder)
            || (a.AcceptAdminBy? && v.config.admin == holder && v.config.pendingAdmin == Some(a.accepter))
  {
    hide Sum, Rebalance, NavShares.DepositShares;
    if a.RebalanceBy? && Rebalance(v, a.market).Ok? {
      RebalanceOnlyAdds(v, a.market, holder);
    }
  }

  lemma RebalanceOnlyAdds(v: Vault, m: Market, holder: Address)
    requires Inv(v) && m.Valid() && Rebalance(v, m).Ok?
    ensures Balance(Rebalance(v, m).value.shares, holder) >= Balance(v.shares, holder)
  {
    hide Rebalance, ChargeFee, NavShares.CreditedValue, NavShares.FlooredNav;
    var offer, within := RebalanceCharges(v, m);
    var gained := m.settled.Get(offer.Other()) - v.held.Get(offer.Other());
    FeeOnlyAdds(Quiet(v, m, within), NavShares.CreditedValue(offer.Other(), gained, m.twap),
      NavShares.FlooredNav(m.settled, m.twap), m.feeBps, holder);
  }

  lemma FeeOnlyAdds(v: Vault, value: nat, assets: nat, feeBps: nat, holder: Address)
    requires ChargeFee(v, value, assets, feeBps).Ok?
    ensures Balance(ChargeFee(v, value, assets, feeBps).value.shares, holder) >= Balance(v.shares, holder)
  {
    hide FeeMint.FeeShares;
  }

  /** Handing over: only the proposed admin can accept, and takes over the old one's whole holding unless the
      two together leave 128 bits. */
  lemma AcceptanceAnswers(v: Vault, sender: Address)
    requires Inv(v)
    ensures var after := Apply(v, AcceptAdminBy(sender));
            var previous := v.config.admin;
            var moved := Balance(v.shares, previous);
            if v.config.pendingAdmin == Some(sender) && (moved > 0 ==> Balance(v.shares, sender) + moved < TWO_128) then
              after == v.(shares := after.shares, config := v.config.(admin := sender, pendingAdmin := None))
              && forall a ::
                   Balance(after.shares, a)
                   == if a == sender then Balance(v.shares, a) + moved else if a == previous then 0
                      else Balance(v.shares, a)
            else after == v
  {
    hide Sum;
  }

  /** The admin alone proposes somebody else, and alone pauses a running vault or resumes a paused one. */
  lemma AdminAnswers(v: Vault, sender: Address, proposed: Address, paused: bool)
    requires Inv(v)
    ensures Apply(v, TransferAdminBy(sender, proposed))
            == if sender == v.config.admin && proposed != sender then
                 v.(config := v.config.(pendingAdmin := Some(proposed)))
               else v
    ensures Apply(v, SetPausedBy(sender, paused)) == if sender == v.config.admin then v.(paused := paused) else v
  {
  }

  /** A setting after an update: the requested value, or the old one. */
  predicate Set<T(==)>(request: Option<T>, before: T, after: T) { after == Or(request, before) }

  predicate Requested(u: Update, c: Config, after: Config)
  {
    after == c.(collector := after.collector, grid := after.grid, tolerance := after.tolerance,
                maxTrade := after.maxTrade, maxExecutionDeviation := after.maxExecutionDeviation)
    && Set(u.collector, c.collector, after.collector) && Set(u.count, c.grid.count, after.grid.count)
    && Set(u.lower, c.grid.lower, after.grid.lower) && Set(u.upper, c.grid.upper, after.grid.upper)
    && Set(u.tolerance, c.tolerance, after.tolerance) && Set(u.maxTrade, c.maxTrade, after.maxTrade)
    && Set(u.maxExecutionDeviation, c.maxExecutionDeviation, after.maxExecutionDeviation)
  }

  /** The bounds a deployed vault's settings keep. */
  predicate InBounds(c: Config)
  {
    c.Valid() && 0 < c.tolerance <= 2_000 && 0 < c.maxTrade <= 5_000 && c.maxExecutionDeviation <= 1_000
  }

  /** With settings in bounds the admin gets exactly what it asks for when that is in bounds too and the other
      limits pass; else nothing changes. */
  lemma UpdateAnswers(v: Vault, sender: Address, u: Update, wanted: Config)
    requires Inv(v) && u.Valid() && InBounds(v.config) && Requested(u, v.config, wanted)
    ensures Apply(v, UpdateBy(sender, u))
            == if sender == v.config.admin && InBounds(wanted) && u.othersValid then v.(config := wanted) else v
  {
    hide Sum;
  }

  /** Settings that start in bounds stay in bounds over every run. */
  lemma {:induction false} BoundsHold(v: Vault, actions: seq<Action>)
    requires Inv(v) && InBounds(v.config) && forall i :: 0 <= i < |actions| ==> actions[i].Valid()
    ensures InBounds(Run(v, actions).config) && Inv(Run(v, actions))
    decreases |actions|
  {
    if actions != [] {
      StepKeepsInv(v, actions[0]);
      StepKeepsBounds(v, actions[0]);
      hide Inv, InBounds, Apply;
      BoundsHold(Apply(v, actions[0]), actions[1..]);
    }
  }

  lemma StepKeepsBounds(v: Vault, a: Action)
    requires Inv(v) && InBounds(v.config) && a.Valid()
    ensures InBounds(Apply(v, a).config)
  {
    hide Sum, NavShares.DepositShares, NavShares.Payout;
    if a.RebalanceBy? && Rebalance(v, a.market).Ok? {
      RebalanceFollowsPlan(v, a.market);
      hide Rebalance;
    }
  }

  /** So after any run whatever rebalance commits loses at most a twentieth of the holdings' value at the
      captured price, apart from two smallest units of the token bought. */
  lemma RebalanceLosesAtMostATwentieth(v: Vault, actions: seq<Action>, m: Market)
    requires Inv(v) && InBounds(v.config) && forall i :: 0 <= i < |actions| ==> actions[i].Valid()
    requires m.Valid() && Run(v, actions).held.Fits() && Rebalance(Run(v, actions), m).Ok?
    ensures Plan(Run(v, actions), m).Ok?
    ensures var before, after := Run(v, actions), Rebalance(Run(v, actions), m).value;
            var unit := UnitValue(Plan(before, m).value.offer.Other(), m.twap);
            20 * (Value(before.held, m.twap) - Value(after.held, m.twap)) <= Value(before.held, m.twap) + 40 * unit
  {
    BoundsHold(v, actions);
    var before := Run(v, actions);
    RebalanceLossBounded(before, m);
    hide Rebalance, Run, Plan, Value, UnitValue, Inv;
    var after := Rebalance(before, m).value;
    ATwentieth(Value(before.held, m.twap), Value(before.held, m.twap) - Value(after.held, m.twap),
      before.config.maxTrade, before.config.maxExecutionDeviation,
      UnitValue(Plan(before, m).value.offer.Other(), m.twap));
  }

  lemma ATwentieth(value: nat, loss: int, maxTrade: nat, deviation: nat, unit: nat)
    requires loss * BPS * BPS <= value * maxTrade * deviation + 2 * BPS * BPS * unit
    requires maxTrade <= 5_000 && deviation <= 1_000
    ensures 20 * loss <= value + 40 * unit
  {
    MulLe(maxTrade, 5_000, value);
    MulLe(value * maxTrade, value * 5_000, deviation);
    MulLe(deviation, 1_000, value * 5_000);
  }
}
