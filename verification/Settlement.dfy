/** The settlement half of a two-phase rebalance, identical in `grid-vault-swap` and `bot-vault`:
    the execution floor, `validate_settlement`, `validate_rebalance_outcome` and `ratio_deviation`. */
module Settlement {
  import opened Arithmetic
  import opened Tokens

  /** `PendingSwap` and `PendingRebalance`. */
  datatype Pending = Pending(
    twap: nat, balances: Amounts, preDeviation: nat, offer: Token, amount: nat, minReturn: nat)

  /** What `planned_offer` proposes to sell. */
  datatype Offer = Offer(token: Token, amount: nat)

  /** What the chain contributes to a rebalance: the TWAP, the pool quote and safety verdict, the vault's
      balances when the swap has returned, the resolved fee, and whether the deadline is still ahead and
      the pair still runs the recorded code. */
  datatype Market = Market(
    twap: nat, quoteFloor: nat, poolSafe: bool, settled: Amounts, feeBps: nat, inTime: bool, pairKnown: bool)
  {
    predicate Valid() { 0 < twap < TWO_128 && feeBps <= BPS }
  }

  /** What the offered amount is worth in the other token at the captured price, rounded down. */
  function ExpectedReturn(amount: nat, offer: Token, price: nat): Option<nat>
  {
    if offer == Token0 then CheckedRatio(amount, price, ONE) else CheckedRatio(amount, ONE, price)
  }

  /** The plan's least acceptable return: the execution floor at the captured price, raised by the
      pool quote's own floor if that is higher. */
  function MinReturn(expected: nat, maxExecutionDeviation: nat, quoteFloor: nat): nat
    requires maxExecutionDeviation <= BPS
  {
    Max(Floor(expected * (BPS - maxExecutionDeviation), BPS), quoteFloor)
  }

  datatype SettlementError = Overflow | NotImproved

  /** Accepts exactly the balances that spent the planned amount and received at least the minimum. */
  function ValidateSettlement(p: Pending, settled: Amounts): (r: Result<(), SettlementError>)
    ensures r.Ok? <==> (
        p.amount <= p.balances.Get(p.offer)
        && p.balances.Get(p.offer.Other()) + p.minReturn < TWO_128
        && settled.Get(p.offer) + p.amount == p.balances.Get(p.offer)
        && settled.Get(p.offer.Other()) >= p.balances.Get(p.offer.Other()) + p.minReturn)
  {
    var ask := p.offer.Other();
    if p.amount > p.balances.Get(p.offer) then Err(Overflow)
    else if p.balances.Get(ask) + p.minReturn >= TWO_128 then Err(Overflow)
    else if settled.Get(p.offer) != p.balances.Get(p.offer) - p.amount
         || settled.Get(ask) < p.balances.Get(ask) + p.minReturn then Err(NotImproved)
    else Ok(())
  }

  /** Whether the allocation ended within tolerance; an outcome outside it must have improved. */
  function ValidateOutcome(previous: nat, current: nat, tolerance: nat): Result<bool, SettlementError>
  {
    if current >= previous && current > tolerance then Err(NotImproved)
    else Ok(current <= tolerance)
  }

  /** Relative distance in basis points, capped at one whole. `expected` is positive in every caller
      that does not treat zero itself. */
  function RatioDeviation(actual: nat, expected: nat): (bps: nat)
    requires expected > 0
    ensures bps <= BPS
  {
    var difference := if actual >= expected then actual - expected else expected - actual;
    if difference >= expected then BPS else Min(Floor(difference * BPS, expected), BPS)
  }

  /** A smaller numerator against a larger reference is a smaller ratio: d'/e' <= d/e. */
  lemma FloorOfSmallerRatio(d: nat, e: nat, d': nat, e': nat)
    requires e > 0 && e' > 0 && d' * e <= d * e'
    ensures Floor(d' * BPS, e') <= Floor(d * BPS, e)
  {
    var q := Floor(d' * BPS, e');
    MulLe(q * e', d' * BPS, e);
    assert (q * e') * e == (q * e) * e';
    assert (d' * BPS) * e == (d' * e) * BPS;
    assert (d * BPS) * e' == (d * e') * BPS;
    CancelLe(q * e, d * BPS, e');
    FloorIsLargest(d * BPS, e, q);
  }

  /** Shortfall against the exact price of an amount whose floored value lost up to `deviation` basis
      points: the tolerated part plus two units for the two roundings. */
  lemma ShortfallBound(exact: nat, unit: nat, received: nat, deviation: nat)
    requires unit > 0 && deviation <= BPS
    requires received >= Floor(Floor(exact, unit) * (BPS - deviation), BPS)
    ensures (exact - received * unit) * BPS <= exact * deviation + 2 * BPS * unit
  {
    var whole := Floor(exact, unit);
    var keep := BPS - deviation;
    var least := Floor(whole * keep, BPS);
    MulLe(least, received, unit);
    MulLe(exact, whole * unit + unit, keep);
    MulLe(whole * keep, least * BPS + BPS, unit);
    assert (whole * unit + unit) * keep == (whole * keep) * unit + unit * keep;
    assert (least * BPS + BPS) * unit == (least * unit) * BPS + BPS * unit;
    assert exact * keep == exact * BPS - exact * deviation;
    MulLe(keep, BPS, unit);
  }

  /** A trade cap in basis points never exceeds the holding it caps. */
  lemma CapWithinHolding(held: nat, maxTrade: nat)
    requires maxTrade <= BPS
    ensures Floor(held * maxTrade, BPS) <= held
  {
    MulLe(maxTrade, BPS, held);
    FloorMonotone(held * maxTrade, held * BPS, BPS);
    FloorOfMultiple(held, BPS);
  }

  /** A value distance within a holding's value is at most the holding, in whole units. */
  lemma PartWithinWhole(distance: nat, held: nat, unit: nat)
    requires unit > 0 && distance <= held * unit
    ensures Floor(distance, unit) <= held
  {
    FloorMonotone(distance, held * unit, unit);
    FloorOfMultiple(held, unit);
  }

  /** Bounded loss: any settlement accepted against the plan's execution floor keeps the portfolio's
      value, at the captured price, within the tolerated fraction of the offered value plus two
      smallest units of the received token. */
  lemma BoundedLoss(p: Pending, settled: Amounts, maxExecutionDeviation: nat, quoteFloor: nat)
    requires p.twap > 0 && maxExecutionDeviation <= BPS
    requires ExpectedReturn(p.amount, p.offer, p.twap).Some?
    requires p.minReturn
             == MinReturn(ExpectedReturn(p.amount, p.offer, p.twap).value, maxExecutionDeviation, quoteFloor)
    requires ValidateSettlement(p, settled).Ok?
    ensures (Value(p.balances, p.twap) - Value(settled, p.twap)) * BPS
            <= ValueOf(p.offer, p.amount, p.twap) * maxExecutionDeviation + 2 * BPS * UnitValue(p.offer.Other(), p.twap)
  {
    var ask := p.offer.Other();
    var received := settled.Get(ask) - p.balances.Get(ask);
    ShortfallBound(ValueOf(p.offer, p.amount, p.twap), UnitValue(ask, p.twap), received, maxExecutionDeviation);
    ValueOfTrade(p.balances, settled, p.offer, p.amount, received, p.twap);
  }

  /** Giving `amount` of one token and getting `received` of the other changes the value by the
      difference of the two amounts' values. */
  lemma ValueOfTrade(before: Amounts, after: Amounts, offer: Token, amount: nat, received: nat, price: nat)
    requires after.Get(offer) + amount == before.Get(offer)
    requires after.Get(offer.Other()) == before.Get(offer.Other()) + received
    ensures Value(before, price) - Value(after, price)
            == ValueOf(offer, amount, price) - received * UnitValue(offer.Other(), price)
  {
    if offer == Token0 {
      assert (after.t0 + amount) * price == after.t0 * price + amount * price;
    } else {
      assert (before.t0 + received) * price == before.t0 * price + received * price;
    }
  }

  /** With the offer capped at `maxTrade` basis points of the holding, the loss is at most the product
      of both limits on the whole portfolio, plus the same two units. */
  lemma BoundedLossOfPortfolio(p: Pending, settled: Amounts, maxTrade: nat, maxExecutionDeviation: nat, quoteFloor: nat)
    requires p.twap > 0 && maxExecutionDeviation <= BPS
    requires p.amount <= Floor(p.balances.Get(p.offer) * maxTrade, BPS)
    requires ExpectedReturn(p.amount, p.offer, p.twap).Some?
    requires p.minReturn
             == MinReturn(ExpectedReturn(p.amount, p.offer, p.twap).value, maxExecutionDeviation, quoteFloor)
    requires ValidateSettlement(p, settled).Ok?
    ensures (Value(p.balances, p.twap) - Value(settled, p.twap)) * BPS * BPS
            <= Value(p.balances, p.twap) * maxTrade * maxExecutionDeviation
               + 2 * BPS * BPS * UnitValue(p.offer.Other(), p.twap)
  {
    BoundedLoss(p, settled, maxExecutionDeviation, quoteFloor);
    var offered := ValueOf(p.offer, p.amount, p.twap);
    var whole := Value(p.balances, p.twap) * maxTrade;
    CappedValue(p.amount, p.balances.Get(p.offer), UnitValue(p.offer, p.twap), Value(p.balances, p.twap), maxTrade);
    CompoundLoss(Value(p.balances, p.twap) - Value(settled, p.twap), offered, whole, maxExecutionDeviation,
                 UnitValue(p.offer.Other(), p.twap));
  }

  lemma CompoundLoss(loss: int, offered: nat, whole: nat, deviation: nat, unit: nat)
    requires loss * BPS <= offered * deviation + 2 * BPS * unit
    requires offered * BPS <= whole
    ensures loss * BPS * BPS <= whole * deviation + 2 * BPS * BPS * unit
  {
    MulLe(offered * BPS, whole, deviation);
    assert (offered * deviation) * BPS == (offered * BPS) * deviation;
  }

  /** An offer within the trade cap is worth at most that fraction of the portfolio. */
  lemma CappedValue(amount: nat, held: nat, unit: nat, portfolio: nat, maxTrade: nat)
    requires amount <= Floor(held * maxTrade, BPS) && held * unit <= portfolio
    ensures (amount * unit) * BPS <= portfolio * maxTrade
  {
    MulLe(amount * BPS, held * maxTrade, unit);
    assert (amount * BPS) * unit == (amount * unit) * BPS;
    assert (held * maxTrade) * unit == (held * unit) * maxTrade;
    MulLe(held * unit, portfolio, maxTrade);
  }
}
