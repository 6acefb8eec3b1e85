/** Planning arithmetic of `bot-vault`: the two holdings are steered towards equal value. */
module ParityPlan {
  import opened Arithmetic
  import opened Tokens
  import opened Settlement

  function AllocationDeviation(h: Amounts, price: nat): nat
    requires price > 0
  {
    if h == Nothing() then 0
    else if h.t0 == 0 || h.t1 == 0 then BPS
    else (MulPositive(price, h.t0); RatioDeviation(h.t1 * ONE, price * h.t0))
  }

  /** `planned_offer`: half the value difference, in whole units of the heavier token, capped. None is
      the contract's conversion error; Some(None) is "nothing worth trading". */
  function PlannedOffer(h: Amounts, price: nat, maxTrade: nat): Option<Option<Offer>>
    requires price > 0
  {
    var value0, value1 := h.t0 * price, h.t1 * ONE;
    if value0 == value1 then Some(None)
    else
      var token := if value1 > value0 then Token1 else Token0;
      var uncapped := if value1 > value0 then Floor(Floor(value1 - value0, ONE), 2)
                      else Floor(Floor(value0 - value1, price), 2);
      var cap := Floor(h.Get(token) * maxTrade, BPS);
      if uncapped >= TWO_128 then None
      else
        var amount := Min(uncapped, cap);
        Some(if amount == 0 then None else Some(Offer(token, amount)))
  }

  /** Selling `n` of a token at the price itself leaves it the heavier side, or level. */
  predicate StaysHeavier(h: Amounts, price: nat, token: Token, n: nat)
  {
    if token == Token1 then h.t1 * ONE - n * ONE >= h.t0 * price + n * ONE
    else h.t0 * price - n * price >= h.t1 * ONE + n * price
  }

  /** The offer never fails to convert, fits the cap, and is the largest within the cap that an ideal
      execution would not carry past equal value. */
  lemma PlannedOfferIsAimed(h: Amounts, price: nat, maxTrade: nat)
    requires h.Fits() && price > 0 && maxTrade <= BPS
    ensures var plan := PlannedOffer(h, price, maxTrade);
            plan.Some?
            && (plan.value.Some? ==>
                  var Offer(token, amount) := plan.value.value;
                  var cap := Floor(h.Get(token) * maxTrade, BPS);
                  0 < amount <= cap <= h.Get(token)
                  && StaysHeavier(h, price, token, amount)
                  && (amount < cap ==> !StaysHeavier(h, price, token, amount + 1)))
            && (plan.value.None? ==>
                  forall token :: StaysHeavier(h, price, token, 1) ==> Floor(h.Get(token) * maxTrade, BPS) == 0)
  {
    OfferFits(h, price, maxTrade);
    if PlannedOffer(h, price, maxTrade).value.None? {
      NoOfferFits(h, price, maxTrade);
    }
    hide PlannedOffer, StaysHeavier;
  }

  lemma OfferFits(h: Amounts, price: nat, maxTrade: nat)
    requires h.Fits() && price > 0 && maxTrade <= BPS
    ensures var plan := PlannedOffer(h, price, maxTrade);
            plan.Some?
            && (plan.value.Some? ==>
                  var Offer(token, amount) := plan.value.value;
                  var cap := Floor(h.Get(token) * maxTrade, BPS);
                  0 < amount <= cap <= h.Get(token)
                  && StaysHeavier(h, price, token, amount)
                  && (amount < cap ==> !StaysHeavier(h, price, token, amount + 1)))
  {
    CapWithinHolding(h.t0, maxTrade);
    CapWithinHolding(h.t1, maxTrade);
    var value0, value1 := h.t0 * price, h.t1 * ONE;
    if value1 > value0 {
      HalfFits(value1 - value0, ONE, Floor(h.t1 * maxTrade, BPS));
      PartWithinWhole(value1 - value0, h.t1, ONE);
    } else if value0 > value1 {
      HalfFits(value0 - value1, price, Floor(h.t0 * maxTrade, BPS));
      PartWithinWhole(value0 - value1, h.t0, price);
    }
  }

  lemma NoOfferFits(h: Amounts, price: nat, maxTrade: nat)
    requires h.Fits() && price > 0 && maxTrade <= BPS && PlannedOffer(h, price, maxTrade) == Some(None)
    ensures forall token :: StaysHeavier(h, price, token, 1) ==> Floor(h.Get(token) * maxTrade, BPS) == 0
  {
    var value0, value1 := h.t0 * price, h.t1 * ONE;
    if value1 > value0 {
      HalfFits(value1 - value0, ONE, Floor(h.t1 * maxTrade, BPS));
    } else if value0 > value1 {
      HalfFits(value0 - value1, price, Floor(h.t0 * maxTrade, BPS));
    }
  }

  lemma HalfFits(difference: nat, unit: nat, cap: nat)
    requires unit > 0
    ensures var half := Floor(Floor(difference, unit), 2);
            half <= Floor(difference, unit)
            && 2 * (Min(half, cap) * unit) <= difference
            && 2 * ((half + 1) * unit) > difference
  {
    var whole := Floor(difference, unit);
    var half := Floor(whole, 2);
    Doubled(Min(half, cap), whole, unit);
    MoreThanHalf(half + 1, whole, unit);
  }

  lemma Doubled(n: nat, whole: nat, unit: nat)
    requires 2 * n <= whole
    ensures 2 * (n * unit) <= whole * unit
  {
    MulLe(n + n, whole, unit);
    assert (n + n) * unit == n * unit + n * unit;
  }

  lemma MoreThanHalf(n: nat, whole: nat, unit: nat)
    requires whole + 1 <= 2 * n
    ensures whole * unit + unit <= 2 * (n * unit)
  {
    MulLe(whole + 1, n + n, unit);
    assert (n + n) * unit == n * unit + n * unit;
    assert (whole + 1) * unit == whole * unit + unit;
  }

  /** Holdings after selling `amount` for exactly its floored value at the price. */
  function IdealFill(h: Amounts, price: nat, offer: Offer): (after: Amounts)
    requires price > 0 && offer.amount <= h.Get(offer.token)
  {
    if offer.token == Token1 then Amounts(h.t0 + Floor(offer.amount * ONE, price), h.t1 - offer.amount)
    else Amounts(h.t0 - offer.amount, h.t1 + Floor(offer.amount * price, ONE))
  }

  /** Executing the plan at the price itself never raises the allocation deviation. */
  lemma IdealFillNeverWorsens(h: Amounts, price: nat, maxTrade: nat)
    requires h.Fits() && price > 0 && maxTrade <= BPS
    requires PlannedOffer(h, price, maxTrade).Some? && PlannedOffer(h, price, maxTrade).value.Some?
    ensures var offer := PlannedOffer(h, price, maxTrade).value.value;
            offer.amount <= h.Get(offer.token)
            && AllocationDeviation(IdealFill(h, price, offer), price) <= AllocationDeviation(h, price)
  {
    PlannedOfferIsAimed(h, price, maxTrade);
    HeavierSideFillNeverWorsens(h, price, PlannedOffer(h, price, maxTrade).value.value);
  }

  lemma HeavierSideFillNeverWorsens(h: Amounts, price: nat, offer: Offer)
    requires price > 0 && offer.amount <= h.Get(offer.token) && StaysHeavier(h, price, offer.token, offer.amount)
    ensures AllocationDeviation(IdealFill(h, price, offer), price) <= AllocationDeviation(h, price)
  {
    if h.t0 > 0 && h.t1 > 0 {
      FillApproaches(h, price, offer);
      var after := IdealFill(h, price, offer);
      MulPositive(h.t0, price);
      MulPositive(after.t0, price);
      DeviationShrinks(h.t1 * ONE, h.t0 * price, after.t1 * ONE, after.t0 * price);
      assert price * h.t0 == h.t0 * price && price * after.t0 == after.t0 * price;
    } else if h == Nothing() {
      FloorUnique(0, price, 0);
      FloorUnique(0, ONE, 0);
    }
  }

  /** An ideal fill that stays on its side moves the two values towards each other. */
  lemma FillApproaches(h: Amounts, price: nat, offer: Offer)
    requires price > 0 && offer.amount <= h.Get(offer.token) && h.t0 > 0 && h.t1 > 0
    requires StaysHeavier(h, price, offer.token, offer.amount)
    ensures var after := IdealFill(h, price, offer);
            after.t0 > 0
            && if offer.token == Token1 then h.t1 * ONE >= after.t1 * ONE >= after.t0 * price >= h.t0 * price
               else h.t1 * ONE <= after.t1 * ONE <= after.t0 * price <= h.t0 * price
  {
    var n, after := offer.amount, IdealFill(h, price, offer);
    if offer.token == Token1 {
      var got := Floor(n * ONE, price);
      assert (h.t0 + got) * price == h.t0 * price + got * price;
    } else {
      assert (h.t0 - n) * price == h.t0 * price - n * price;
      assert after.t0 > 0 by {
        MulPositive(h.t0, price);
      }
    }
  }

  /** Moving both sides towards each other without passing shrinks the relative distance. */
  lemma DeviationShrinks(actual: nat, expected: nat, actual': nat, expected': nat)
    requires expected > 0 && expected' > 0
    requires (actual >= actual' >= expected' >= expected) || (actual <= actual' <= expected' <= expected)
    ensures RatioDeviation(actual', expected') <= RatioDeviation(actual, expected)
  {
    if actual >= expected {
      var d, d' := actual - expected, actual' - expected';
      MulLe(d', d, expected);
      MulLe(expected, expected', d);
      FloorOfSmallerRatio(d, expected, d', expected');
    } else {
      var d, d' := expected - actual, expected' - actual';
      // d'/e' = 1 - a'/e' and d/e = 1 - a/e, with a' at least a and e' at most e.
      MulLe(actual, actual', expected');
      MulLe(expected', expected, actual');
      assert d' * expected == expected' * expected - actual' * expected;
      assert d * expected' == expected * expected' - actual * expected';
      FloorOfSmallerRatio(d, expected, d', expected');
    }
  }
}
