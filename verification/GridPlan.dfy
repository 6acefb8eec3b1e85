/** Planning arithmetic of `grid-vault-swap`: the grid cell of a price, the allocation it calls for, and
    the offer that moves the holdings towards it. */
module GridPlan {
  import opened Arithmetic
  import opened Tokens
  import opened Settlement

  const MAX_GRID_COUNT: nat := 500

  /** Grid bounds in price atomics; `Valid` is what instantiation and `update_config` enforce. */
  datatype Grid = Grid(lower: nat, upper: nat, count: nat) {
    predicate Valid() { 0 < lower < upper < TWO_128 && 0 < count <= MAX_GRID_COUNT }

    function Span(): nat
      requires lower <= upper
    {
      upper - lower
    }
  }

  function OrZero(r: Option<nat>): nat { if r.Some? then r.value else 0 }

  /** `grid_cell`: a decimal step, a decimal quotient by it, floored and capped. */
  function GridCell(price: nat, g: Grid): nat
  {
    if price <= g.lower then 0
    else if price >= g.upper then g.count
    else
      var step := OrZero(CheckedRatio(g.upper - g.lower, ONE, g.count * ONE));
      if step == 0 then 0
      else
        var cell := OrZero(CheckedRatio(price - g.lower, ONE, step));
        Min(Floor(cell, ONE), g.count)
  }

  /** The cell the README describes: floor(offset * count / span). */
  function IdealCell(price: nat, g: Grid): nat
    requires g.lower <= price && g.lower < g.upper
  {
    Floor((price - g.lower) * g.count, g.Span())
  }

  /** Strictly inside the grid neither `unwrap_or(zero)` fallback is taken, and the fixed-point
      computation is a plain pair of integer quotients. */
  lemma CellWithoutFallback(price: nat, g: Grid)
    requires g.Valid() && g.lower < price < g.upper
    ensures var step := Floor(g.Span(), g.count);
            CheckedRatio(g.Span(), ONE, g.count * ONE) == Some(step)
            && (step > 0 ==> CheckedRatio(price - g.lower, ONE, step).Some?)
            && GridCell(price, g) == if step == 0 then 0 else Min(Floor(price - g.lower, step), g.count)
  {
    var span, offset, step := g.Span(), price - g.lower, Floor(g.Span(), g.count);
    FloorOfScaled(span, g.count, ONE);
    MulLe(1, g.count, step);
    if step > 0 {
      OffsetFewerThanTwoCounts(offset, span, g.count);
      assert (2 * g.count) * ONE * step == (2 * g.count * step) * ONE;
      FloorIsLargest(offset * ONE, step, (2 * g.count) * ONE + 1);
      assert ((2 * g.count) * ONE + 1) * step == (2 * g.count) * ONE * step + step;
      FloorOfFloor(offset * ONE, step, ONE);
      FloorOfScaled(offset, step, ONE);
    }
  }

  lemma OffsetFewerThanTwoCounts(offset: nat, span: nat, count: nat)
    requires offset < span && count > 0 && Floor(span, count) > 0
    ensures offset < 2 * count * Floor(span, count)
  {
    var step := Floor(span, count);
    MulLe(1, step, count);
    assert 2 * count * step == step * count + step * count;
  }

  lemma CellWithinGrid(price: nat, g: Grid)
    ensures GridCell(price, g) <= g.count
  {
  }

  lemma CellMonotone(p: nat, q: nat, g: Grid)
    requires g.Valid() && p <= q
    ensures GridCell(p, g) <= GridCell(q, g)
  {
    if g.lower < p && q < g.upper {
      CellWithoutFallback(p, g);
      CellWithoutFallback(q, g);
      var step := Floor(g.Span(), g.count);
      if step > 0 {
        FloorMonotone(p - g.lower, q - g.lower, step);
      }
    }
  }

  /** Rounding the step down can only raise the quotient, by less than one when the span is at least
      count^2 atomics: the cell is the ideal one or the next (capped). */
  lemma CellNearIdeal(price: nat, g: Grid)
    requires g.Valid() && g.lower <= price <= g.upper
    requires g.Span() >= g.count * g.count
    ensures IdealCell(price, g) <= GridCell(price, g) <= Min(IdealCell(price, g) + 1, g.count)
  {
    var span, offset := g.Span(), price - g.lower;
    IdealWithinGrid(offset, span, g.count);
    if g.lower < price < g.upper {
      CellWithoutFallback(price, g);
      FloorIsLargest(span, g.count, g.count);
      QuotientByFlooredStep(offset, span, g.count);
    }
  }

  lemma IdealWithinGrid(offset: nat, span: nat, count: nat)
    requires offset <= span && span > 0
    ensures Floor(offset * count, span) <= count
    ensures offset == 0 ==> Floor(offset * count, span) == 0
    ensures offset == span ==> Floor(offset * count, span) == count
  {
    MulLe(offset, span, count);
    assert count * span == span * count;
    FloorOfMultiple(count, span);
    FloorMonotone(offset * count, span * count, span);
    FloorOfMultiple(0, span);
  }

  lemma QuotientByFlooredStep(offset: nat, span: nat, count: nat)
    requires offset < span && count > 0 && Floor(span, count) >= count
    ensures Floor(offset * count, span) <= Floor(offset, Floor(span, count)) <= Floor(offset * count, span) + 1
  {
    var step := Floor(span, count);
    var cell, ideal := Floor(offset, step), Floor(offset * count, span);
    IdealStepsFit(ideal, step, count, offset, span);
    FloorIsLargest(offset, step, ideal);
    if cell > 0 {
      OneStepSlack(cell, step, count, offset, span);
      FloorIsLargest(offset * count, span, cell - 1);
    }
  }

  lemma IdealStepsFit(ideal: nat, step: nat, count: nat, offset: nat, span: nat)
    requires count > 0 && step * count <= span && ideal * span <= offset * count
    ensures ideal * step <= offset
  {
    MulLe(step * count, span, ideal);
    assert ideal * (step * count) == (ideal * step) * count;
    CancelLe(ideal * step, offset, count);
  }

  lemma OneStepSlack(cell: nat, step: nat, count: nat, offset: nat, span: nat)
    requires 0 < cell && 0 < count <= step && cell * step <= offset < span < step * count + count
    requires span >= step * count
    ensures (cell - 1) * span <= offset * count
  {
    // cell * step <= offset < (step + 1) * count keeps the excess cell * (span - step * count) below span.
    var excess := span - step * count;
    MulLe(cell * step, offset, count);
    assert (cell * step) * count == cell * (step * count);
    assert cell * span == cell * (step * count) + cell * excess;
    assert cell * excess <= span by {
      MulLe(excess, count, cell);
      MulLe(count, step, cell);
    }
    assert (cell - 1) * span == cell * span - span;
  }

  /** The cell equals the ideal one at every price of the grid exactly when the cell count divides the
      span (or the grid has no price strictly inside it). */
  lemma CellIdealIffCountDividesSpan(g: Grid)
    requires g.Valid()
    ensures (forall price :: g.lower <= price <= g.upper ==> GridCell(price, g) == IdealCell(price, g))
            <==> (g.Span() % g.count == 0 || g.Span() == 1)
  {
    if g.Span() % g.count == 0 || g.Span() == 1 {
      forall price | g.lower <= price <= g.upper
        ensures GridCell(price, g) == IdealCell(price, g)
      {
        CellIdealWhenDivisible(price, g);
      }
    } else {
      var price := CellNotIdealSomewhere(g);
    }
  }

  lemma CellIdealWhenDivisible(price: nat, g: Grid)
    requires g.Valid() && g.lower <= price <= g.upper
    requires g.Span() % g.count == 0 || g.Span() == 1
    ensures GridCell(price, g) == IdealCell(price, g)
  {
    var span, offset := g.Span(), price - g.lower;
    if g.lower < price < g.upper {
      CellWithoutFallback(price, g);
      DivisibleSpan(offset, span, g.count);
    } else {
      IdealWithinGrid(offset, span, g.count);
    }
  }

  lemma DivisibleSpan(offset: nat, span: nat, count: nat)
    requires offset < span && count > 0 && span % count == 0
    ensures var step := Floor(span, count);
            step > 0 && Floor(offset, step) == Floor(offset * count, span) <= count
  {
    var step := Floor(span, count);
    assert span == step * count;
    assert step > 0;
    FloorOfScaled(offset, step, count);
    assert count * step == step * count;
    FloorIsLargest(offset, step, count + 1);
    assert (count + 1) * step == step * count + step;
  }

  lemma CellNotIdealSomewhere(g: Grid) returns (price: nat)
    requires g.Valid() && g.Span() % g.count != 0 && g.Span() != 1
    ensures g.lower <= price <= g.upper && GridCell(price, g) != IdealCell(price, g)
  {
    var step := Floor(g.Span(), g.count);
    StepOfIndivisibleSpan(g.Span(), g.count);
    // Fewer atomics than cells: every inner price falls back to cell 0, the ideal does not.
    // Otherwise one rounded-down step above the lower bound already counts as cell 1.
    price := if step == 0 then g.upper - 1 else g.lower + step;
    CellWithoutFallback(price, g);
  }

  lemma StepOfIndivisibleSpan(span: nat, count: nat)
    requires span > 1 && count > 0 && span % count != 0
    ensures var step := Floor(span, count);
            if step == 0 then Floor((span - 1) * count, span) >= 1
            else step < span && Floor(step, step) == 1 && Floor(step * count, span) == 0
  {
    var step := Floor(span, count);
    if step == 0 {
      MulLe(span, count, span - 1);
      MulLe(1, span - 1, span);
      FloorIsLargest((span - 1) * count, span, 1);
    } else {
      FloorOfMultiple(1, step);
      assert step * count < span;
      FloorUnique(step * count, span, 0);
      MulLe(1, count, step);
    }
  }

  /** Weight of token 1 at a cell: `Decimal::from_ratio(cell, count)` in atomics. */
  function Weight(cell: nat, count: nat): nat
    requires count > 0
  {
    Floor(cell * ONE, count)
  }

  lemma WeightAtMostOne(cell: nat, count: nat)
    requires count > 0 && cell <= count
    ensures Weight(cell, count) <= ONE
  {
    MulLe(cell, count, ONE);
    FloorMonotone(cell * ONE, count * ONE, count);
    assert count * ONE == ONE * count;
    FloorOfMultiple(ONE, count);
  }

  /** Value token 1 should hold at the cell, or None when the 256-bit products overflow. */
  function TargetValue(h: Amounts, price: nat, cell: nat, count: nat): Option<nat>
    requires count > 0
  {
    var total := Value(h, price);
    var weighted := total * Weight(cell, count);
    if total >= TWO_256 || weighted >= TWO_256 then None else Some(Floor(weighted, ONE))
  }

  function AllocationDeviation(h: Amounts, price: nat, g: Grid): Option<nat>
    requires g.count > 0
  {
    if h == Nothing() then Some(0)
    else
      var target := TargetValue(h, price, GridCell(price, g), g.count);
      if target.None? then None
      else if target.value == 0 then Some(if h.t1 == 0 then 0 else BPS)
      else Some(RatioDeviation(h.t1 * ONE, target.value))
  }

  /** `planned_offer`. None is the contract's error; Some(None) is "nothing worth trading". */
  function PlannedOffer(h: Amounts, price: nat, cell: nat, count: nat, maxTrade: nat): Option<Option<Offer>>
    requires price > 0 && count > 0
  {
    var target := TargetValue(h, price, cell, count);
    if target.None? then None
    else
      var held := h.t1 * ONE;
      if held == target.value then Some(None)
      else
        var token := if held > target.value then Token1 else Token0;
        var uncapped := if held > target.value then Floor(held - target.value, ONE)
                        else Floor(target.value - held, price);
        var cap := Floor(h.Get(token) * maxTrade, BPS);
        if uncapped >= TWO_128 then None
        else
          var amount := Min(uncapped, cap);
          Some(if amount == 0 then None else Some(Offer(token, amount)))
  }

  /** Selling `n` of a token at the price itself, without spread, stays on its side of the target. */
  predicate StaysOnSide(h: Amounts, price: nat, target: nat, token: Token, n: nat)
  {
    if token == Token1 then h.t1 * ONE >= target + n * ONE else h.t1 * ONE + n * price <= target
  }

  /** The planned offer never fails to convert (the only error is the 256-bit overflow of the target),
      fits the trade cap, and is the largest offer within the cap that an ideal execution would not
      carry past the target. No offer means no unit can be moved without crossing or over the cap. */
  lemma PlannedOfferIsAimed(h: Amounts, price: nat, cell: nat, count: nat, maxTrade: nat)
    requires h.Fits() && 0 < price < TWO_128 && count > 0 && cell <= count && maxTrade <= BPS
    ensures var plan := PlannedOffer(h, price, cell, count, maxTrade);
            var target := TargetValue(h, price, cell, count);
            (plan.None? <==> target.None?)
            && (plan.Some? && plan.value.Some? ==>
                  var Offer(token, amount) := plan.value.value;
                  var cap := Floor(h.Get(token) * maxTrade, BPS);
                  0 < amount <= cap <= h.Get(token)
                  && StaysOnSide(h, price, target.value, token, amount)
                  && (amount < cap ==> !StaysOnSide(h, price, target.value, token, amount + 1)))
            && (plan.Some? && plan.value.None? ==>
                  forall token :: StaysOnSide(h, price, target.value, token, 1)
                    ==> Floor(h.Get(token) * maxTrade, BPS) == 0)
  {
    var target := TargetValue(h, price, cell, count);
    if target.Some? {
      var held := h.t1 * ONE;
      TargetWithinValue(h, price, cell, count);
      CapWithinHolding(h.t0, maxTrade);
      CapWithinHolding(h.t1, maxTrade);
      if held > target.value {
        LargestFit(held - target.value, ONE);
        PartWithinWhole(held - target.value, h.t1, ONE);
        FewerStillFit(held - target.value, ONE, Floor(h.t1 * maxTrade, BPS));
      } else if held < target.value {
        LargestFit(target.value - held, price);
        PartWithinWhole(target.value - held, h.t0, price);
        FewerStillFit(target.value - held, price, Floor(h.t0 * maxTrade, BPS));
      }
    }
  }

  lemma TargetWithinValue(h: Amounts, price: nat, cell: nat, count: nat)
    requires count > 0 && cell <= count && TargetValue(h, price, cell, count).Some?
    ensures TargetValue(h, price, cell, count).value <= Value(h, price)
  {
    WeightAtMostOne(cell, count);
    var total := Value(h, price);
    MulLe(Weight(cell, count), ONE, total);
    FloorMonotone(total * Weight(cell, count), total * ONE, ONE);
    FloorOfMultiple(total, ONE);
  }

  lemma LargestFit(distance: nat, unit: nat)
    requires unit > 0
    ensures Floor(distance, unit) * unit <= distance
    ensures (Floor(distance, unit) + 1) * unit > distance
  {
    assert (Floor(distance, unit) + 1) * unit == Floor(distance, unit) * unit + unit;
  }

  lemma FewerStillFit(distance: nat, unit: nat, cap: nat)
    requires unit > 0
    ensures Min(Floor(distance, unit), cap) * unit <= distance
  {
    MulLe(Min(Floor(distance, unit), cap), Floor(distance, unit), unit);
  }
}
