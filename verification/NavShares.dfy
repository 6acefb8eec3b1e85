/** Share minting against floored net asset value in `grid-vault-swap`, and what a depositor can get
    back out at once. */
module NavShares {
  import opened Arithmetic
  import opened Tokens
  import opened ProRata

  /** Net asset value in token-0 units, with the token-1 side floored at `price`. */
  function FlooredNav(h: Amounts, price: nat): nat
    requires price > 0
  {
    h.t0 + Floor(h.t1 * ONE, price)
  }

  /** Token-0 value credited for a deposit. */
  function CreditedValue(token: Token, amount: nat, price: nat): nat
    requires price > 0
  {
    if token == Token0 then amount else Floor(amount * ONE, price)
  }

  /** Shares for a credited value against prior shares and prior floored value, before width checks. */
  function MintedFor(credited: nat, supply: nat, nav: nat): nat
  {
    if supply == 0 || nav == 0 then credited else Floor(credited * supply, nav)
  }

  /** `deposit_shares`. `balances` already include the deposit, as the CW20 hook runs after the
      transfer. None is any of the contract's arithmetic errors. */
  function DepositShares(amount: nat, token: Token, price: nat, balances: Amounts, supply: nat): (r: Option<nat>)
    requires price > 0
  {
    var credited := CreditedValue(token, amount, price);
    if credited >= TWO_128 then None
    else if supply == 0 then Some(credited)
    else if !balances.Covers(Just(token, amount)) then None
    else
      var prior := balances.Minus(Just(token, amount));
      var token1Value := CheckedRatio(prior.t1, ONE, price);
      if token1Value.None? || prior.t0 + token1Value.value >= TWO_128 then None
      else
        var minted := MintedFor(credited, supply, prior.t0 + token1Value.value);
        if minted >= TWO_128 then None else Some(minted)
  }

  lemma DepositSharesIsMintedFor(amount: nat, token: Token, price: nat, prior: Amounts, supply: nat)
    requires price > 0
    requires DepositShares(amount, token, price, prior.Plus(Just(token, amount)), supply).Some?
    ensures DepositShares(amount, token, price, prior.Plus(Just(token, amount)), supply).value
            == MintedFor(CreditedValue(token, amount, price), supply, FlooredNav(prior, price))
  {
    assert prior.Plus(Just(token, amount)).Minus(Just(token, amount)) == prior;
  }

  /** With shares outstanding the mint is the most that keeps floored value per share from falling. */
  lemma MintIsLargestFair(credited: nat, supply: nat, nav: nat, x: nat)
    requires supply > 0 && nav > 0
    ensures x <= MintedFor(credited, supply, nav) <==> (nav + credited) * supply >= nav * (supply + x)
  {
    FloorIsLargest(credited * supply, nav, x);
    assert (nav + credited) * supply == nav * supply + credited * supply;
    assert nav * (supply + x) == nav * supply + x * nav;
  }

  lemma ValueWithinFlooredNav(h: Amounts, price: nat)
    requires price > 0
    ensures FlooredNav(h, price) * price <= Value(h, price) < (FlooredNav(h, price) + 1) * price
  {
    var f := Floor(h.t1 * ONE, price);
    assert (h.t0 + f) * price == h.t0 * price + f * price;
    assert (h.t0 + f + 1) * price == h.t0 * price + f * price + price;
  }

  lemma NavAfterDeposit(prior: Amounts, token: Token, amount: nat, price: nat)
    requires price > 0
    ensures var after, credited := prior.Plus(Just(token, amount)), CreditedValue(token, amount, price);
            FlooredNav(prior, price) + credited <= FlooredNav(after, price)
            && FlooredNav(after, price) <= FlooredNav(prior, price) + credited + (if token == Token0 then 0 else 1)
  {
    if token == Token1 {
      assert (prior.t1 + amount) * ONE == prior.t1 * ONE + amount * ONE;
      FloorOfSum(prior.t1 * ONE, amount * ONE, price);
    }
  }

  /** Floored value per share never falls on a deposit: V' * S >= V * S'. */
  lemma DepositNeverDilutes(prior: Amounts, token: Token, amount: nat, price: nat, supply: nat)
    requires price > 0 && supply > 0
    ensures var minted := MintedFor(CreditedValue(token, amount, price), supply, FlooredNav(prior, price));
            FlooredNav(prior.Plus(Just(token, amount)), price) * supply
            >= FlooredNav(prior, price) * (supply + minted)
  {
    var nav, credited := FlooredNav(prior, price), CreditedValue(token, amount, price);
    var minted := MintedFor(credited, supply, nav);
    NavAfterDeposit(prior, token, amount, price);
    if nav > 0 {
      assert minted == Floor(credited * supply, nav);
      NavGrowsWithSupply(nav, credited, FlooredNav(prior.Plus(Just(token, amount)), price), supply, minted);
    }
  }

  lemma NavGrowsWithSupply(nav: nat, credited: nat, navAfter: nat, supply: nat, minted: nat)
    requires nav + credited <= navAfter && minted * nav <= credited * supply
    ensures navAfter * supply >= nav * (supply + minted)
  {
    MulLe(nav + credited, navAfter, supply);
    assert (nav + credited) * supply == nav * supply + credited * supply;
    assert nav * (supply + minted) == nav * supply + minted * nav;
  }

  /** What burning `shares` pays in both tokens. */
  function Payout(h: Amounts, shares: nat, supply: nat): Amounts
    requires supply > 0
  {
    Amounts(Claim(h.t0, shares, supply), Claim(h.t1, shares, supply))
  }

  lemma PayoutCovered(h: Amounts, shares: nat, supply: nat)
    requires supply > 0 && shares <= supply
    ensures h.Covers(Payout(h, shares, supply))
    ensures shares == supply ==> Payout(h, shares, supply) == h
  {
    ClaimWithinBalance(h.t0, shares, supply);
    ClaimWithinBalance(h.t1, shares, supply);
  }

  /** Depositing and at once burning the minted shares at the same price returns at most the credited
      value for token 0, and at most one unit more for token 1, whose value was itself rounded down. */
  lemma DepositRoundTrip(prior: Amounts, token: Token, amount: nat, price: nat, supply: nat)
    requires price > 0 && supply > 0
    ensures var credited := CreditedValue(token, amount, price);
            var minted := MintedFor(credited, supply, FlooredNav(prior, price));
            var out := Payout(prior.Plus(Just(token, amount)), minted, supply + minted);
            FlooredNav(out, price) <= credited + (if token == Token0 then 0 else 1)
  {
    var credited, nav := CreditedValue(token, amount, price), FlooredNav(prior, price);
    var minted := MintedFor(credited, supply, nav);
    var after := prior.Plus(Just(token, amount));
    var out := Payout(after, minted, supply + minted);
    NavAfterDeposit(prior, token, amount, price);
    if nav == 0 {
      ClaimWithinBalance(after.t0, minted, supply + minted);
      ClaimWithinBalance(after.t1, minted, supply + minted);
      FloorMonotone(out.t1 * ONE, after.t1 * ONE, price);
    } else {
      var slack := if token == Token0 then 1 else 2;
      PayoutValue(after, minted, supply + minted, price);
      ExactAfterDeposit(prior, token, amount, price);
      ShareOfValue(minted, supply, nav, credited);
      RoundTripCore(FlooredNav(out, price), price, supply + minted, Value(after, price), minted, nav + credited,
        credited, slack);
    }
  }

  lemma PayoutValue(h: Amounts, shares: nat, supply: nat, price: nat)
    requires price > 0 && supply > 0
    ensures FlooredNav(Payout(h, shares, supply), price) * price * supply <= Value(h, price) * shares
  {
    var out := Payout(h, shares, supply);
    ValueWithinFlooredNav(out, price);
    MulLe(FlooredNav(out, price) * price, Value(out, price), supply);
    ClaimValue(h.t0, out.t0, shares, supply, price);
    ClaimValue(h.t1, out.t1, shares, supply, ONE);
    assert Value(out, price) * supply == (out.t0 * price) * supply + (out.t1 * ONE) * supply;
    assert Value(h, price) * shares == (h.t0 * price) * shares + (h.t1 * ONE) * shares;
  }

  lemma ClaimValue(held: nat, out: nat, shares: nat, supply: nat, unit: nat)
    requires out * supply <= held * shares
    ensures (out * unit) * supply <= (held * unit) * shares
  {
    MulLe(out * supply, held * shares, unit);
    MulSwap(out, supply, unit);
    MulSwap(held, shares, unit);
  }

  lemma ExactAfterDeposit(prior: Amounts, token: Token, amount: nat, price: nat)
    requires price > 0
    ensures Value(prior.Plus(Just(token, amount)), price)
            < (FlooredNav(prior, price) + CreditedValue(token, amount, price) + (if token == Token0 then 1 else 2))
              * price
  {
    var nav, credited := FlooredNav(prior, price), CreditedValue(token, amount, price);
    ValueWithinFlooredNav(prior, price);
    assert (nav + credited + 1) * price == (nav + 1) * price + credited * price;
    assert (nav + credited + 2) * price == (nav + 1) * price + (credited * price + price);
    if token == Token0 {
      assert (prior.t0 + amount) * price == prior.t0 * price + amount * price;
    }
  }

  lemma ShareOfValue(minted: nat, supply: nat, nav: nat, credited: nat)
    requires minted * nav <= credited * supply
    ensures minted * (nav + credited) <= credited * (supply + minted)
  {
    assert minted * (nav + credited) == minted * nav + credited * minted;
    assert credited * (supply + minted) == credited * supply + credited * minted;
  }

  lemma RoundTripCore(n: nat, price: nat, total: nat, exact: nat, minted: nat, whole: nat, credited: nat, slack: nat)
    requires price > 0 && 0 <= minted <= total && total > 0 && slack > 0
    requires n * price * total <= exact * minted
    requires exact < (whole + slack) * price
    requires minted * whole <= credited * total
    ensures n < credited + slack
  {
    MulLe(exact, (whole + slack) * price, minted);
    MulSwap(n, price, total);
    MulSwap(whole + slack, price, minted);
    CancelLe(n * total, (whole + slack) * minted, price);
    assert (whole + slack) * minted == minted * whole + slack * minted;
    MulLe(minted, total, slack);
    assert (credited + slack) * total == credited * total + slack * total;
    CancelLe(n, credited + slack, total);
    if n == credited + slack {
      StrictRoundTrip(n, price, total, exact, minted, whole + slack);
    }
  }

  /** The chain above is strict unless nothing was minted, and then nothing comes back. */
  lemma StrictRoundTrip(n: nat, price: nat, total: nat, exact: nat, minted: nat, bound: nat)
    requires price > 0 && total > 0 && n > 0
    requires n * price * total <= exact * minted
    requires exact < bound * price
    ensures n * total < bound * minted
  {
    MulPositive(n, price);
    MulPositive(n * price, total);
    if minted > 0 {
      MulLtInt(exact, bound * price, minted);
      MulSwap(n, price, total);
      MulSwap(bound, price, minted);
      if bound * minted <= n * total {
        MulLe(bound * minted, n * total, price);
      }
    }
  }

  /** Measured exactly instead of floored, value per share survives every token-0 deposit if and only if
      the price divides the token-1 holding's atomics, so that flooring had discarded nothing. */
  lemma ExactNavSurvivesIffNothingFloored(prior: Amounts, price: nat, supply: nat)
    requires price > 0 && supply > 0 && FlooredNav(prior, price) > 0
    ensures (forall amount: nat :: ExactNavSurvives(prior, amount, price, supply)) <==> (prior.t1 * ONE) % price == 0
  {
    var nav, rest := FlooredNav(prior, price), (prior.t1 * ONE) % price;
    ExactIsFlooredPlusRest(prior, price);
    if rest == 0 {
      forall amount: nat ensures ExactNavSurvives(prior, amount, price, supply) {
        ExactWhenDivisible(nav, price, supply, amount);
        ExactGrowsByDeposit(prior, amount, price);
      }
    } else {
      ExactGrowsByDeposit(prior, nav, price);
      DoublingMintsSupply(nav, supply);
      DoublingLosesRest(nav * price, rest, supply);
      assert !ExactNavSurvives(prior, nav, price, supply);
    }
  }

  lemma ExactGrowsByDeposit(prior: Amounts, amount: nat, price: nat)
    ensures Value(prior.Plus(Just(Token0, amount)), price) == Value(prior, price) + amount * price
  {
    assert (prior.t0 + amount) * price == prior.t0 * price + amount * price;
  }

  /** Doubling the pool at the floored value doubles the supply, but not the discarded remainder. */
  lemma DoublingMintsSupply(nav: nat, supply: nat)
    requires nav > 0 && supply > 0
    ensures MintedFor(nav, supply, nav) == supply
  {
    FloorUnique(nav * supply, nav, supply);
  }

  lemma ExactIsFlooredPlusRest(h: Amounts, price: nat)
    requires price > 0
    ensures Value(h, price) == FlooredNav(h, price) * price + (h.t1 * ONE) % price
  {
    var whole := Floor(h.t1 * ONE, price);
    assert h.t1 * ONE == whole * price + (h.t1 * ONE) % price;
    assert (h.t0 + whole) * price == h.t0 * price + whole * price;
  }

  predicate ExactNavSurvives(prior: Amounts, amount: nat, price: nat, supply: nat)
    requires price > 0
  {
    var minted := MintedFor(amount, supply, FlooredNav(prior, price));
    Value(prior.Plus(Just(Token0, amount)), price) * supply >= Value(prior, price) * (supply + minted)
  }

  lemma ExactWhenDivisible(nav: nat, price: nat, supply: nat, amount: nat)
    requires nav > 0
    ensures (nav * price + amount * price) * supply >= (nav * price) * (supply + Floor(amount * supply, nav))
  {
    var minted := Floor(amount * supply, nav);
    MulLe(minted * nav, amount * supply, price);
    MulSwap(nav, price, minted);
    MulSwap(amount, supply, price);
    assert (nav * price + amount * price) * supply == (nav * price) * supply + (amount * price) * supply;
    assert (nav * price) * (supply + minted) == (nav * price) * supply + (nav * price) * minted;
    assert (minted * nav) * price == (nav * minted) * price;
  }

  lemma DoublingLosesRest(whole: nat, rest: nat, supply: nat)
    requires rest > 0 && supply > 0
    ensures (whole + rest + whole) * supply < (whole + rest) * (supply + supply)
  {
    MulPositive(rest, supply);
    assert (whole + rest) * (supply + supply) == (whole + rest + whole) * supply + rest * supply;
  }
}
