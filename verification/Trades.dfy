/** What one rebalance trade is, in amounts and exact values: the vocabulary in which the market vault's and
    the bot vault's rebalances are characterised without their own planning and settling functions. */
module Trades {
  import opened Arithmetic
  import opened Tokens
  import opened Settlement
  import NavShares
  import FeeMint

  // ---- Values in whole units ----

  /** `n` is what `value` comes to in whole units worth `unit` each. */
  predicate Whole(value: nat, unit: nat, n: nat) { n * unit <= value < (n + 1) * unit }

  lemma WholeIs(value: nat, unit: nat, n: nat)
    requires unit > 0
    ensures Whole(value, unit, n) <==> Floor(value, unit) == n
  {
    assert (n + 1) * unit == n * unit + unit;
    if Whole(value, unit, n) {
      FloorUnique(value, unit, n);
    }
  }

  lemma NavIsWhole(h: Amounts, price: nat, n: nat)
    requires price > 0
    ensures Whole(Value(h, price), price, n) <==> NavShares.FlooredNav(h, price) == n
  {
    NavShares.ValueWithinFlooredNav(h, price);
    WholeIs(Value(h, price), price, n);
    WholeIs(Value(h, price), price, NavShares.FlooredNav(h, price));
  }

  lemma CreditIsWhole(token: Token, amount: nat, price: nat, n: nat)
    requires price > 0
    ensures Whole(ValueOf(token, amount, price), price, n) <==> NavShares.CreditedValue(token, amount, price) == n
  {
    WholeIs(ValueOf(token, amount, price), price, n);
    if token == Token0 {
      FloorOfMultiple(amount, price);
    }
  }

  /** A fee in basis points, rounded down. */
  function FeeOn(worth: nat, feeBps: nat): nat { Floor(worth * feeBps, BPS) }

  // ---- Distances in basis points ----

  function Distance(a: nat, b: nat): nat { if a >= b then a - b else b - a }

  /** Two values lie at least `bps` basis points of the second apart; a whole is as far as it goes, and any
      distance from nothing is a whole. */
  predicate Apart(a: nat, b: nat, bps: nat)
  {
    bps == 0 || (bps <= BPS && a != b && Distance(a, b) * BPS >= bps * b)
  }

  lemma RatioIsApart(a: nat, b: nat, bps: nat)
    requires b > 0
    ensures RatioDeviation(a, b) >= bps <==> Apart(a, b, bps)
  {
    var d := Distance(a, b);
    FloorIsLargest(d * BPS, b, bps);
    if d >= b && bps <= BPS {
      MulLe(bps, BPS, b);
      MulLe(b, d, BPS);
    }
    if a == b {
      FloorUnique(0, b, 0);
    }
  }

  // ---- One trade ----

  /** What a rebalance sold, what the oracle says that is worth in the other token, the token-0 worth of
      what came back and of the settled holdings, and the shares minted for the fee. */
  datatype Trade = Trade(token: Token, amount: nat, expected: nat, worth: nat, nav: nat, minted: nat)

  predicate Priced(price: nat, t: Trade)
  {
    Whole(ValueOf(t.token, t.amount, price), UnitValue(t.token.Other(), price), t.expected) && t.expected < TWO_128
  }

  lemma PricedIs(price: nat, token: Token, amount: nat, expected: nat)
    requires price > 0
    ensures Whole(ValueOf(token, amount, price), UnitValue(token.Other(), price), expected) && expected < TWO_128
            <==> ExpectedReturn(amount, token, price) == Some(expected)
  {
    WholeIs(ValueOf(token, amount, price), UnitValue(token.Other(), price), expected);
  }

  /** Exactly the amount was spent, and at least the quote's floor and the tolerated part of the expected
      return, rounded down, came back. */
  predicate Executed(held: Amounts, settled: Amounts, quoteFloor: nat, maxExecutionDeviation: nat, t: Trade)
    requires maxExecutionDeviation <= BPS
  {
    var ask := t.token.Other();
    settled.Get(t.token) + t.amount == held.Get(t.token)
    && settled.Get(ask) >= held.Get(ask) + quoteFloor
    && (settled.Get(ask) - held.Get(ask) + 1) * BPS > t.expected * (BPS - maxExecutionDeviation)
  }

  lemma SettlesIffExecuted(p: Pending, settled: Amounts, quoteFloor: nat, maxExecutionDeviation: nat, t: Trade)
    requires maxExecutionDeviation <= BPS && settled.Fits()
    requires p.offer == t.token && p.amount == t.amount
    requires p.minReturn == MinReturn(t.expected, maxExecutionDeviation, quoteFloor)
    ensures ValidateSettlement(p, settled).Ok? <==> Executed(p.balances, settled, quoteFloor, maxExecutionDeviation, t)
  {
    var ask := t.token.Other();
    if settled.Get(ask) >= p.balances.Get(ask) {
      LeastReturn(t.expected * (BPS - maxExecutionDeviation), settled.Get(ask) - p.balances.Get(ask));
    }
  }

  lemma LeastReturn(product: nat, got: nat)
    ensures got >= Floor(product, BPS) <==> (got + 1) * BPS > product
  {
    FloorIsLargest(product, BPS, got + 1);
  }

  /** The fee on what came back: the most shares it buys at the settled holdings' worth, the collector's. */
  predicate Charged(
    held: Amounts, settled: Amounts, price: nat, feeBps: nat, supply: nat, collected: bool, t: Trade)
  {
    var ask := t.token.Other();
    settled.Get(ask) >= held.Get(ask)
    && Whole(ValueOf(ask, settled.Get(ask) - held.Get(ask), price), price, t.worth) && t.worth < TWO_128
    && Whole(Value(settled, price), price, t.nav) && t.nav < TWO_128
    && (if collected then FeeMint.FairMint(FeeOn(t.worth, feeBps), t.nav, supply, t.minted) else t.minted == 0)
    && (t.minted > 0 ==> supply + t.minted < TWO_128)
  }

  /** What a fee mints, worked out from one trade. */
  lemma ChargedIs(held: Amounts, settled: Amounts, price: nat, feeBps: nat, supply: nat, collected: bool, t: Trade)
    requires price > 0 && settled.Get(t.token.Other()) >= held.Get(t.token.Other())
    ensures var ask := t.token.Other();
            var worth := NavShares.CreditedValue(ask, settled.Get(ask) - held.Get(ask), price);
            var nav := NavShares.FlooredNav(settled, price);
            var minted := if collected then FeeMint.FeeShares(FeeOn(worth, feeBps), nav, supply) else 0;
            Charged(held, settled, price, feeBps, supply, collected, t)
            <==> t.worth == worth && t.nav == nav && t.minted == minted && worth < TWO_128 && nav < TWO_128
                 && (minted > 0 ==> supply + minted < TWO_128)
  {
    var ask := t.token.Other();
    CreditIsWhole(ask, settled.Get(ask) - held.Get(ask), price, t.worth);
    NavIsWhole(settled, price, t.nav);
    FeeMint.FairMintIsFeeShares(FeeOn(t.worth, feeBps), t.nav, supply, t.minted);
    hide FeeMint.FairMint, FeeMint.FeeShares, NavShares.CreditedValue, NavShares.FlooredNav, Whole, Floor;
  }

  /** The holdings settled by buying `ask` with the other token: `worth` is what came back of it and `nav` what
      is held now, both in whole token-0 units. */
  predicate Bought(held: Amounts, settled: Amounts, price: nat, ask: Token, worth: nat, nav: nat)
  {
    settled.Get(ask) >= held.Get(ask) && settled.Get(ask.Other()) < held.Get(ask.Other())
    && Whole(ValueOf(ask, settled.Get(ask) - held.Get(ask), price), price, worth)
    && Whole(Value(settled, price), price, nav)
  }

  lemma BoughtIs(held: Amounts, settled: Amounts, price: nat, ask: Token, offer: Token, worth: nat, nav: nat)
    requires price > 0 && Bought(held, settled, price, ask, worth, nav)
    requires settled.Get(offer) < held.Get(offer) && settled.Get(offer.Other()) >= held.Get(offer.Other())
    ensures ask == offer.Other()
    ensures worth == NavShares.CreditedValue(ask, settled.Get(ask) - held.Get(ask), price)
    ensures nav == NavShares.FlooredNav(settled, price)
  {
    CreditIsWhole(ask, settled.Get(ask) - held.Get(ask), price, worth);
    NavIsWhole(settled, price, nav);
  }

  /** A trade cap in basis points, without the quotient. */
  lemma CapIs(held: nat, maxTrade: nat, amount: nat)
    ensures amount <= Floor(held * maxTrade, BPS) <==> amount * BPS <= held * maxTrade
    ensures amount + 1 <= Floor(held * maxTrade, BPS) <==> (amount + 1) * BPS <= held * maxTrade
  {
    FloorIsLargest(held * maxTrade, BPS, amount);
    FloorIsLargest(held * maxTrade, BPS, amount + 1);
  }
}
