/** What each transaction of the rebalancer pair answers, in storage fields, balances, transfers sent and
    exact values alone: exactly when it commits, and then what it mints, pays, sells and charges. */
module BotCalls {
  import opened Arithmetic
  import opened Tokens
  import opened Ledger
  import opened Settlement
  import opened ParityPlan
  import opened BotPair
  import opened BotRuns
  import opened Trades
  import ProRata
  import NavShares
  import FeeMint

  // ---- Withdrawals ----

  /** `claims` is, of each token, the most that `shares` claim of what is held. */
  ghost predicate Claimed(b: Bot, shares: nat, claims: Amounts)
  {
    forall t: Token ::
      claims.Get(t) <= b.held.Get(t)
      && ProRata.PaysMost(b.held.Get(t), b.held.Get(t) - claims.Get(t), shares, b.supply)
  }

  lemma ClaimedIs(b: Bot, shares: nat, claims: Amounts)
    requires 0 < shares <= b.supply && Claimed(b, shares, claims)
    ensures NavShares.Payout(b.held, shares, b.supply) == claims
  {
    OneClaim(b.held.t0, claims.Get(Token0), shares, b.supply);
    OneClaim(b.held.t1, claims.Get(Token1), shares, b.supply);
  }

  lemma OneClaim(held: nat, claim: nat, shares: nat, supply: nat)
    requires supply > 0 && claim <= held && ProRata.PaysMost(held, held - claim, shares, supply)
    ensures Floor(held * shares, supply) == claim
  {
    WholeIs(held * shares, supply, claim);
  }

  /** The claims left the vault and the shares the supply, and just these transfers were sent. */
  ghost predicate Withdrawn(b: Bot, after: Bot, owner: Address, shares: nat, claims: Amounts, sent: seq<Transfer>)
  {
    (forall t: Token :: after.held.Get(t) + claims.Get(t) == b.held.Get(t))
    && after.supply + shares == b.supply && after.paid == b.paid + sent
    && (forall a :: Balance(after.lp, a) == Balance(b.lp, a) - (if a == owner then shares else 0))
    && after == b.(held := after.held, lp := after.lp, supply := after.supply, paid := after.paid)
  }

  lemma RedeemedWithdraws(b: Bot, owner: Address, shares: nat, claims: Amounts, sent: seq<Transfer>)
    requires 0 < shares <= Balance(b.lp, owner) && shares <= b.supply && Claimed(b, shares, claims)
    ensures Withdrawn(b, Redeemed(b, owner, shares, sent), owner, shares, claims, sent)
  {
    ClaimedIs(b, shares, claims);
    hide Claimed;
  }

  /** What the transfers move of one token, all of it to one recipient. */
  function Moved(sent: seq<Transfer>, t: Token): nat
  {
    if sent == [] then 0 else (if sent[0].token == t then sent[0].amount else 0) + Moved(sent[1..], t)
  }

  lemma TransfersMove(claims: Amounts, recipient: Address)
    ensures var sent := TransfersOf(claims, recipient);
            (forall t: Token :: Moved(sent, t) == claims.Get(t))
            && (forall i :: 0 <= i < |sent| ==> sent[i].recipient == recipient && sent[i].amount > 0)
  {
    var sent := TransfersOf(claims, recipient);
    if |sent| == 2 {
      assert sent[1..] == [sent[1]] && sent[1..][1..] == [];
    } else if |sent| == 1 {
      assert sent[1..] == [];
    }
  }

  /** A pro-rata withdrawal commits exactly when the shares are there and their claims meet the minima and are
      something; the claims, no more and no less, go to the recipient. */
  lemma ProRataAnswers(
    c: Settings, b: Bot, sender: Address, shares: nat, recipient: Address, minAssets: Amounts, claims: Amounts)
    requires c.Valid() && Inv(c, b) && b.held.Fits() && sender != c.self && Claimed(b, shares, claims)
    ensures var after := Apply(c, b, ProRataBy(sender, shares, recipient, minAssets));
            if 0 < shares <= Balance(b.lp, sender) && claims.Covers(minAssets) && claims != Nothing() then
              exists sent: seq<Transfer> ::
                Withdrawn(b, after, sender, shares, claims, sent)
                && (forall t: Token :: Moved(sent, t) == claims.Get(t))
                && forall i :: 0 <= i < |sent| ==> sent[i].recipient == recipient && sent[i].amount > 0
            else after == b
  {
    OwnWithinSupply(c, b, sender);
    ProRataSucceedsIff(c, b, sender, shares, recipient, minAssets);
    hide WithdrawBoth, Inv, Withdrawn, Claimed, Moved, TransfersOf;
    if 0 < shares <= Balance(b.lp, sender) {
      ClaimedIs(b, shares, claims);
      RedeemedWithdraws(b, sender, shares, claims, TransfersOf(claims, recipient));
      TransfersMove(claims, recipient);
    }
  }

  /** The holder asks for a swap of exactly the unwanted claim, and there is one. */
  predicate AsksSwap(b: Bot, sender: Address, shares: nat, payout: Token, swap: Swap, claims: Amounts)
  {
    0 < shares <= Balance(b.lp, sender) && swap.offer == payout.Other()
    && swap.amount == claims.Get(payout.Other()) && swap.amount > 0
  }

  /** A single-token withdrawal completes exactly when the holder asks for the right swap, the swap succeeds on
      a running vault, and the wanted claim with what the swap returned meets the minimum and is something.
      Then one transfer of just that goes to the recipient. After a failed swap, as after a minimum not met or
      a wrong request, nothing has changed; only the last two are errors. */
  lemma SingleAnswers(
    c: Settings, b: Bot, sender: Address, shares: nat, recipient: Address, payout: Token, minAmount: nat, swap: Swap,
    received: Option<nat>, claims: Amounts)
    requires c.Valid() && Inv(c, b) && b.held.Fits() && sender != c.self && Claimed(b, shares, claims)
    ensures var r := WithdrawOne(b, sender, shares, recipient, payout, minAmount, swap, received);
            if !AsksSwap(b, sender, shares, payout, swap, claims) then r.Err?
            else if b.paused || received.None? then r == Ok(b)
            else
              var sent := claims.Get(payout) + received.value;
              if sent < minAmount then r == Err(MinimumNotMet)
              else if sent == 0 then r == Err(ZeroAmount)
              else r.Ok? && Withdrawn(b, r.value, sender, shares, claims, [Transfer(payout, sent, recipient)])
  {
    OwnWithinSupply(c, b, sender);
    if 0 < shares <= Balance(b.lp, sender) {
      ClaimsFit(b, sender, shares);
      ClaimsArePayout(b, sender, shares);
      ClaimedIs(b, shares, claims);
      hide NavShares.Payout, Inv, Claims, Claimed, Withdrawn;
      if AsksSwap(b, sender, shares, payout, swap, claims) {
        SingleFollows(c, b, sender, shares, recipient, payout, minAmount, swap, received, claims);
      }
    }
  }

  lemma SingleFollows(
    c: Settings, b: Bot, sender: Address, shares: nat, recipient: Address, payout: Token, minAmount: nat, swap: Swap,
    received: Option<nat>, claims: Amounts)
    requires b.operation.None? && b.rebalance.None? && shares <= b.supply && Claimed(b, shares, claims)
    requires Claims(b, sender, shares) == Ok(claims) && NavShares.Payout(b.held, shares, b.supply) == claims
    requires AsksSwap(b, sender, shares, payout, swap, claims) && b.held.Covers(claims)
    ensures var r := WithdrawOne(b, sender, shares, recipient, payout, minAmount, swap, received);
            if b.paused || received.None? then r == Ok(b)
            else
              var sent := claims.Get(payout) + received.value;
              if sent < minAmount then r == Err(MinimumNotMet)
              else if sent == 0 then r == Err(ZeroAmount)
              else r.Ok? && Withdrawn(b, r.value, sender, shares, claims, [Transfer(payout, sent, recipient)])
  {
    hide NavShares.Payout, Claims, Claimed, Withdrawn;
    var started := StartSingle(b, sender, shares, recipient, payout, minAmount, swap).value;
    if !b.paused && received.Some? {
      SingleCompletes(b, started, claims, sender, shares, recipient, payout, minAmount, swap, received.value);
      RedeemedWithdraws(b, sender, shares, claims, [Transfer(payout, claims.Get(payout) + received.value, recipient)]);
      hide LiquiditySwap, CompleteSingle, TransferAll;
    }
  }

  // ---- Deposits ----

  /** The holdings once the deposit is in and its swap, if any, has traded. */
  ghost predicate SettlesAt(held: Amounts, amounts: Amounts, swap: Option<Swap>, received: Option<nat>, post: Amounts)
  {
    forall t: Token ::
      post.Get(t) + (if swap.Some? && swap.value.offer == t then swap.value.amount else 0)
      == held.Get(t) + amounts.Get(t)
         + (if swap.Some? && received.Some? && swap.value.offer != t then received.value else 0)
  }

  /** Something is sent, and a swap, if asked for, sells part of it and succeeds. */
  predicate WellFunded(amounts: Amounts, swap: Option<Swap>, received: Option<nat>)
  {
    amounts != Nothing()
    && (swap.Some? ==> received.Some? && 0 < swap.value.amount <= amounts.Get(swap.value.offer))
  }

  /** The vault's two sides are no further apart in value than the tolerance. */
  predicate Balanced(c: Settings, h: Amounts, price: nat) { !Apart(h.t1 * ONE, h.t0 * price, c.tolerance + 1) }

  lemma DeviationIs(h: Amounts, price: nat, bps: nat)
    requires price > 0
    ensures AllocationDeviation(h, price) >= bps <==> Apart(h.t1 * ONE, h.t0 * price, bps)
  {
    if h.t0 > 0 {
      MulPositive(price, h.t0);
      RatioIsApart(h.t1 * ONE, price * h.t0, bps);
      assert price * h.t0 == h.t0 * price;
      if h.t1 == 0 {
        WholeApart(h.t0 * price, bps);
      }
    } else {
      assert h.t0 * price == 0;
    }
  }

  lemma WholeApart(b: nat, bps: nat)
    requires b > 0
    ensures Apart(0, b, bps) <==> bps <= BPS
  {
    if bps <= BPS {
      MulLe(bps, BPS, b);
    }
  }

  /** `x` is the most shares that both added amounts back as well as the rest is backed. */
  predicate BacksMost(pre: Amounts, post: Amounts, supply: nat, x: nat)
    requires post.Covers(pre)
  {
    x * pre.t0 <= (post.t0 - pre.t0) * supply && x * pre.t1 <= (post.t1 - pre.t1) * supply
    && ((post.t0 - pre.t0) * supply < (x + 1) * pre.t0 || (post.t1 - pre.t1) * supply < (x + 1) * pre.t1)
  }

  /** Shares due to the depositor: at the first deposit one per unit of added value beyond the locked ones,
      afterwards as many as both tokens back. */
  ghost predicate DueShares(b: Bot, post: Amounts, nav: nat, settledNav: nat, shares: nat)
    requires post.Covers(b.held)
  {
    if b.supply == 0 then shares == (if settledNav > nav + LOCKED then settledNav - nav - LOCKED else 0)
    else b.held.t0 > 0 && b.held.t1 > 0 ==> BacksMost(b.held, post, b.supply, shares)
  }

  /** The contract's limits on the shares due: a first deposit big enough, later ones into a vault with both
      tokens, and everything within 128 bits. */
  ghost predicate DueFits(c: Settings, b: Bot, post: Amounts, nav: nat, settledNav: nat, shares: nat)
    requires post.Covers(b.held)
  {
    nav < TWO_128 && settledNav < TWO_128
    && if b.supply == 0 then
         settledNav >= nav + c.minimumInitial && nav + LOCKED < TWO_128 && nav + LOCKED + shares < TWO_128
       else
         b.held.t0 > 0 && b.held.t1 > 0
         && (post.t0 - b.held.t0) * b.supply < TWO_128 * b.held.t0
         && (post.t1 - b.held.t1) * b.supply < TWO_128 * b.held.t1
         && b.supply + shares < TWO_128
  }

  lemma RatioIsBelow(value: nat, numerator: nat, denominator: nat)
    requires denominator > 0
    ensures CheckedRatio(value, numerator, denominator)
            == if value * numerator < TWO_128 * denominator then Some(Floor(value * numerator, denominator)) else None
  {
    FloorIsLargest(value * numerator, denominator, TWO_128);
  }

  lemma BackedSharesAre(pre: Amounts, post: Amounts, supply: nat, x: nat)
    requires post.Covers(pre) && pre.t0 > 0 && pre.t1 > 0 && BacksMost(pre, post, supply, x)
    requires (post.t0 - pre.t0) * supply < TWO_128 * pre.t0 && (post.t1 - pre.t1) * supply < TWO_128 * pre.t1
    ensures ProportionalShares(pre, post, supply) == Ok(x)
  {
    RatioIsBelow(post.t0 - pre.t0, supply, pre.t0);
    RatioIsBelow(post.t1 - pre.t1, supply, pre.t1);
    ProportionalSharesAreLargest(pre, post, supply, x);
    ProportionalSharesAreLargest(pre, post, supply, x + 1);
  }

  lemma SharesForIs(c: Settings, b: Bot, post: Amounts, price: nat, nav: nat, settledNav: nat, shares: nat)
    requires price > 0 && post.Covers(b.held)
    requires Whole(Value(b.held, price), price, nav) && Whole(Value(post, price), price, settledNav)
    requires DueShares(b, post, nav, settledNav, shares)
    ensures var due := SharesFor(c, b.held, post, b.supply, price);
            (DueFits(c, b, post, nav, settledNav, shares) && shares > 0 ==>
               due == Ok((if b.supply == 0 then nav + LOCKED else 0, shares)))
            && (due.Ok? && due.value.1 > 0 && b.supply + due.value.0 + due.value.1 < TWO_128 ==>
                  DueFits(c, b, post, nav, settledNav, shares) && due.value.1 == shares)
  {
    NavIsWhole(b.held, price, nav);
    NavIsWhole(post, price, settledNav);
    NavGrows(b.held, post, price, nav, settledNav);
    hide NavShares.FlooredNav, Whole, Value;
    if b.supply > 0 && b.held.t0 > 0 && b.held.t1 > 0 {
      RatioIsBelow(post.t0 - b.held.t0, b.supply, b.held.t0);
      RatioIsBelow(post.t1 - b.held.t1, b.supply, b.held.t1);
      if (post.t0 - b.held.t0) * b.supply < TWO_128 * b.held.t0
         && (post.t1 - b.held.t1) * b.supply < TWO_128 * b.held.t1 {
        BackedSharesAre(b.held, post, b.supply, shares);
      }
      hide BacksMost, Floor;
    }
  }

  lemma NavGrows(pre: Amounts, post: Amounts, price: nat, nav: nat, settledNav: nat)
    requires price > 0 && post.Covers(pre)
    requires NavShares.FlooredNav(pre, price) == nav && NavShares.FlooredNav(post, price) == settledNav
    ensures nav <= settledNav
  {
    MulLe(pre.t1, post.t1, ONE);
    FloorMonotone(pre.t1 * ONE, post.t1 * ONE, price);
  }

  /** The vault holds the settled deposit; the depositor has its shares and the contract, at the first deposit,
      the locked ones. */
  ghost predicate Added(c: Settings, b: Bot, after: Bot, sender: Address, post: Amounts, locked: nat, shares: nat)
  {
    after == b.(held := post, lp := after.lp, supply := after.supply) && after.supply == b.supply + locked + shares
    && forall a ::
         Balance(after.lp, a)
         == Balance(b.lp, a) + (if a == sender then shares else 0) + (if a == c.self then locked else 0)
  }

  /** The deposit between its swap and its completion. */
  function Unfinished(b: Bot, sender: Address, minShares: nat, swap: Option<Swap>, price: nat, post: Amounts): Bot
  {
    b.(operation := Some(Depositing(sender, b.held, b.supply, price, minShares, swap)), held := post)
  }

  lemma DepositReaches(
    c: Settings, b: Bot, sender: Address, amounts: Amounts, minShares: nat, swap: Option<Swap>, venue: Venue,
    post: Amounts)
    requires venue.Valid() && b.operation.None? && b.rebalance.None?
    requires WellFunded(amounts, swap, venue.received) ==> SettlesAt(b.held, amounts, swap, venue.received, post)
    ensures var r := Deposit(c, b, sender, amounts, minShares, swap, venue);
            if !b.paused && WellFunded(amounts, swap, venue.received) then
              r == CompleteDeposit(c, Unfinished(b, sender, minShares, swap, venue.price, post), venue.settledPrice)
            else r.Err?
  {
    hide CompleteDeposit;
    if WellFunded(amounts, swap, venue.received) {
      assert post.t0 == post.Get(Token0) && post.t1 == post.Get(Token1);
    }
  }

  lemma CompletionAnswers(
    c: Settings, b: Bot, sender: Address, minShares: nat, swap: Option<Swap>, price: nat, settledPrice: nat,
    post: Amounts,
    nav: nat, settledNav: nat, shares: nat)
    requires price > 0 && settledPrice > 0 && b.operation.None? && post.Covers(b.held) && sender != c.self
    requires Whole(Value(b.held, price), price, nav) && Whole(Value(post, price), price, settledNav)
    requires DueShares(b, post, nav, settledNav, shares)
    ensures var r := CompleteDeposit(c, Unfinished(b, sender, minShares, swap, price, post), settledPrice);
            (r.Ok? <==>
               Balanced(c, post, settledPrice) && DueFits(c, b, post, nav, settledNav, shares)
               && shares >= Max(minShares, 1))
            && (r.Ok? ==> Added(c, b, r.value, sender, post, if b.supply == 0 then nav + LOCKED else 0, shares))
  {
    hide SharesFor, AllocationDeviation, Apart, DueFits, DueShares, Whole, Value;
    DeviationIs(post, settledPrice, c.tolerance + 1);
    SharesForIs(c, b, post, price, nav, settledNav, shares);
    FirstLocks(c, b.held, post, b.supply, price);
    DueWithin(c, b, post, nav, settledNav, shares);
  }

  lemma FirstLocks(c: Settings, pre: Amounts, post: Amounts, supply: nat, price: nat)
    requires price > 0
    ensures supply > 0 && SharesFor(c, pre, post, supply, price).Ok? ==>
              SharesFor(c, pre, post, supply, price).value.0 == 0
  {
    hide NavShares.FlooredNav, ProportionalShares;
  }

  lemma DueWithin(c: Settings, b: Bot, post: Amounts, nav: nat, settledNav: nat, shares: nat)
    requires post.Covers(b.held)
    ensures DueFits(c, b, post, nav, settledNav, shares) ==>
              b.supply + (if b.supply == 0 then nav + LOCKED else 0) + shares < TWO_128
  {
  }

  /** A deposit commits exactly when the vault runs, the deposit is funded, the settled vault is balanced, and
      the shares due fit, are some and are at least what the depositor asked for. Then exactly those are
      minted. */
  lemma DepositAnswers(
    c: Settings, b: Bot, sender: Address, amounts: Amounts, minShares: nat, swap: Option<Swap>, venue: Venue,
    post: Amounts, nav: nat, settledNav: nat, shares: nat)
    requires c.Valid() && Inv(c, b) && sender != c.self && venue.Valid() && post.Covers(b.held)
    requires WellFunded(amounts, swap, venue.received) ==> SettlesAt(b.held, amounts, swap, venue.received, post)
    requires Whole(Value(b.held, venue.price), venue.price, nav)
    requires Whole(Value(post, venue.price), venue.price, settledNav)
    requires DueShares(b, post, nav, settledNav, shares)
    ensures var after := Apply(c, b, DepositBy(sender, amounts, minShares, swap, venue));
            if !b.paused && WellFunded(amounts, swap, venue.received) && Balanced(c, post, venue.settledPrice)
               && DueFits(c, b, post, nav, settledNav, shares) && shares >= Max(minShares, 1) then
              Added(c, b, after, sender, post, if b.supply == 0 then nav + LOCKED else 0, shares)
            else after == b
  {
    DepositReaches(c, b, sender, amounts, minShares, swap, venue, post);
    CompletionAnswers(c, b, sender, minShares, swap, venue.price, venue.settledPrice, post, nav, settledNav, shares);
    hide Deposit, CompleteDeposit, Added, Balanced, DueFits, DueShares, WellFunded, SettlesAt, Whole, Value, Sum;
  }

  // ---- Rebalancing ----

  /** Some of a token, within the part of it one trade may take, and the most that a fill at the price itself
      would not carry past parity. */
  predicate Aimed(h: Amounts, price: nat, maxTrade: nat, token: Token, amount: nat)
  {
    amount > 0 && StaysHeavier(h, price, token, amount) && amount * BPS <= h.Get(token) * maxTrade
    && ((amount + 1) * BPS <= h.Get(token) * maxTrade ==> !StaysHeavier(h, price, token, amount + 1))
  }

  lemma FewerStaysHeavier(h: Amounts, price: nat, token: Token, n: nat, fewer: nat)
    requires StaysHeavier(h, price, token, n) && fewer <= n
    ensures StaysHeavier(h, price, token, fewer)
  {
    MulLe(fewer, n, price);
    MulLe(fewer, n, ONE);
  }

  lemma AimedOnce(h: Amounts, price: nat, maxTrade: nat, token: Token, amount: nat, token': Token, amount': nat)
    requires price > 0 && Aimed(h, price, maxTrade, token, amount) && Aimed(h, price, maxTrade, token', amount')
    ensures token == token' && amount == amount'
  {
    MulPositive(amount, price);
    MulPositive(amount', price);
    assert token == token';
    if amount < amount' {
      FewerStaysHeavier(h, price, token, amount', amount + 1);
      MulLe(amount + 1, amount', BPS);
    } else if amount' < amount {
      FewerStaysHeavier(h, price, token, amount, amount' + 1);
      MulLe(amount' + 1, amount, BPS);
    }
  }

  /** The planned offer is exactly the aimed one, and there is none exactly when nothing can be aimed. */
  lemma OfferIsAimed(h: Amounts, price: nat, maxTrade: nat, token: Token, amount: nat)
    requires h.Fits() && price > 0 && maxTrade <= BPS
    ensures PlannedOffer(h, price, maxTrade).Some?
    ensures PlannedOffer(h, price, maxTrade).value == Some(Offer(token, amount))
            <==> Aimed(h, price, maxTrade, token, amount)
  {
    PlannedOfferIsAimed(h, price, maxTrade);
    var plan := PlannedOffer(h, price, maxTrade).value;
    hide PlannedOffer, StaysHeavier;
    if plan.Some? {
      CapIs(h.Get(plan.value.token), maxTrade, plan.value.amount);
      assert Aimed(h, price, maxTrade, plan.value.token, plan.value.amount);
      if Aimed(h, price, maxTrade, token, amount) {
        AimedOnce(h, price, maxTrade, plan.value.token, plan.value.amount, token, amount);
      }
    } else if Aimed(h, price, maxTrade, token, amount) {
      FewerStaysHeavier(h, price, token, amount, 1);
      CapIs(h.Get(token), maxTrade, amount);
      assert false;
    }
  }

  /** A rebalance is due exactly when the price has moved by the threshold from the reference, or the vault is
      out of balance. */
  predicate Due(c: Settings, b: Bot, price: nat)
  {
    Apart(price, b.reference, c.threshold) || !Balanced(c, b.held, price)
  }

  lemma RequiredIffDue(c: Settings, b: Bot, price: nat)
    requires price > 0 && b.reference > 0
    ensures RebalanceRequired(c, b, price) <==> Due(c, b, price)
  {
    RatioIsApart(price, b.reference, c.threshold);
    DeviationIs(b.held, price, c.tolerance + 1);
    hide RatioDeviation, AllocationDeviation, Apart;
  }

  /** A trade the market lets the vault make: aimed, priced and executed as asked, ending balanced or closer to
      parity than it began, and with a fee that can be booked. */
  ghost predicate Makes(c: Settings, b: Bot, m: Market, t: Trade)
    requires c.Valid()
  {
    Aimed(b.held, m.twap, c.maxTrade, t.token, t.amount)
    && Priced(m.twap, t)
    && Executed(b.held, m.settled, m.quoteFloor, c.maxExecutionDeviation, t)
    && (Balanced(c, m.settled, m.twap) || Nearer(m.settled, b.held, m.twap))
    && Charged(b.held, m.settled, m.twap, m.feeBps, b.supply, c.collector.Some?, t)
  }

  /** Some distance from parity lies between the two holdings. */
  ghost predicate Nearer(h: Amounts, than: Amounts, price: nat)
  {
    exists bps :: Apart(than.t1 * ONE, than.t0 * price, bps) && !Apart(h.t1 * ONE, h.t0 * price, bps)
  }

  /** The keeper may start a rebalance now. */
  predicate Open(c: Settings, b: Bot, sender: Address, m: Market)
  {
    sender == c.keeper && !b.paused && m.inTime && m.pairKnown && m.poolSafe
  }

  /** The books after such a trade: the settled holdings, the fee minted to the collector alone, and the price
      as the new reference if the trade ended balanced. */
  ghost predicate Made(c: Settings, b: Bot, m: Market, t: Trade, after: Bot)
  {
    after == b.(held := m.settled, lp := after.lp, supply := b.supply + t.minted,
                reference := if Balanced(c, m.settled, m.twap) then m.twap else b.reference)
    && forall a :: Balance(after.lp, a) == Balance(b.lp, a) + (if c.collector == Some(a) then t.minted else 0)
  }

  /** The record of a started rebalance that will make this trade. */
  function Record(c: Settings, b: Bot, m: Market, t: Trade): Pending
    requires c.Valid() && m.Valid()
  {
    Pending(m.twap, b.held, AllocationDeviation(b.held, m.twap), t.token, t.amount,
            MinReturn(t.expected, c.maxExecutionDeviation, m.quoteFloor))
  }

  lemma Idle(c: Settings, b: Bot)
    requires Inv(c, b)
    ensures b.operation.None? && b.rebalance.None? && b.reference > 0 && LiquidityIdle(b)
  {
  }

  lemma StartsFor(c: Settings, b: Bot, sender: Address, m: Market, t: Trade)
    requires c.Valid() && Inv(c, b) && m.Valid() && b.held.Fits() && Open(c, b, sender, m) && Due(c, b, m.twap)
    requires Aimed(b.held, m.twap, c.maxTrade, t.token, t.amount) && Priced(m.twap, t)
    ensures StartRebalance(c, b, sender, m) == Ok(b.(rebalance := Some(Record(c, b, m, t))))
  {
    RequiredIffDue(c, b, m.twap);
    PricedIs(m.twap, t.token, t.amount, t.expected);
    OfferIsAimed(b.held, m.twap, c.maxTrade, t.token, t.amount);
    Idle(c, b);
    hide RebalanceRequired, AllocationDeviation, PlannedOffer, ExpectedReturn, Aimed, Due, MinReturn, Inv,
      LiquidityIdle;
  }

  /** A rebalance that starts is due, and its record is of an aimed and priced trade. */
  lemma StartedFor(c: Settings, b: Bot, sender: Address, m: Market) returns (t: Trade)
    requires c.Valid() && Inv(c, b) && m.Valid() && b.held.Fits() && StartRebalance(c, b, sender, m).Ok?
    ensures Open(c, b, sender, m) && Due(c, b, m.twap)
    ensures Aimed(b.held, m.twap, c.maxTrade, t.token, t.amount) && Priced(m.twap, t)
    ensures StartRebalance(c, b, sender, m).value == b.(rebalance := Some(Record(c, b, m, t)))
  {
    Idle(c, b);
    RequiredIffDue(c, b, m.twap);
    var p := StartRebalance(c, b, sender, m).value.rebalance.value;
    t := Trade(p.offer, p.amount, ExpectedReturn(p.amount, p.offer, m.twap).value, 0, 0, 0);
    PricedIs(m.twap, t.token, t.amount, t.expected);
    OfferIsAimed(b.held, m.twap, c.maxTrade, t.token, t.amount);
    hide AllocationDeviation, PlannedOffer, ExpectedReturn, Aimed, Due, MinReturn, Inv, LiquidityIdle;
  }

  /** The trade with the worth and the fee that its settlement comes to. */
  function Completed(c: Settings, b: Bot, m: Market, t: Trade): Trade
    requires m.Valid() && m.settled.Get(t.token.Other()) >= b.held.Get(t.token.Other())
  {
    var ask := t.token.Other();
    var worth := NavShares.CreditedValue(ask, m.settled.Get(ask) - b.held.Get(ask), m.twap);
    var nav := NavShares.FlooredNav(m.settled, m.twap);
    t.(worth := worth, nav := nav,
       minted := if c.collector.Some? then FeeMint.FeeShares(FeeOn(worth, m.feeBps), nav, b.supply) else 0)
  }

  /** The settled vault before its fee. */
  function Quiet(b: Bot, m: Market, balanced: bool): Bot
  {
    b.(held := m.settled, reference := if balanced then m.twap else b.reference)
  }

  lemma FeeIsBooked(c: Settings, b: Bot, value: nat, assets: nat, feeBps: nat)
    ensures var minted := if c.collector.Some? then FeeMint.FeeShares(FeeOn(value, feeBps), assets, b.supply) else 0;
            var r := BotPair.ChargeFee(c, b, value, assets, feeBps);
            (r.Ok? <==> (minted > 0 ==> b.supply + minted < TWO_128))
            && (r.Ok? ==>
                  r.value == b.(supply := b.supply + minted, lp := r.value.lp)
                  && forall a ::
                       Balance(r.value.lp, a) == Balance(b.lp, a) + (if c.collector == Some(a) then minted else 0))
  {
  }

  /** The reply, check by check. */
  lemma SettleSteps(c: Settings, b: Bot, m: Market, t: Trade)
    requires c.Valid() && b.rebalance.None? && m.Valid() && m.settled.Fits()
    ensures var r := Settle(c, b.(rebalance := Some(Record(c, b, m, t)), held := m.settled), m.feeBps);
            var before, now := AllocationDeviation(b.held, m.twap), AllocationDeviation(m.settled, m.twap);
            if Executed(b.held, m.settled, m.quoteFloor, c.maxExecutionDeviation, t)
               && (now <= c.tolerance || now < before)
               && Completed(c, b, m, t).worth < TWO_128 && Completed(c, b, m, t).nav < TWO_128 then
              r == BotPair.ChargeFee(c, Quiet(b, m, now <= c.tolerance), Completed(c, b, m, t).worth,
                                     Completed(c, b, m, t).nav, m.feeBps)
            else r.Err?
  {
    SettlesIffExecuted(Record(c, b, m, t), m.settled, m.quoteFloor, c.maxExecutionDeviation, t);
    hide BotPair.ChargeFee, AllocationDeviation, ValidateSettlement, NavShares.CreditedValue, NavShares.FlooredNav,
         FeeMint.FeeShares, MinReturn;
  }

  lemma Improves(c: Settings, h: Amounts, settled: Amounts, price: nat)
    requires price > 0
    ensures var before, now := AllocationDeviation(h, price), AllocationDeviation(settled, price);
            (now <= c.tolerance <==> Balanced(c, settled, price)) && (now < before <==> Nearer(settled, h, price))
  {
    var before, now := AllocationDeviation(h, price), AllocationDeviation(settled, price);
    DeviationIs(settled, price, c.tolerance + 1);
    forall bps: nat
      ensures (before >= bps <==> Apart(h.t1 * ONE, h.t0 * price, bps))
              && (now >= bps <==> Apart(settled.t1 * ONE, settled.t0 * price, bps))
    {
      DeviationIs(h, price, bps);
      DeviationIs(settled, price, bps);
    }
    hide AllocationDeviation, Apart;
    if now < before {
      assert Apart(h.t1 * ONE, h.t0 * price, before) && !Apart(settled.t1 * ONE, settled.t0 * price, before);
    }
  }

  /** The reply accepts a started trade exactly when the vault makes it, and then books it. */
  lemma SettlesFor(c: Settings, b: Bot, m: Market, t: Trade)
    requires c.Valid() && b.rebalance.None? && m.Valid() && m.settled.Fits()
    requires Aimed(b.held, m.twap, c.maxTrade, t.token, t.amount) && Priced(m.twap, t)
    ensures var r := Settle(c, b.(rebalance := Some(Record(c, b, m, t)), held := m.settled), m.feeBps);
            (r.Ok? <==> m.settled.Get(t.token.Other()) >= b.held.Get(t.token.Other())
                        && Makes(c, b, m, Completed(c, b, m, t)))
            && (r.Ok? ==> Made(c, b, m, Completed(c, b, m, t), r.value))
  {
    hide Settle, BotPair.ChargeFee, AllocationDeviation, Balanced, Nearer, Charged, NavShares.CreditedValue,
         NavShares.FlooredNav, FeeMint.FeeShares, FeeOn, Aimed, Whole, MinReturn;
    SettleSteps(c, b, m, t);
    Improves(c, b.held, m.settled, m.twap);
    if m.settled.Get(t.token.Other()) >= b.held.Get(t.token.Other()) {
      var done := Completed(c, b, m, t);
      ChargedIs(b.held, m.settled, m.twap, m.feeBps, b.supply, c.collector.Some?, done);
      FeeIsBooked(c, Quiet(b, m, Balanced(c, m.settled, m.twap)), done.worth, done.nav, m.feeBps);
    }
  }

  lemma MakesAims(c: Settings, b: Bot, m: Market, t: Trade)
    requires c.Valid() && Makes(c, b, m, t)
    ensures Aimed(b.held, m.twap, c.maxTrade, t.token, t.amount) && Priced(m.twap, t)
    ensures m.settled.Get(t.token.Other()) >= b.held.Get(t.token.Other())
  {
  }

  /** Every trade the vault could make is the aimed one, completed. */
  lemma TradeIsCompleted(c: Settings, b: Bot, m: Market, t: Trade)
    requires c.Valid() && m.Valid()
    requires Aimed(b.held, m.twap, c.maxTrade, t.token, t.amount) && Priced(m.twap, t)
    ensures forall t': Trade :: Makes(c, b, m, t') ==>
              m.settled.Get(t.token.Other()) >= b.held.Get(t.token.Other()) && t' == Completed(c, b, m, t)
  {
    forall t': Trade | Makes(c, b, m, t')
      ensures m.settled.Get(t.token.Other()) >= b.held.Get(t.token.Other()) && t' == Completed(c, b, m, t)
    {
      AimedOnce(b.held, m.twap, c.maxTrade, t.token, t.amount, t'.token, t'.amount);
      PricedIs(m.twap, t.token, t.amount, t.expected);
      PricedIs(m.twap, t.token, t.amount, t'.expected);
      ChargedIs(b.held, m.settled, m.twap, m.feeBps, b.supply, c.collector.Some?, t');
      hide Aimed, Priced, Executed, Balanced, Nearer, Charged, NavShares.CreditedValue, NavShares.FlooredNav,
           FeeMint.FeeShares, FeeOn;
    }
  }

  /** A rebalance commits exactly when the keeper may start one, one is due and the market lets the vault make
      some trade; that trade is then booked. Otherwise nothing changes. */
  lemma RebalanceAnswers(c: Settings, b: Bot, sender: Address, m: Market)
    requires c.Valid() && Inv(c, b) && m.Valid() && b.held.Fits() && m.settled.Fits()
    ensures var after := Apply(c, b, RebalanceBy(sender, m));
            if Open(c, b, sender, m) && Due(c, b, m.twap) && exists t: Trade :: Makes(c, b, m, t) then
              exists t: Trade :: Makes(c, b, m, t) && Made(c, b, m, t, after)
            else after == b
  {
    hide Makes, Made, Settle, StartRebalance, Aimed, Due, Open, Priced, Inv;
    Idle(c, b);
    if StartRebalance(c, b, sender, m).Ok? {
      var t := StartedFor(c, b, sender, m);
      SettlesFor(c, b, m, t);
      TradeIsCompleted(c, b, m, t);
    } else if t: Trade :| Makes(c, b, m, t) {
      MakesAims(c, b, m, t);
      if Open(c, b, sender, m) && Due(c, b, m.twap) {
        StartsFor(c, b, sender, m, t);
      }
    }
  }

  /** The supply has grown by a fair mint for the fee, nothing exactly where nothing can be charged, and it is
      the collector's. */
  ghost predicate FeeBooked(c: Settings, b: Bot, after: Bot, fee: nat, nav: nat)
  {
    after.supply >= b.supply
    && var x := after.supply - b.supply;
       (if c.collector.None? then x == 0 else FeeMint.FairMint(fee, nav, b.supply, x))
       && (x == 0 <==> c.collector.None? || fee == 0 || b.supply == 0 || fee >= nav || fee * (b.supply + 1) < nav)
       && forall a :: Balance(after.lp, a) == Balance(b.lp, a) + (if c.collector == Some(a) then x else 0)
  }

  /** A committed rebalance is its settled holdings with the fee charged on them. */
  lemma RebalanceCharges(c: Settings, b: Bot, sender: Address, m: Market) returns (offer: Token, balanced: bool)
    requires c.Valid() && m.Valid() && Inv(c, b) && Rebalance(c, b, sender, m).Ok?
    ensures m.settled.Get(offer) < b.held.Get(offer) && m.settled.Get(offer.Other()) >= b.held.Get(offer.Other())
    ensures var gained := m.settled.Get(offer.Other()) - b.held.Get(offer.Other());
            Rebalance(c, b, sender, m)
            == BotPair.ChargeFee(c, Quiet(b, m, balanced), NavShares.CreditedValue(offer.Other(), gained, m.twap),
                                 NavShares.FlooredNav(m.settled, m.twap), m.feeBps)
  {
    hide BotPair.ChargeFee, AllocationDeviation, NavShares.CreditedValue, NavShares.FlooredNav, MinReturn,
         ExpectedReturn, RebalanceRequired, LiquidityIdle, Sum;
    var p := StartRebalance(c, b, sender, m).value.rebalance.value;
    offer := p.offer;
    balanced := AllocationDeviation(m.settled, m.twap) <= c.tolerance;
  }

  /** The fee of a committed rebalance: on what was bought, against the settled holdings, at the captured
      price; the most shares whose claim stays within it, all of them the collector's. */
  lemma RebalanceFeeIsLargest(c: Settings, b: Bot, sender: Address, m: Market, ask: Token, worth: nat, nav: nat)
    requires c.Valid() && Inv(c, b) && m.Valid() && Bought(b.held, m.settled, m.twap, ask, worth, nav)
    requires Rebalance(c, b, sender, m).Ok?
    ensures FeeBooked(c, b, Rebalance(c, b, sender, m).value, FeeOn(worth, m.feeBps), nav)
  {
    hide Rebalance, BotPair.ChargeFee, NavShares.CreditedValue, NavShares.FlooredNav, FeeMint.FeeShares,
         FeeMint.FairMint, FeeOn, Sum, Bought;
    var offer, balanced := RebalanceCharges(c, b, sender, m);
    BoughtIs(b.held, m.settled, m.twap, ask, offer, worth, nav);
    FeeIsBooked(c, Quiet(b, m, balanced), worth, nav, m.feeBps);
    var fee := FeeOn(worth, m.feeBps);
    FeeMint.FairMintIsFeeShares(fee, nav, b.supply, FeeMint.FeeShares(fee, nav, b.supply));
    if c.collector.Some? {
      FeeMint.FairMintIsNothingIff(fee, nav, b.supply, FeeMint.FeeShares(fee, nav, b.supply));
    }
  }

  /** So what the collector could take out with them at once is at most the fee. */
  lemma RebalanceFeeIsFair(c: Settings, b: Bot, sender: Address, m: Market, ask: Token, worth: nat, nav: nat)
    requires c.Valid() && Inv(c, b) && m.Valid() && b.supply > 0
    requires Bought(b.held, m.settled, m.twap, ask, worth, nav) && Rebalance(c, b, sender, m).Ok?
    ensures var supply := Rebalance(c, b, sender, m).value.supply;
            supply >= b.supply && ProRata.Claim(nav, supply - b.supply, supply) <= FeeOn(worth, m.feeBps)
  {
    RebalanceFeeIsLargest(c, b, sender, m, ask, worth, nav);
    hide Rebalance, Bought, FeeOn, Sum;
    var supply, fee := Rebalance(c, b, sender, m).value.supply, FeeOn(worth, m.feeBps);
    if c.collector.Some? {
      FeeMint.FairMintClaims(fee, nav, b.supply, supply - b.supply);
    } else {
      FeeMint.FairMintClaims(0, nav, b.supply, 0);
    }
  }

  /** Without a trade the keeper moves the reference to the price exactly when a rebalance is due although the
      vault is balanced. */
  lemma SyncAnswers(c: Settings, b: Bot, sender: Address, price: nat)
    requires c.Valid() && Inv(c, b) && price > 0
    ensures Apply(c, b, SyncBy(sender, price))
            == if sender == c.keeper && !b.paused && Apart(price, b.reference, c.threshold)
               && Balanced(c, b.held, price)
               then b.(reference := price) else b
  {
    Idle(c, b);
    RequiredIffDue(c, b, price);
    DeviationIs(b.held, price, c.tolerance + 1);
    hide RebalanceRequired, AllocationDeviation, Apart, LiquidityIdle, Inv;
  }

  // ---- The LP token ----

  /** `amount` shares left `from`, for `to` or, with nobody to receive them, out of the supply. */
  ghost predicate SharesLeft(b: Bot, after: Bot, from: Address, to: Option<Address>, amount: nat)
  {
    (forall a ::
       Balance(after.lp, a)
       == Balance(b.lp, a) - (if a == from then amount else 0) + (if to == Some(a) then amount else 0))
    && after.supply == b.supply - (if to.None? then amount else 0)
  }

  /** One allowance changed, the others did not. */
  ghost predicate Allowed(b: Bot, after: Bot, owner: Address, spender: Address, allowance: nat)
  {
    forall o: Address, s: Address ::
      Allowance(after, o, s) == if o == owner && s == spender then allowance else Allowance(b, o, s)
  }

  /** Between transactions a holder can move or burn what it has, and nothing but shares changes. */
  lemma OwnSharesAnswers(c: Settings, b: Bot, sender: Address, to: Address, amount: nat)
    requires c.Valid() && Inv(c, b) && sender != c.self
    ensures var moved := Apply(c, b, TransferBy(sender, to, amount));
            if amount <= Balance(b.lp, sender) then
              moved == b.(lp := moved.lp) && SharesLeft(b, moved, sender, Some(to), amount)
            else moved == b
    ensures var burned := Apply(c, b, BurnBy(sender, amount));
            if amount <= Balance(b.lp, sender) then
              burned == b.(lp := burned.lp, supply := burned.supply) && SharesLeft(b, burned, sender, None, amount)
            else burned == b
  {
    OwnWithinSupply(c, b, sender);
    hide Sum;
  }

  /** Whoever was allowed it can move another's shares, within allowance and balance, and uses the allowance up
      by as much. */
  lemma AllowedMoveAnswers(c: Settings, b: Bot, spender: Address, owner: Address, to: Address, amount: nat)
    requires c.Valid() && Inv(c, b)
    ensures var allowance := Allowance(b, owner, spender);
            var after := Apply(c, b, TransferFromBy(spender, owner, to, amount));
            if amount <= allowance && amount <= Balance(b.lp, owner) then
              after == b.(lp := after.lp, allowances := after.allowances)
              && SharesLeft(b, after, owner, Some(to), amount) && Allowed(b, after, owner, spender, allowance - amount)
            else after == b
  {
    hide Sum;
  }

  /** And can burn them, on the same terms. */
  lemma AllowedBurnAnswers(c: Settings, b: Bot, spender: Address, owner: Address, amount: nat)
    requires c.Valid() && Inv(c, b)
    ensures var allowance := Allowance(b, owner, spender);
            var after := Apply(c, b, BurnFromBy(spender, owner, amount));
            if amount <= allowance && amount <= Balance(b.lp, owner) then
              after == b.(lp := after.lp, supply := after.supply, allowances := after.allowances)
              && SharesLeft(b, after, owner, None, amount) && Allowed(b, after, owner, spender, allowance - amount)
            else after == b
  {
    OwnWithinSupply(c, b, owner);
    hide Sum;
  }

  /** A holder changes what another may spend, never below nothing. */
  lemma ApprovalAnswers(c: Settings, b: Bot, sender: Address, spender: Address, change: int)
    requires c.Valid() && Inv(c, b) && sender != c.self
    ensures var next := Allowance(b, sender, spender) + change;
            var after := Apply(c, b, ApproveBy(sender, spender, change));
            if sender != spender && next < TWO_128 then
              after == b.(allowances := after.allowances)
              && Allowed(b, after, sender, spender, if next < 0 then 0 else next)
            else after == b
  {
    hide Sum;
  }

  /** Nobody's LP shares shrink but by its own message or by somebody it allowed at least as much. */
  lemma SharesShrinkByOwner(c: Settings, b: Bot, a: Action, holder: Address)
    requires c.Valid() && a.Valid(c) && Inv(c, b) && Balance(Apply(c, b, a).lp, holder) < Balance(b.lp, holder)
    ensures match a
            case ProRataBy(sender, _, _, _) => sender == holder
            case SingleBy(sender, _, _, _, _, _, _) => sender == holder
            case TransferBy(sender, _, _) => sender == holder
            case BurnBy(sender, _) => sender == holder
            case TransferFromBy(spender, owner, _, amount) => owner == holder && amount <= Allowance(b, owner, spender)
            case BurnFromBy(spender, owner, amount) => owner == holder && amount <= Allowance(b, owner, spender)
            case _ => false
  {
    hide WithdrawBoth, WithdrawOne, Deposit, Rebalance, Sum, Deposited;
    if Execute(c, b, a).Ok? {
      match a
      case DepositBy(sender, amounts, minShares, swap, venue) =>
        DepositIsDeposited(c, b, sender, amounts, minShares, swap, venue);
        DepositOnlyAdds(c, b, sender, Apply(c, b, a), holder);
      case ProRataBy(sender, shares, recipient, minAssets) =>
        BothNeedsClaims(b, sender, shares, recipient, minAssets);
        BothRedeems(c, b, sender, shares, recipient, minAssets);
      case SingleBy(sender, shares, recipient, payout, minAmount, swap, received) =>
        OneRedeems(c, b, sender, shares, recipient, payout, minAmount, swap, received);
      case RebalanceBy(sender, m) => RebalanceOnlyAdds(c, b, sender, m, holder);
      case _ =>
    }
  }

  lemma DepositOnlyAdds(c: Settings, b: Bot, sender: Address, after: Bot, holder: Address)
    requires Deposited(c, b, sender, after)
    ensures Balance(after.lp, holder) >= Balance(b.lp, holder)
  {
    hide SharesFor;
  }

  lemma RebalanceOnlyAdds(c: Settings, b: Bot, sender: Address, m: Market, holder: Address)
    requires c.Valid() && Inv(c, b) && m.Valid() && Rebalance(c, b, sender, m).Ok?
    ensures Balance(Rebalance(c, b, sender, m).value.lp, holder) >= Balance(b.lp, holder)
  {
    hide Rebalance, BotPair.ChargeFee, NavShares.CreditedValue, NavShares.FlooredNav, FeeMint.FeeShares, Sum, FeeOn;
    var offer, balanced := RebalanceCharges(c, b, sender, m);
    var gained := m.settled.Get(offer.Other()) - b.held.Get(offer.Other());
    FeeIsBooked(c, Quiet(b, m, balanced), NavShares.CreditedValue(offer.Other(), gained, m.twap),
      NavShares.FlooredNav(m.settled, m.twap), m.feeBps);
  }

  // ---- What is pending blocks the rest ----

  /** While a liquidity operation is pending no other one starts, no share moves, and the keeper can neither
      rebalance nor move the reference. */
  lemma OperationBlocks(
    c: Settings, b: Bot, x: Address, y: Address, z: Address, n: nat, change: int, amounts: Amounts, t: Token,
    swap: Swap, deposited: Option<Swap>, price: nat, m: Market)
    requires c.Valid() && b.operation.Some? && b.reference > 0 && m.Valid() && price > 0
    requires LiquidityBusy(b.operation.value)
    ensures StartDeposit(b, x, amounts, n, deposited, price).Err? && StartProRata(b, x, n, y, amounts).Err?
            && StartSingle(b, x, n, y, t, n, swap).Err?
    ensures TransferShares(b, x, y, n).Err? && BurnShares(b, x, n).Err? && Approve(b, x, y, change).Err?
            && TransferFrom(b, x, y, z, n).Err? && BurnFrom(b, x, y, n).Err?
    ensures StartRebalance(c, b, x, m).Err? && SyncReference(c, b, x, price).Err?
  {
    hide Plan, RebalanceRequired, AllocationDeviation;
  }

  /** Every pending operation authorizes something; a transfer list is never empty. */
  predicate LiquidityBusy(operation: Operation) { operation.Transferring? ==> operation.transfers != [] }

  /** The vault trades for a deposit or a withdrawal exactly the swap that is pending, while it runs and does
      not rebalance. */
  lemma VaultTradesAsPending(b: Bot, swap: Swap, received: Option<nat>)
    ensures var r := LiquiditySwap(b, swap, received);
            (r.Ok? <==>
               !b.paused && b.rebalance.None? && b.operation.Some?
               && (match b.operation.value
                   case Depositing(_, _, _, _, _, deposited) => deposited == Some(swap)
                   case Withdrawing(_, _, _, _, _, _, _, pending) => pending == swap
                   case Transferring(_, _) => false)
               && received.Some? && swap.amount <= b.held.Get(swap.offer))
            && (r.Ok? ==>
                  r.value == b.(held := r.value.held)
                  && r.value.held.Get(swap.offer) + swap.amount == b.held.Get(swap.offer)
                  && r.value.held.Get(swap.offer.Other()) == b.held.Get(swap.offer.Other()) + received.value)
  {
  }

  /** And it sends out exactly the transfers that are pending, paused or not, unless it rebalances. */
  lemma VaultPaysAsPending(b: Bot, t: Transfer)
    ensures var r := TransferTo(b, t);
            (r.Ok? <==>
               b.rebalance.None? && b.operation.Some? && b.operation.value.Transferring?
               && t in b.operation.value.transfers && 0 < t.amount <= b.held.Get(t.token))
            && (r.Ok? ==>
                  r.value == b.(held := r.value.held, paid := b.paid + [t])
                  && r.value.held.Get(t.token) + t.amount == b.held.Get(t.token)
                  && r.value.held.Get(t.token.Other()) == b.held.Get(t.token.Other()))
  {
  }
}
