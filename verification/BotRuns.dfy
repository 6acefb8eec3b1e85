/** Runs of the rebalancer pair: what every transaction keeps, price-independent backing of the LP token,
    single-token withdrawal as a refinement of the pro-rata one, and the limits on rebalancing. */
module BotRuns {
  import opened Arithmetic
  import opened Tokens
  import opened Ledger
  import opened ProRata
  import opened Settlement
  import opened ParityPlan
  import opened BotPair
  import NavShares
  import FeeMint

  /** One transaction, or something that happens to the vault from outside. */
  datatype Action =
    | DepositBy(sender: Address, amounts: Amounts, minShares: nat, deposited: Option<Swap>, venue: Venue)
    | ProRataBy(sender: Address, shares: nat, recipient: Address, minAssets: Amounts)
    | SingleBy(sender: Address, shares: nat, recipient: Address, payout: Token, minAmount: nat, swap: Swap,
      received: Option<nat>)
    | TransferBy(sender: Address, to: Address, amount: nat)
    | BurnBy(sender: Address, amount: nat)
    | ApproveBy(sender: Address, spender: Address, change: int)
    | TransferFromBy(spender: Address, owner: Address, to: Address, amount: nat)
    | BurnFromBy(spender: Address, owner: Address, amount: nat)
    | RebalanceBy(sender: Address, market: Market)
    | SyncBy(sender: Address, twap: nat)
    | SetPaused(paused: bool)
    | Donation(gift: Amounts)
  {
    /** Prices are positive, and the liquidity contract never sends these messages itself. */
    predicate Valid(c: Settings) {
      match this
      case DepositBy(sender, _, _, _, venue) => sender != c.self && venue.Valid()
      case ProRataBy(sender, _, _, _) => sender != c.self
      case SingleBy(sender, _, _, _, _, _, _) => sender != c.self
      case TransferBy(sender, _, _) => sender != c.self
      case BurnBy(sender, _) => sender != c.self
      case ApproveBy(sender, _, _) => sender != c.self
      case RebalanceBy(_, market) => market.Valid()
      case SyncBy(_, twap) => twap > 0
      case _ => true
    }
  }

  function Execute(c: Settings, b: Bot, a: Action): Outcome
    requires c.Valid() && a.Valid(c) && b.reference > 0
  {
    match a
    case DepositBy(sender, amounts, minShares, deposited, venue) =>
      Deposit(c, b, sender, amounts, minShares, deposited, venue)
    case ProRataBy(sender, shares, recipient, minAssets) => WithdrawBoth(b, sender, shares, recipient, minAssets)
    case SingleBy(sender, shares, recipient, payout, minAmount, swap, received) =>
      WithdrawOne(b, sender, shares, recipient, payout, minAmount, swap, received)
    case TransferBy(sender, to, amount) => TransferShares(b, sender, to, amount)
    case BurnBy(sender, amount) => BurnShares(b, sender, amount)
    case ApproveBy(sender, spender, change) => Approve(b, sender, spender, change)
    case TransferFromBy(spender, owner, to, amount) => TransferFrom(b, spender, owner, to, amount)
    case BurnFromBy(spender, owner, amount) => BurnFrom(b, spender, owner, amount)
    case RebalanceBy(sender, market) => Rebalance(c, b, sender, market)
    case SyncBy(sender, twap) => SyncReference(c, b, sender, twap)
    case SetPaused(paused) => Ok(b.(paused := paused))
    case Donation(gift) => Ok(b.(held := b.held.Plus(gift)))
  }

  /** A transaction that fails changes nothing. */
  function Apply(c: Settings, b: Bot, a: Action): Bot
    requires c.Valid() && a.Valid(c) && b.reference > 0
  {
    var r := Execute(c, b, a);
    if r.Ok? then r.value else b
  }

  /** Between transactions: no operation and no rebalance pending, the supply is the sum of the balances,
      and once anything is outstanding the contract itself holds the locked shares, spendable by nobody. */
  ghost predicate Inv(c: Settings, b: Bot)
  {
    b.operation.None? && b.rebalance.None? && b.reference > 0
    && b.supply == Sum(b.lp)
    && (b.supply > 0 ==> Balance(b.lp, c.self) >= LOCKED)
    && forall spender :: Allowance(b, c.self, spender) == 0
  }

  // ---- Withdrawals in closed form ----

  /** The books after `shares` of `owner` were redeemed for their claim on both balances, with these transfers
      sent. */
  function Redeemed(b: Bot, owner: Address, shares: nat, sent: seq<Transfer>): Bot
    requires 0 < shares <= Balance(b.lp, owner) && shares <= b.supply
  {
    NavShares.PayoutCovered(b.held, shares, b.supply);
    b.(held := b.held.Minus(NavShares.Payout(b.held, shares, b.supply)),
       lp := b.lp[owner := Balance(b.lp, owner) - shares], supply := b.supply - shares, paid := b.paid + sent)
  }

  lemma OwnWithinSupply(c: Settings, b: Bot, owner: Address)
    requires Inv(c, b)
    ensures Balance(b.lp, owner) <= b.supply
  {
    BalanceWithinSum(b.lp, owner);
  }

  lemma ClaimsArePayout(b: Bot, sender: Address, shares: nat)
    requires Claims(b, sender, shares).Ok? && shares <= b.supply
    ensures Claims(b, sender, shares).value == NavShares.Payout(b.held, shares, b.supply)
    ensures b.held.Covers(Claims(b, sender, shares).value)
  {
    NavShares.PayoutCovered(b.held, shares, b.supply);
  }

  /** The authorized transfers of a list leave exactly, and the operation with the last of them. */
  lemma TransfersLeave(b: Bot, claims: Amounts, recipient: Address)
    requires b.rebalance.None? && b.held.Covers(claims) && claims != Nothing()
    requires b.operation == Some(Transferring(TransfersOf(claims, recipient), |TransfersOf(claims, recipient)|))
    ensures TransferAll(b, TransfersOf(claims, recipient))
            == Ok(b.(held := b.held.Minus(claims), operation := None, paid := b.paid + TransfersOf(claims, recipient)))
  {
    var transfers := TransfersOf(claims, recipient);
    hide TransferAndReply;
    OneLeaves(b, transfers, |transfers|, transfers[0]);
    var first := TransferAndReply(b, transfers[0]).value;
    if |transfers| == 2 {
      OneLeaves(first, transfers, 1, transfers[1]);
      var second := TransferAndReply(first, transfers[1]).value;
      assert transfers[1..] == [transfers[1]] && transfers[1..][1..] == [];
      assert b.paid + [transfers[0]] + [transfers[1]] == b.paid + transfers;
      assert TransferAll(second, []) == Ok(second);
    } else {
      assert transfers == [transfers[0]] && transfers[1..] == [] && TransferAll(first, []) == Ok(first);
    }
  }

  lemma OneLeaves(b: Bot, transfers: seq<Transfer>, remaining: nat, t: Transfer)
    requires b.rebalance.None? && b.operation == Some(Transferring(transfers, remaining)) && remaining > 0
    requires t in transfers && 0 < t.amount <= b.held.Get(t.token)
    ensures TransferAndReply(b, t)
            == Ok(b.(held := b.held.Put(t.token, b.held.Get(t.token) - t.amount),
                     operation := if remaining == 1 then None else Some(Transferring(transfers, remaining - 1)),
                     paid := b.paid + [t]))
  {
  }

  /** A pro-rata withdrawal that goes through pays the floored claims and burns the shares. */
  lemma BothRedeems(c: Settings, b: Bot, sender: Address, shares: nat, recipient: Address, minAssets: Amounts)
    requires Inv(c, b) && Claims(b, sender, shares).Ok?
    requires Claims(b, sender, shares).value.Covers(minAssets) && Claims(b, sender, shares).value != Nothing()
    ensures 0 < shares <= Balance(b.lp, sender) && shares <= b.supply
    ensures WithdrawBoth(b, sender, shares, recipient, minAssets)
            == Ok(Redeemed(b, sender, shares, TransfersOf(Claims(b, sender, shares).value, recipient)))
  {
    OwnWithinSupply(c, b, sender);
    ClaimsArePayout(b, sender, shares);
    var claims := Claims(b, sender, shares).value;
    assert 0 < shares <= Balance(b.lp, sender);
    hide NavShares.Payout, Claims, Inv;
    var started := StartProRata(b, sender, shares, recipient, minAssets).value;
    TransfersLeave(started, claims, recipient);
  }

  lemma BothNeedsClaims(b: Bot, sender: Address, shares: nat, recipient: Address, minAssets: Amounts)
    requires WithdrawBoth(b, sender, shares, recipient, minAssets).Ok?
    ensures Claims(b, sender, shares).Ok?
    ensures Claims(b, sender, shares).value.Covers(minAssets) && Claims(b, sender, shares).value != Nothing()
  {
    hide Claims, TransferAll, Burn;
  }

  /** It goes through exactly when the shares are there and the claims meet the minima and are not both zero. */
  lemma ProRataSucceedsIff(c: Settings, b: Bot, sender: Address, shares: nat, recipient: Address, minAssets: Amounts)
    requires Inv(c, b) && b.held.Fits()
    ensures var r := WithdrawBoth(b, sender, shares, recipient, minAssets);
            (r.Ok? <==>
               0 < shares <= Balance(b.lp, sender) && shares <= b.supply
               && NavShares.Payout(b.held, shares, b.supply).Covers(minAssets)
               && NavShares.Payout(b.held, shares, b.supply) != Nothing())
            && (r.Ok? ==>
                  r.value == Redeemed(b, sender, shares,
                                      TransfersOf(NavShares.Payout(b.held, shares, b.supply), recipient)))
  {
    OwnWithinSupply(c, b, sender);
    if 0 < shares <= Balance(b.lp, sender) {
      ClaimsFit(b, sender, shares);
      ClaimsArePayout(b, sender, shares);
      hide WithdrawBoth, Claims, Inv;
      if WithdrawBoth(b, sender, shares, recipient, minAssets).Ok? {
        BothNeedsClaims(b, sender, shares, recipient, minAssets);
      }
      if Claims(b, sender, shares).value.Covers(minAssets) && Claims(b, sender, shares).value != Nothing() {
        BothRedeems(c, b, sender, shares, recipient, minAssets);
      }
    }
  }

  lemma ClaimsFit(b: Bot, sender: Address, shares: nat)
    requires b.operation.None? && b.held.Fits() && 0 < shares <= Balance(b.lp, sender) && shares <= b.supply
    ensures Claims(b, sender, shares).Ok?
  {
    ClaimWithinBalance(b.held.t0, shares, b.supply);
    ClaimWithinBalance(b.held.t1, shares, b.supply);
  }

  /** What a completed single-token withdrawal sends: the wanted claim and all the swap returned. */
  function Proceeds(b: Bot, shares: nat, recipient: Address, payout: Token, received: nat): Transfer
    requires b.supply > 0
  {
    Transfer(payout, NavShares.Payout(b.held, shares, b.supply).Get(payout) + received, recipient)
  }

  /** A single-token withdrawal that goes through either gave up after a failed swap, or redeemed. */
  lemma OneRedeems(
    c: Settings, b: Bot, sender: Address, shares: nat, recipient: Address, payout: Token, minAmount: nat, swap: Swap,
    received: Option<nat>)
    requires Inv(c, b) && WithdrawOne(b, sender, shares, recipient, payout, minAmount, swap, received).Ok?
    ensures 0 < shares <= Balance(b.lp, sender) && shares <= b.supply
    ensures Claims(b, sender, shares).Ok? && Claims(b, sender, shares).value != Nothing()
    ensures WithdrawOne(b, sender, shares, recipient, payout, minAmount, swap, received)
            == Ok(if b.paused || received.None? then b
                  else Redeemed(b, sender, shares, [Proceeds(b, shares, recipient, payout, received.value)]))
  {
    OwnWithinSupply(c, b, sender);
    ClaimsArePayout(b, sender, shares);
    var claims := Claims(b, sender, shares).value;
    hide NavShares.Payout, Inv;
    var started := StartSingle(b, sender, shares, recipient, payout, minAmount, swap).value;
    hide Claims;
    if !b.paused && received.Some? {
      SingleCompletes(b, started, claims, sender, shares, recipient, payout, minAmount, swap, received.value);
    }
  }

  /** Whatever the swap returns, a single-token withdrawal that completes leaves the same books as the
      pro-rata one of the same shares, and sends one transfer instead of the claims; a failed swap leaves
      everything as it was. */
  lemma SingleRefinesProRata(
    c: Settings, b: Bot, sender: Address, shares: nat, recipient: Address, payout: Token, minAmount: nat, swap: Swap,
    received: Option<nat>)
    requires Inv(c, b)
    requires WithdrawOne(b, sender, shares, recipient, payout, minAmount, swap, received).Ok?
    ensures var after := WithdrawOne(b, sender, shares, recipient, payout, minAmount, swap, received).value;
            if b.paused || received.None? then after == b
            else
              var both := WithdrawBoth(b, sender, shares, recipient, Nothing());
              both.Ok? && after == both.value.(paid := after.paid) && |after.paid| == |b.paid| + 1
  {
    hide WithdrawOne, WithdrawBoth, Inv, Claims;
    OneRedeems(c, b, sender, shares, recipient, payout, minAmount, swap, received);
    BothRedeems(c, b, sender, shares, recipient, Nothing());
  }

  lemma SingleCompletes(
    b: Bot, started: Bot, claims: Amounts, sender: Address, shares: nat, recipient: Address, payout: Token,
    minAmount: nat, swap: Swap, received: nat)
    requires !b.paused && b.operation.None? && b.rebalance.None?
    requires b.held.Covers(claims) && shares <= Balance(b.lp, sender) && shares <= b.supply
    requires swap.offer == payout.Other() && swap.amount == claims.Get(payout.Other())
    requires started
             == b.(operation := Some(Withdrawing(sender, shares, recipient, payout, claims.Get(payout),
                b.held.Get(payout), minAmount, swap)))
    ensures var swapped := LiquiditySwap(started, swap, Some(received));
            var sent := claims.Get(payout) + received;
            swapped.Ok?
            && (CompleteSingle(swapped.value, true) == Err(MinimumNotMet) <==> sent < minAmount)
            && (sent >= minAmount ==>
                  var completed := CompleteSingle(swapped.value, true);
                  completed.Ok?
                  && completed.value.operation == Some(Transferring([Transfer(payout, sent, recipient)], 1))
                  && TransferAll(completed.value, [Transfer(payout, sent, recipient)])
                     == if sent == 0 then Err(ZeroAmount)
                        else Ok(b.(held := b.held.Minus(claims), lp := b.lp[sender := Balance(b.lp, sender) - shares],
                                   supply := b.supply - shares, paid := b.paid + [Transfer(payout, sent, recipient)])))
  {
    var swapped := LiquiditySwap(started, swap, Some(received)).value;
    var sent := claims.Get(payout) + received;
    if sent >= minAmount {
      var completed := CompleteSingle(swapped, true).value;
      var paid := Transfer(payout, sent, recipient);
      if sent > 0 {
        var last := TransferAndReply(completed, paid).value;
        assert TransferAll(last, [paid][1..]) == Ok(last);
      }
    }
  }

  // ---- Deposits ----

  /** What a deposit that goes through did: the balances only grew, and it minted the shares due plus, the
      first time, the locked ones. */
  ghost predicate Deposited(c: Settings, b: Bot, sender: Address, after: Bot)
  {
    after.held.Covers(b.held) && after.operation.None?
    && after == b.(held := after.held, lp := after.lp, supply := after.supply)
    && exists price: nat :: price > 0 && DepositedAt(c, b, sender, after, price)
  }

  ghost predicate DepositedAt(c: Settings, b: Bot, sender: Address, after: Bot, price: nat)
    requires price > 0
  {
    var due := SharesFor(c, b.held, after.held, b.supply, price);
    due.Ok? && due.value.1 > 0
    && after.lp == Credit(if b.supply == 0 then Credit(b.lp, c.self, due.value.0) else b.lp, sender, due.value.1)
    && after.supply == b.supply + due.value.0 + due.value.1
  }

  lemma SettledDeposit(
    b: Bot, sender: Address, amounts: Amounts, minShares: nat, swap: Option<Swap>, venue: Venue)
    requires venue.Valid() && b.operation.None?
    requires StartDeposit(b, sender, amounts, minShares, swap, venue.price).Ok?
    requires var started := StartDeposit(b, sender, amounts, minShares, swap, venue.price).value;
             if swap.Some? then LiquiditySwap(started, swap.value, venue.received).Ok? else Finalize(started).Ok?
    ensures var started := StartDeposit(b, sender, amounts, minShares, swap, venue.price).value;
            var settled := if swap.Some? then LiquiditySwap(started, swap.value, venue.received).value
              else Finalize(started).value;
            settled.held.Covers(b.held) && settled == started.(held := settled.held)
            && started == b.(operation := Some(Depositing(sender, b.held, b.supply, venue.price, minShares, swap)),
               held := started.held)
  {
  }

  lemma CompletedDeposit(
    c: Settings, b: Bot, sender: Address, settled: Bot, minShares: nat, swap: Option<Swap>, price: nat,
    settledPrice: nat)
    requires price > 0 && settledPrice > 0 && b.operation.None? && settled.held.Covers(b.held)
    requires settled == b.(operation := Some(Depositing(sender, b.held, b.supply, price, minShares, swap)),
             held := settled.held)
    requires CompleteDeposit(c, settled, settledPrice).Ok?
    ensures Deposited(c, b, sender, CompleteDeposit(c, settled, settledPrice).value)
  {
    hide SharesFor, AllocationDeviation, Credit;
    var after := CompleteDeposit(c, settled, settledPrice).value;
    FirstOnly(c, b.held, settled.held, b.supply, price);
    assert DepositedAt(c, b, sender, after, price);
  }

  lemma FirstOnly(c: Settings, pre: Amounts, post: Amounts, preSupply: nat, price: nat)
    requires price > 0 && SharesFor(c, pre, post, preSupply, price).Ok?
    ensures preSupply > 0 ==> SharesFor(c, pre, post, preSupply, price).value.0 == 0
    ensures preSupply == 0 ==> SharesFor(c, pre, post, preSupply, price).value.0 >= LOCKED
  {
  }

  lemma DepositIsDeposited(
    c: Settings, b: Bot, sender: Address, amounts: Amounts, minShares: nat, swap: Option<Swap>, venue: Venue)
    requires venue.Valid() && b.operation.None? && Deposit(c, b, sender, amounts, minShares, swap, venue).Ok?
    ensures Deposited(c, b, sender, Deposit(c, b, sender, amounts, minShares, swap, venue).value)
  {
    hide LiquiditySwap, Finalize, CompleteDeposit, Deposited, StartDeposit;
    SettledDeposit(b, sender, amounts, minShares, swap, venue);
    var started := StartDeposit(b, sender, amounts, minShares, swap, venue.price).value;
    var settled := if swap.Some? then LiquiditySwap(started, swap.value, venue.received).value
      else Finalize(started).value;
    CompletedDeposit(c, b, sender, settled, minShares, swap, venue.price, venue.settledPrice);
  }

  /** Established deposits are minted against both balances separately, so neither falls per share. */
  lemma ProportionalSharesKeepBacking(pre: Amounts, post: Amounts, supply: nat, t: Token)
    requires ProportionalShares(pre, post, supply).Ok?
    ensures BackedAtLeast(Pool(post.Get(t), supply + ProportionalShares(pre, post, supply).value),
            Pool(pre.Get(t), supply))
  {
    var shares := ProportionalShares(pre, post, supply).value;
    hide Floor;
    AddedCoversShares(pre.Get(t), post.Get(t) - pre.Get(t), supply, shares);
  }

  lemma AddedCoversShares(pre: nat, added: nat, supply: nat, shares: nat)
    requires pre > 0 && shares <= Floor(added * supply, pre)
    ensures (pre + added) * supply >= pre * (supply + shares)
  {
    FloorIsLargest(added * supply, pre, shares);
    assert (pre + added) * supply == pre * supply + added * supply;
    assert pre * (supply + shares) == pre * supply + shares * pre;
  }

  /** They are the most shares both added amounts can back. */
  lemma ProportionalSharesAreLargest(pre: Amounts, post: Amounts, supply: nat, x: nat)
    requires ProportionalShares(pre, post, supply).Ok?
    ensures x <= ProportionalShares(pre, post, supply).value
            <==> x * pre.t0 <= (post.t0 - pre.t0) * supply && x * pre.t1 <= (post.t1 - pre.t1) * supply
  {
    FloorIsLargest((post.t0 - pre.t0) * supply, pre.t0, x);
    FloorIsLargest((post.t1 - pre.t1) * supply, pre.t1, x);
    hide Floor;
  }

  /** The first deposit locks the worth of whatever was in the vault before it plus the fixed amount, and
      leaves one share for each unit of value: the supply is the value of the vault. */
  lemma FirstDepositSetsPar(
    c: Settings, b: Bot, sender: Address, amounts: Amounts, minShares: nat, swap: Option<Swap>, venue: Venue)
    requires venue.Valid() && Inv(c, b) && b.supply == 0 && sender != c.self
    requires Deposit(c, b, sender, amounts, minShares, swap, venue).Ok?
    ensures var after := Deposit(c, b, sender, amounts, minShares, swap, venue).value;
            after.supply == NavShares.FlooredNav(after.held, venue.price)
            && Balance(after.lp, c.self) - Balance(b.lp, c.self) == NavShares.FlooredNav(b.held, venue.price) + LOCKED
            && Balance(after.lp, sender) - Balance(b.lp, sender) >= minShares
  {
    hide LiquiditySwap, Finalize, AllocationDeviation, StartDeposit, Sum, NavShares.FlooredNav;
    SettledDeposit(b, sender, amounts, minShares, swap, venue);
  }

  function PoolOf(b: Bot, t: Token): Pool { Pool(b.held.Get(t), b.supply) }

  lemma DepositKeepsBacking(c: Settings, b: Bot, sender: Address, after: Bot, t: Token)
    requires b.supply > 0 && Deposited(c, b, sender, after)
    ensures BackedAtLeast(PoolOf(after, t), PoolOf(b, t)) && after.supply >= b.supply
  {
    var price: nat :| price > 0 && DepositedAt(c, b, sender, after, price);
    ProportionalSharesKeepBacking(b.held, after.held, b.supply, t);
  }

  /** Redeeming the minted shares at once returns, of each token, at most what the deposit added. */
  lemma DepositRoundTrip(c: Settings, b: Bot, sender: Address, after: Bot, t: Token)
    requires b.supply > 0 && Deposited(c, b, sender, after)
    ensures after.supply > b.supply
    ensures NavShares.Payout(after.held, after.supply - b.supply,
            after.supply).Get(t) <= after.held.Get(t) - b.held.Get(t)
  {
    var price: nat :| price > 0 && DepositedAt(c, b, sender, after, price);
    FirstOnly(c, b.held, after.held, b.supply, price);
    DepositKeepsBacking(c, b, sender, after, t);
    ClaimWithinAdded(b.held.Get(t), after.held.Get(t) - b.held.Get(t), b.supply, after.supply - b.supply);
  }

  lemma ClaimWithinAdded(pre: nat, added: nat, supply: nat, shares: nat)
    requires shares > 0 && (pre + added) * supply >= pre * (supply + shares)
    ensures Claim(pre + added, shares, supply + shares) <= added
  {
    assert (pre + added) * supply == pre * supply + added * supply;
    assert pre * (supply + shares) == pre * supply + pre * shares;
    assert (pre + added) * shares == pre * shares + added * shares;
    assert added * (supply + shares) == added * supply + added * shares;
    FloorMonotone((pre + added) * shares, added * (supply + shares), supply + shares);
    FloorOfMultiple(added, supply + shares);
  }

  lemma DepositKeepsInv(c: Settings, b: Bot, sender: Address, after: Bot)
    requires Inv(c, b) && Deposited(c, b, sender, after) && sender != c.self
    ensures Inv(c, after)
  {
    var price: nat :| price > 0 && DepositedAt(c, b, sender, after, price);
    var due := SharesFor(c, b.held, after.held, b.supply, price).value;
    FirstOnly(c, b.held, after.held, b.supply, price);
    var first := if b.supply == 0 then Credit(b.lp, c.self, due.0) else b.lp;
    SumOfUpdate(b.lp, c.self, Balance(b.lp, c.self) + due.0);
    SumOfUpdate(first, sender, Balance(first, sender) + due.1);
    hide SharesFor, Sum;
    assert Balance(after.lp, c.self) == Balance(first, c.self);
    assert forall spender :: Allowance(after, c.self, spender) == Allowance(b, c.self, spender);
  }

  // ---- What every transaction keeps ----

  lemma RedeemedKeepsInv(c: Settings, b: Bot, owner: Address, shares: nat, sent: seq<Transfer>)
    requires Inv(c, b) && 0 < shares <= Balance(b.lp, owner) && shares <= b.supply && owner != c.self
    ensures Inv(c, Redeemed(b, owner, shares, sent))
  {
    SumOfUpdate(b.lp, owner, Balance(b.lp, owner) - shares);
    SupplyCoversLocked(c, b);
    hide Sum;
    var after := Redeemed(b, owner, shares, sent);
    assert forall spender :: Allowance(after, c.self, spender) == Allowance(b, c.self, spender);
  }

  lemma SupplyCoversLocked(c: Settings, b: Bot)
    requires Inv(c, b)
    ensures b.supply == 0 || b.supply >= LOCKED
  {
    BalanceWithinSum(b.lp, c.self);
  }

  /** Moves of LP shares: between accounts, or out of the supply. */
  ghost predicate SharesMoved(c: Settings, b: Bot, after: Bot)
  {
    after.held == b.held && after.operation == b.operation && after.rebalance == b.rebalance
    && after.paid == b.paid && after.reference == b.reference
    && after.supply <= b.supply && after.supply == Sum(after.lp)
    && Balance(after.lp, c.self) >= Balance(b.lp, c.self)
    && (forall spender :: Allowance(b, c.self, spender) == 0 ==> Allowance(after, c.self, spender) == 0)
  }

  lemma TransferMoves(c: Settings, b: Bot, sender: Address, to: Address, amount: nat)
    requires b.supply == Sum(b.lp) && (sender != c.self || amount == 0) && TransferShares(b, sender, to, amount).Ok?
    ensures SharesMoved(c, b, TransferShares(b, sender, to, amount).value)
  {
    var less := b.lp[sender := Balance(b.lp, sender) - amount];
    SumOfUpdate(b.lp, sender, Balance(b.lp, sender) - amount);
    SumOfUpdate(less, to, Balance(less, to) + amount);
    hide Sum;
  }

  lemma BurnMoves(c: Settings, b: Bot, sender: Address, amount: nat)
    requires b.supply == Sum(b.lp) && (sender != c.self || amount == 0) && BurnShares(b, sender, amount).Ok?
    ensures SharesMoved(c, b, BurnShares(b, sender, amount).value)
  {
    SumOfUpdate(b.lp, sender, Balance(b.lp, sender) - amount);
    hide Sum;
  }

  lemma SpendMoves(c: Settings, b: Bot, spender: Address, owner: Address, amount: nat)
    requires b.supply == Sum(b.lp) && Spend(b, spender, owner, amount).Ok?
    ensures SharesMoved(c, b, Spend(b, spender, owner, amount).value)
    ensures owner == c.self && Allowance(b, c.self, spender) == 0 ==> amount == 0
  {
    hide Sum;
  }

  lemma MovedTwice(c: Settings, b: Bot, mid: Bot, after: Bot)
    requires SharesMoved(c, b, mid) && SharesMoved(c, mid, after)
    ensures SharesMoved(c, b, after)
  {
    hide Sum;
  }

  lemma MovedKeepsInv(c: Settings, b: Bot, after: Bot)
    requires Inv(c, b) && SharesMoved(c, b, after)
    ensures Inv(c, after)
  {
    BalanceWithinSum(after.lp, c.self);
  }

  /** The LP token's own messages, by anyone but the contract, move shares and nothing else. */
  predicate LpAction(a: Action)
  {
    a.TransferBy? || a.BurnBy? || a.ApproveBy? || a.TransferFromBy? || a.BurnFromBy?
  }

  lemma LpActionMoves(c: Settings, b: Bot, a: Action)
    requires c.Valid() && a.Valid(c) && Inv(c, b) && LpAction(a) && Execute(c, b, a).Ok?
    ensures SharesMoved(c, b, Execute(c, b, a).value)
  {
    hide Sum, SharesMoved, TransferShares, BurnShares, Spend;
    match a
    case TransferBy(sender, to, amount) => TransferMoves(c, b, sender, to, amount);
    case BurnBy(sender, amount) => BurnMoves(c, b, sender, amount);
    case ApproveBy(sender, spender, change) => ApproveMoves(c, b, sender, spender, change);
    case TransferFromBy(spender, owner, to, amount) =>
      SpendMoves(c, b, spender, owner, amount);
      var spent := Spend(b, spender, owner, amount).value;
      SpentSupply(c, b, spent);
      TransferMoves(c, spent, owner, to, amount);
      MovedTwice(c, b, spent, TransferShares(spent, owner, to, amount).value);
    case BurnFromBy(spender, owner, amount) =>
      SpendMoves(c, b, spender, owner, amount);
      var spent := Spend(b, spender, owner, amount).value;
      SpentSupply(c, b, spent);
      BurnMoves(c, spent, owner, amount);
      MovedTwice(c, b, spent, BurnShares(spent, owner, amount).value);
  }

  lemma SpentSupply(c: Settings, b: Bot, spent: Bot)
    requires SharesMoved(c, b, spent)
    ensures spent.supply == Sum(spent.lp)
  {
  }

  lemma ApproveMoves(c: Settings, b: Bot, sender: Address, spender: Address, change: int)
    requires b.supply == Sum(b.lp) && sender != c.self && Approve(b, sender, spender, change).Ok?
    ensures SharesMoved(c, b, Approve(b, sender, spender, change).value)
  {
    hide Sum;
  }

  /** A rebalance changes balances, reference and, by the fee, the collector's shares. */
  lemma RebalanceKeepsInv(c: Settings, b: Bot, sender: Address, m: Market)
    requires c.Valid() && m.Valid() && Inv(c, b) && Rebalance(c, b, sender, m).Ok?
    ensures Inv(c, Rebalance(c, b, sender, m).value)
    ensures Rebalance(c, b, sender, m).value.supply >= b.supply
  {
    hide Sum, ValidateSettlement, AllocationDeviation, PlannedOffer, RatioDeviation;
    var p := StartRebalance(c, b, sender, m).value.rebalance.value;
    var ask := p.offer.Other();
    var outcome := ValidateOutcome(p.preDeviation, AllocationDeviation(m.settled, p.twap), c.tolerance).value;
    var quiet := b.(held := m.settled, reference := if outcome then p.twap else b.reference);
    QuietKeepsInv(c, b, quiet);
    FeeKeepsInv(c, quiet, NavShares.CreditedValue(ask, m.settled.Get(ask) - p.balances.Get(ask), p.twap),
                Nav(m.settled, p.twap).value, m.feeBps);
  }

  lemma FeeKeepsInv(c: Settings, b: Bot, value: nat, assets: nat, feeBps: nat)
    requires Inv(c, b) && ChargeFee(c, b, value, assets, feeBps).Ok?
    ensures Inv(c, ChargeFee(c, b, value, assets, feeBps).value)
    ensures ChargeFee(c, b, value, assets, feeBps).value.supply >= b.supply
  {
    var after := ChargeFee(c, b, value, assets, feeBps).value;
    if after != b {
      var collector := c.collector.value;
      SumOfUpdate(b.lp, collector, Balance(b.lp, collector) + (after.supply - b.supply));
      hide Sum;
      assert b.supply > 0;
      assert forall spender :: Allowance(after, c.self, spender) == Allowance(b, c.self, spender);
    }
  }

  lemma StepKeepsInv(c: Settings, b: Bot, a: Action)
    requires c.Valid() && a.Valid(c) && Inv(c, b)
    ensures Inv(c, Apply(c, b, a))
  {
    hide Inv, WithdrawBoth, WithdrawOne, Deposit, Rebalance, TransferShares, BurnShares, Approve, TransferFrom,
      BurnFrom, Deposited;
    Resting(c, b);
    if Execute(c, b, a).Ok? {
      match a
      case DepositBy(sender, amounts, minShares, swap, venue) =>
        DepositIsDeposited(c, b, sender, amounts, minShares, swap, venue);
        DepositKeepsInv(c, b, sender, Execute(c, b, a).value);
      case ProRataBy(sender, shares, recipient, minAssets) =>
        BothNeedsClaims(b, sender, shares, recipient, minAssets);
        BothRedeems(c, b, sender, shares, recipient, minAssets);
        RedeemedKeepsInv(c, b, sender, shares, TransfersOf(Claims(b, sender, shares).value, recipient));
      case SingleBy(sender, shares, recipient, payout, minAmount, swap, received) =>
        OneRedeems(c, b, sender, shares, recipient, payout, minAmount, swap, received);
        if received.Some? {
          RedeemedKeepsInv(c, b, sender, shares, [Proceeds(b, shares, recipient, payout, received.value)]);
        }
      case RebalanceBy(sender, m) => RebalanceKeepsInv(c, b, sender, m);
      case SyncBy(sender, twap) => QuietKeepsInv(c, b, Execute(c, b, a).value);
      case SetPaused(paused) => QuietKeepsInv(c, b, Execute(c, b, a).value);
      case Donation(gift) => QuietKeepsInv(c, b, Execute(c, b, a).value);
      case _ =>
        LpActionMoves(c, b, a);
        MovedKeepsInv(c, b, Execute(c, b, a).value);
    }
  }

  lemma Resting(c: Settings, b: Bot)
    requires Inv(c, b)
    ensures b.operation.None? && b.rebalance.None? && b.reference > 0
  {
  }

  lemma QuietKeepsInv(c: Settings, b: Bot, after: Bot)
    requires Inv(c, b) && after == b.(held := after.held, reference := after.reference, paused := after.paused)
    requires after.reference > 0
    ensures Inv(c, after)
  {
    assert forall spender :: Allowance(after, c.self, spender) == Allowance(b, c.self, spender);
  }

  function Run(c: Settings, b: Bot, actions: seq<Action>): Bot
    requires c.Valid() && Inv(c, b) && forall a :: a in actions ==> a.Valid(c)
    decreases |actions|
  {
    if actions == [] then b
    else (StepKeepsInv(c, b, actions[0]); Run(c, Apply(c, b, actions[0]), actions[1..]))
  }

  // ---- Price-independent backing ----

  lemma StepKeepsBacking(c: Settings, b: Bot, a: Action, t: Token)
    requires c.Valid() && a.Valid(c) && Inv(c, b) && !a.RebalanceBy? && b.supply > 0
    ensures BackedAtLeast(PoolOf(Apply(c, b, a), t), PoolOf(b, t))
  {
    hide Inv, WithdrawBoth, WithdrawOne, Deposit, TransferShares, BurnShares, Approve, TransferFrom, BurnFrom,
      Deposited,
         BackedAtLeast, SharesMoved;
    Resting(c, b);
    BackedSame(PoolOf(b, t));
    if Execute(c, b, a).Ok? {
      var after := Execute(c, b, a).value;
      match a
      case DepositBy(sender, amounts, minShares, swap, venue) =>
        DepositIsDeposited(c, b, sender, amounts, minShares, swap, venue);
        DepositKeepsBacking(c, b, sender, after, t);
      case ProRataBy(sender, shares, recipient, minAssets) =>
        BothNeedsClaims(b, sender, shares, recipient, minAssets);
        BothRedeems(c, b, sender, shares, recipient, minAssets);
        RedeemedKeepsBacking(b, sender, shares, TransfersOf(Claims(b, sender, shares).value, recipient), t);
      case SingleBy(sender, shares, recipient, payout, minAmount, swap, received) =>
        OneRedeems(c, b, sender, shares, recipient, payout, minAmount, swap, received);
        if received.Some? {
          RedeemedKeepsBacking(b, sender, shares, [Proceeds(b, shares, recipient, payout, received.value)], t);
        }
      case SyncBy(sender, twap) =>
      case SetPaused(paused) =>
      case Donation(gift) => BackedByMore(b.held.Get(t), gift.Get(t), b.supply);
      case _ =>
        LpActionMoves(c, b, a);
        MovedKeepsBacking(c, b, after, t);
    }
  }

  lemma BackedSame(p: Pool)
    ensures BackedAtLeast(p, p)
  {
  }

  lemma BackedByMore(balance: nat, gift: nat, supply: nat)
    ensures BackedAtLeast(Pool(balance + gift, supply), Pool(balance, supply))
  {
    MulLe(balance, balance + gift, supply);
  }

  lemma MovedKeepsBacking(c: Settings, b: Bot, after: Bot, t: Token)
    requires SharesMoved(c, b, after)
    ensures BackedAtLeast(PoolOf(after, t), PoolOf(b, t))
  {
    hide Sum;
    MulLe(after.supply, b.supply, b.held.Get(t));
  }

  lemma RedeemedKeepsBacking(b: Bot, owner: Address, shares: nat, sent: seq<Transfer>, t: Token)
    requires 0 < shares <= Balance(b.lp, owner) && shares <= b.supply
    ensures BackedAtLeast(PoolOf(Redeemed(b, owner, shares, sent), t), PoolOf(b, t))
  {
    BurnKeepsBacking(PoolOf(b, t), shares);
    NavShares.PayoutCovered(b.held, shares, b.supply);
    assert PoolOf(Redeemed(b, owner, shares, sent), t) == PoolBurn(PoolOf(b, t), shares);
  }

  /** Over any run of deposits, withdrawals of both kinds, LP transfers and burns, and donations, each
      token's balance per LP share never falls, at whatever prices the deposits were valued. */
  lemma {:induction false} BackingNeverFalls(c: Settings, b: Bot, actions: seq<Action>, t: Token)
    requires c.Valid() && Inv(c, b) && b.supply > 0
    requires forall a :: a in actions ==> a.Valid(c) && !a.RebalanceBy?
    ensures BackedAtLeast(PoolOf(Run(c, b, actions), t), PoolOf(b, t))
    decreases |actions|
  {
    hide Inv, Apply, BackedAtLeast;
    if actions == [] {
      BackedSame(PoolOf(b, t));
    } else {
      Resting(c, b);
      var mid := Apply(c, b, actions[0]);
      StepKeepsInv(c, b, actions[0]);
      StepKeepsBacking(c, b, actions[0], t);
      StepKeepsSupply(c, b, actions[0]);
      BackingNeverFalls(c, mid, actions[1..], t);
      BackingTransitive(PoolOf(b, t), PoolOf(mid, t), PoolOf(Run(c, mid, actions[1..]), t));
    }
  }

  /** The locked first shares keep the supply positive for ever: nothing redeems or burns them. */
  lemma StepKeepsSupply(c: Settings, b: Bot, a: Action)
    requires c.Valid() && a.Valid(c) && Inv(c, b) && b.supply > 0
    ensures Apply(c, b, a).supply >= LOCKED && Balance(Apply(c, b, a).lp, c.self) >= LOCKED
  {
    hide WithdrawBoth, WithdrawOne, Deposit, Rebalance, TransferShares, BurnShares, Approve, TransferFrom, BurnFrom,
         Sum, Deposited, SharesMoved;
    StepKeepsInv(c, b, a);
    SupplyCoversLocked(c, b);
    if Execute(c, b, a).Ok? {
      var after := Execute(c, b, a).value;
      SupplyCoversLocked(c, after);
      match a
      case DepositBy(sender, amounts, minShares, swap, venue) =>
        DepositIsDeposited(c, b, sender, amounts, minShares, swap, venue);
        DepositKeepsBacking(c, b, sender, after, Token0);
      case ProRataBy(sender, shares, recipient, minAssets) =>
        BothNeedsClaims(b, sender, shares, recipient, minAssets);
        BothRedeems(c, b, sender, shares, recipient, minAssets);
        OthersLocked(c, b, sender, shares, TransfersOf(Claims(b, sender, shares).value, recipient));
      case SingleBy(sender, shares, recipient, payout, minAmount, swap, received) =>
        OneRedeems(c, b, sender, shares, recipient, payout, minAmount, swap, received);
        if received.Some? {
          OthersLocked(c, b, sender, shares, [Proceeds(b, shares, recipient, payout, received.value)]);
        }
      case RebalanceBy(sender, m) => RebalanceKeepsInv(c, b, sender, m);
      case SyncBy(sender, twap) =>
      case SetPaused(paused) =>
      case Donation(gift) =>
      case _ =>
        LpActionMoves(c, b, a);
        MovedKeepsLocked(c, b, after);
    }
  }

  lemma OthersLocked(c: Settings, b: Bot, owner: Address, shares: nat, sent: seq<Transfer>)
    requires Inv(c, b) && b.supply > 0 && owner != c.self && 0 < shares <= Balance(b.lp, owner) && shares <= b.supply
    ensures Redeemed(b, owner, shares, sent).supply > 0
  {
    RedeemedKeepsInv(c, b, owner, shares, sent);
    BalanceWithinSum(Redeemed(b, owner, shares, sent).lp, c.self);
  }

  lemma MovedKeepsLocked(c: Settings, b: Bot, after: Bot)
    requires Inv(c, b) && b.supply > 0 && SharesMoved(c, b, after)
    ensures after.supply > 0
  {
    BalanceWithinSum(after.lp, c.self);
  }

  lemma {:induction false} SupplyStaysPositive(c: Settings, b: Bot, actions: seq<Action>)
    requires c.Valid() && Inv(c, b) && b.supply > 0 && forall a :: a in actions ==> a.Valid(c)
    ensures Run(c, b, actions).supply > 0 && Inv(c, Run(c, b, actions))
    decreases |actions|
  {
    hide Inv, Apply;
    if actions != [] {
      Resting(c, b);
      StepKeepsInv(c, b, actions[0]);
      StepKeepsSupply(c, b, actions[0]);
      SupplyStaysPositive(c, Apply(c, b, actions[0]), actions[1..]);
    }
  }

  // ---- Rebalancing ----

  /** What an accepted rebalance did: followed its plan, settled within it, ended within tolerance (which
      moves the reference) or strictly closer to parity. */
  lemma RebalanceFollowsPlan(c: Settings, b: Bot, sender: Address, m: Market)
    requires c.Valid() && m.Valid() && b.reference > 0 && Rebalance(c, b, sender, m).Ok?
    ensures var after := Rebalance(c, b, sender, m).value;
            var before, now := AllocationDeviation(b.held, m.twap), AllocationDeviation(after.held, m.twap);
            Plan(c, b, m).Ok? && ValidateSettlement(Plan(c, b, m).value, after.held).Ok?
            && RebalanceRequired(c, b, m.twap)
            && (now <= c.tolerance || now < before)
            && after.reference == (if now <= c.tolerance then m.twap else b.reference)
            && after.held == m.settled && after.rebalance.None? && after.operation == b.operation
  {
    hide AllocationDeviation, PlannedOffer, RatioDeviation, FeeMint.FeeShares;
  }

  /** Bounded loss per rebalance, as for the market vault. */
  lemma RebalanceLossBounded(c: Settings, b: Bot, sender: Address, m: Market)
    requires c.Valid() && m.Valid() && b.reference > 0 && b.held.Fits() && Rebalance(c, b, sender, m).Ok?
    ensures Plan(c, b, m).Ok?
    ensures var p := Plan(c, b, m).value;
            var loss := Value(b.held, m.twap) - Value(Rebalance(c, b, sender, m).value.held, m.twap);
            var unit := UnitValue(p.offer.Other(), m.twap);
            loss * BPS <= ValueOf(p.offer, p.amount, m.twap) * c.maxExecutionDeviation + 2 * BPS * unit
            && loss * BPS * BPS <= Value(b.held, m.twap) * c.maxTrade * c.maxExecutionDeviation + 2 * BPS * BPS * unit
  {
    RebalanceFollowsPlan(c, b, sender, m);
    var p := Plan(c, b, m).value;
    PlannedOfferIsAimed(b.held, m.twap, c.maxTrade);
    hide Rebalance, AllocationDeviation, RatioDeviation;
    BoundedLoss(p, m.settled, c.maxExecutionDeviation, m.quoteFloor);
    BoundedLossOfPortfolio(p, m.settled, c.maxTrade, c.maxExecutionDeviation, m.quoteFloor);
  }

  ghost predicate CommitsTo(c: Settings, b: Bot, after: Bot, twap: nat)
  {
    c.Valid() && b.reference > 0
    && exists sender: Address, m: Market :: m.Valid() && m.twap == twap && Rebalance(c, b, sender, m) == Ok(after)
  }

  ghost predicate CommitsInARow(c: Settings, run: seq<Bot>, twap: nat)
  {
    |run| > 1 ==> CommitsTo(c, run[0], run[1], twap) && CommitsInARow(c, run[1..], twap)
  }

  /** After a rebalance that ended within tolerance nothing more is due at that price. */
  lemma NothingDueWithinTolerance(c: Settings, after: Bot, twap: nat)
    requires c.Valid() && twap > 0 && after.reference == twap && AllocationDeviation(after.held, twap) <= c.tolerance
    ensures !RebalanceRequired(c, after, twap)
  {
    FloorUnique(0, twap, 0);
  }

  /** Rebalancing terminates: at an unchanged TWAP at most deviation + 1 rebalances commit in a row. */
  lemma {:induction false} RebalancingTerminates(c: Settings, run: seq<Bot>, twap: nat)
    requires |run| > 0 && twap > 0 && CommitsInARow(c, run, twap)
    ensures |run| - 1 <= AllocationDeviation(run[0].held, twap) + 1
    decreases |run|
  {
    hide Rebalance, AllocationDeviation;
    if |run| > 1 {
      var sender: Address, m: Market :| m.Valid() && m.twap == twap && Rebalance(c, run[0], sender, m) == Ok(run[1]);
      RebalanceFollowsPlan(c, run[0], sender, m);
      if |run| > 2 {
        assert CommitsTo(c, run[1..][0], run[1..][1], twap);
        var sender': Address, m': Market :| m'.Valid() && m'.twap == twap
          && Rebalance(c, run[1], sender', m') == Ok(run[1..][1]);
        RebalanceFollowsPlan(c, run[1], sender', m');
        if AllocationDeviation(run[1].held, twap) <= c.tolerance {
          NothingDueWithinTolerance(c, run[1], twap);
        }
        RebalancingTerminates(c, run[1..], twap);
      }
    }
  }
}
