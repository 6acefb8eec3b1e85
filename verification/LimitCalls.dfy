/** What each call on a limit-grid vault at rest answers, in storage fields and balances alone: exactly when
    it commits, what it then pays, queues and changes, and that otherwise the world stays as it was. */
module LimitCalls {
  import opened Arithmetic
  import opened Tokens
  import opened Ledger
  import opened LimitGrid
  import opened LimitChain
  import opened LimitInvariant
  import opened LimitSteps
  import opened LimitTheorems
  import LimitExit
  import ProRata
  import NavShares

  // ---- Payouts ----

  /** `holder` burned shares for its part of `held`; what is left of that is free, the real balance fell by
      what was paid, and neither another holder nor an order was touched. */
  ghost predicate BurnedFor(before: Books, after: Books, held: Amounts, holder: Address, burned: nat)
  {
    (forall t: Token ::
       ProRata.PaysMost(held.Get(t), after.v.free.Get(t), burned, before.v.total)
       && before.bal.Get(t) - after.bal.Get(t) == held.Get(t) - after.v.free.Get(t))
    && after.v.total == before.v.total - burned
    && (forall a :: Balance(after.v.shares, a) == Balance(before.v.shares, a) - (if a == holder then burned else 0))
    && after.v == before.v.(free := after.v.free, total := after.v.total, shares := after.v.shares)
    && after.p == before.p
  }

  lemma PaidOutBurns(b: Books, after: Books, held: Amounts, holder: Address, burned: nat)
    requires 0 < burned <= b.v.total && burned <= Balance(b.v.shares, holder) && b.bal.Covers(held)
    requires var r := PayOut(b.v, held, holder, burned);
             b.bal.Covers(r.paid) && after == Books(r.vault, b.p, b.bal.Minus(r.paid), after.credits)
    ensures BurnedFor(b, after, held, holder, burned)
  {
    hide ProRata.PaysMost;
    NavShares.PayoutCovered(held, burned, b.v.total);
    ProRata.ClaimPaysMost(held.t0, burned, b.v.total);
    ProRata.ClaimPaysMost(held.t1, burned, b.v.total);
  }

  /** An ordinary withdrawal commits exactly when the vault is not leaving, the owner asks, no order is out,
      and the owner holds what it burns. It pays the owner's part of the free balances. */
  lemma WithdrawalAnswers(c: Params, w: World, sender: Address, burned: nat)
    requires c.Valid() && WorldInv(c, w) && w.AtRest()
    ensures var after := Step(c, w, Start(CallWithdraw(sender, burned)));
            var v := w.now.v;
            if v.mode != Exit && sender == c.owner && v.orders == map[] && 0 < burned <= Balance(v.shares, c.owner) then
              after.AtRest() && after.now.credits == w.now.credits
              && BurnedFor(w.now, after.now, v.free, c.owner, burned)
            else after == w
  {
    hide Inv, RestInv, PayOut, BurnedFor;
    RestOfWorld(c, w);
    RestParts(c, w.now);
    BalanceWithinSum(w.now.v.shares, sender);
    FreeIsHeld(w.now);
    var v := w.now.v;
    NoOrders(v.orders);
    if Withdraw(c, v, sender, burned).Ok? {
      PayoutIsHeld(v, v.free, sender, burned, w.now.bal);
      var after := Step(c, w, Start(CallWithdraw(sender, burned)));
      NothingBrought(w.now.bal);
      PaidOutBurns(w.now, after.now, v.free, sender, burned);
    }
  }

  lemma NoOrders(orders: map<OrderId, GridOrder>)
    ensures orders == map[] <==> |orders| == 0
  {
  }

  lemma FreeIsHeld(b: Books)
    requires forall t: Token :: b.bal.Get(t) == b.v.free.Get(t) + b.credits.Get(t)
    ensures b.bal.Covers(b.v.free)
  {
    assert b.bal.t0 == b.bal.Get(Token0) && b.bal.t1 == b.bal.Get(Token1);
  }

  lemma PayoutIsHeld(v: Vault, held: Amounts, holder: Address, burned: nat, bal: Amounts)
    requires 0 < burned <= v.total && burned <= Balance(v.shares, holder) && bal.Covers(held)
    ensures bal.Covers(PayOut(v, held, holder, burned).paid) && PayOut(v, held, holder, burned).subs == []
  {
    NavShares.PayoutCovered(held, burned, v.total);
  }

  /** The collector's redemption: all its shares at once, in any mode, once no order is out. */
  lemma RedemptionAnswers(c: Params, w: World, sender: Address)
    requires c.Valid() && WorldInv(c, w) && w.AtRest()
    ensures var after := Step(c, w, Start(CallRedeem(sender)));
            var v := w.now.v;
            var burned := Balance(v.shares, sender);
            if c.collector == Some(sender) && burned > 0 && v.orders == map[] then
              after.AtRest() && after.now.credits == w.now.credits
              && BurnedFor(w.now, after.now, v.free, sender, burned)
            else after == w
  {
    hide Inv, RestInv, PayOut, BurnedFor;
    RestOfWorld(c, w);
    RestParts(c, w.now);
    BalanceWithinSum(w.now.v.shares, sender);
    FreeIsHeld(w.now);
    var v := w.now.v;
    NoOrders(v.orders);
    if RedeemShares(c, v, sender).Ok? {
      var burned := Balance(v.shares, sender);
      PayoutIsHeld(v, v.free, sender, burned, w.now.bal);
      var after := Step(c, w, Start(CallRedeem(sender)));
      NothingBrought(w.now.bal);
      PaidOutBurns(w.now, after.now, v.free, sender, burned);
    }
  }

  /** The owner's exit: its whole part of the real balances, arrivals never synchronised included; what is
      left becomes the free balance. */
  lemma EmergencyWithdrawalAnswers(c: Params, w: World, sender: Address)
    requires c.Valid() && WorldInv(c, w) && w.AtRest()
    ensures var after := Step(c, w, Start(CallEmergencyWithdraw(sender)));
            var v := w.now.v;
            var burned := Balance(v.shares, c.owner);
            if v.mode == Exit && sender == c.owner && v.orders == map[] && burned > 0 then
              after.AtRest() && after.now.credits == Nothing()
              && BurnedFor(w.now, after.now, w.now.bal, c.owner, burned)
            else after == w
  {
    hide Inv, RestInv, PayOut, BurnedFor;
    RestOfWorld(c, w);
    RestParts(c, w.now);
    BalanceWithinSum(w.now.v.shares, c.owner);
    var v := w.now.v;
    NoOrders(v.orders);
    if EmergencyWithdraw(c, v, w.now.bal, sender).Ok? {
      var burned := Balance(v.shares, c.owner);
      PayoutIsHeld(v, w.now.bal, sender, burned, w.now.bal);
      PayOutTouchesFundsOnly(v, w.now.bal, sender, burned);
      var after := Step(c, w, Start(CallEmergencyWithdraw(sender)));
      NothingBrought(w.now.bal);
      PaidOutBurns(w.now, after.now, w.now.bal, sender, burned);
    }
  }

  // ---- Deposits and allocation ----

  /** All the rungs of one side, each once, in order. */
  ghost predicate SideOf(c: Params, side: Side, rungs: seq<nat>)
  {
    (forall i: nat :: i in rungs <==> i < |c.rungs| && c.rungs[i].side == Some(side))
    && forall i, j :: 0 <= i < j < |rungs| ==> rungs[i] < rungs[j]
  }

  ghost predicate HasSide(c: Params, side: Side)
  {
    exists i: nat :: i < |c.rungs| && c.rungs[i].side == Some(side)
  }

  /** The side has room and money: at least one unit for each of its rungs, and all of them under the cap. */
  predicate CanOffer(c: Params, v: Vault, side: Side, rungs: seq<nat>)
  {
    |rungs| <= v.free.Get(if side == Ask then Token0 else Token1) && v.activeOrders + |rungs| <= c.maxActive
  }

  /** If it can, the side is offered in one placement of all its rungs at one amount each, the most that an
      even split of the side's free token allows; the gross leaves the free balance. Nothing else changes. */
  ghost predicate Offered(c: Params, v: Vault, w: Vault, subs: seq<ReplyId>, side: Side, rungs: seq<nat>)
  {
    var token := if side == Ask then Token0 else Token1;
    var free := v.free.Get(token);
    SideOf(c, side, rungs)
    && if !CanOffer(c, v, side, rungs) then w == v && subs == []
       else
         subs == [v.nextReply] && v.nextReply in w.placements
         && var plan := w.placements[v.nextReply];
            plan.side == side && plan.rungs == rungs
            && plan.each * |rungs| <= free < plan.each * |rungs| + |rungs|
            && w.free.Get(token) + plan.each * |rungs| == free
            && w.free.Get(token.Other()) == v.free.Get(token.Other())
            && w == v.(free := w.free, activeOrders := v.activeOrders + |rungs|,
                       placements := v.placements[v.nextReply := plan], nextReply := v.nextReply + 1)
  }

  lemma {:induction false} SideRungsComplete(rungs: seq<Rung>, side: Side)
    ensures var indices := SideRungs(rungs, side);
            (forall i: nat :: i in indices <==> i < |rungs| && rungs[i].side == Some(side))
            && forall i, j :: 0 <= i < j < |indices| ==> indices[i] < indices[j]
  {
    if rungs != [] {
      var last := |rungs| - 1;
      SideRungsComplete(rungs[..last], side);
      var earlier := SideRungs(rungs[..last], side);
      forall i | 0 <= i < |earlier| ensures earlier[i] < last {
        assert earlier[i] in earlier;
      }
    }
  }

  lemma OneEach(free: nat, count: nat)
    requires count > 0
    ensures Floor(free, count) > 0 <==> free >= count
  {
    FloorIsLargest(free, count, 1);
  }

  lemma AllocationOffers(c: Params, v: Vault, side: Side)
    ensures HasSide(c, side) <==> AllocateSide(c, v, side).Ok?
    ensures HasSide(c, side) ==>
              var r := AllocateSide(c, v, side).value;
              Offered(c, v, r.vault, r.subs, side, SideRungs(c.rungs, side)) && r.paid == Nothing()
  {
    var rungs := SideRungs(c.rungs, side);
    SideRungsComplete(c.rungs, side);
    if rungs != [] {
      assert rungs[0] in rungs;
      var free := v.free.Get(side.Input());
      OneEach(free, |rungs|);
      assert SideOf(c, side, rungs);
    } else {
      assert forall i: nat :: i < |c.rungs| && c.rungs[i].side == Some(side) ==> i in rungs;
    }
  }

  /** The deposit counts as at least one token-0 unit at the reference price, and token 1 converts. */
  predicate WorthAShare(c: Params, token: Token, amount: nat)
  {
    amount > 0 && (token == Token1 ==> c.referencePrice <= amount * ONE < TWO_128 * c.referencePrice)
  }

  /** The vault with the deposit booked and the most shares it is worth credited to the owner. */
  ghost predicate Booked(c: Params, v: Vault, w: Vault, token: Token, amount: nat)
  {
    w.free.Get(token) == v.free.Get(token) + amount && w.free.Get(token.Other()) == v.free.Get(token.Other())
    && w.total >= v.total
    && (var minted := w.total - v.total;
        (if token == Token0 then minted == amount
         else minted * c.referencePrice <= amount * ONE < (minted + 1) * c.referencePrice)
        && forall a :: Balance(w.shares, a) == Balance(v.shares, a) + (if a == c.owner then minted else 0))
    && w == v.(free := w.free, total := w.total, shares := w.shares)
  }

  lemma SharesWorth(c: Params, token: Token, amount: nat)
    requires c.Valid() && amount > 0
    ensures var minted := DepositShares(amount, token, c.referencePrice);
            (minted.Some? && minted.value > 0 <==> WorthAShare(c, token, amount))
            && (minted.Some? ==>
                  if token == Token0 then minted.value == amount
                  else minted.value * c.referencePrice <= amount * ONE < (minted.value + 1) * c.referencePrice)
  {
    if token == Token1 {
      var q := Floor(amount * ONE, c.referencePrice);
      FloorIsLargest(amount * ONE, c.referencePrice, 1);
      FloorIsLargest(amount * ONE, c.referencePrice, TWO_128);
      assert (q + 1) * c.referencePrice == q * c.referencePrice + c.referencePrice;
    }
  }

  /** A deposit commits exactly when the vault is active, the owner sends at least a share's worth, nothing
      of the token is unsynchronised, and the side spending it has rungs: asks for token 0, bids for token 1.
      It is booked, minted for, and that side is offered out of the new free balance. */
  lemma DepositAnswers(c: Params, w: World, sender: Address, token: Token, amount: nat)
    requires c.Valid() && WorldInv(c, w) && w.AtRest()
    ensures var after := Step(c, w, Start(CallReceive(sender, token, amount)));
            var side := if token == Token0 then Ask else Bid;
            if w.now.v.mode == Active && sender == c.owner && WorthAShare(c, token, amount)
               && w.now.credits.Get(token) == 0 && HasSide(c, side) then
              after.flight == Landed && after.saved == w.now
              && after.now == w.now.(v := after.now.v, bal := w.now.bal.Plus(Just(token, amount)))
              && exists booked: Vault ::
                   Booked(c, w.now.v, booked, token, amount)
                   && Offered(c, booked, after.now.v, after.queue, side, SideRungs(c.rungs, side))
            else after == w
  {
    hide Inv, RestInv, Consistent, SharesOk, AllocateSide, SideRungs, DepositShares, Booked, Offered, WorthAShare,
         HasSide;
    RestOfWorld(c, w);
    RestParts(c, w.now);
    var v := w.now.v;
    var side := if token == Token0 then Ask else Bid;
    if v.mode == Active && amount > 0 && sender == c.owner && w.now.credits.Get(token) == 0 {
      SharesWorth(c, token, amount);
      if WorthAShare(c, token, amount) {
        var minted := DepositShares(amount, token, c.referencePrice).value;
        var actual := w.now.bal.Get(token) + amount;
        var booked := v.(free := v.free.Put(token, actual), total := v.total + minted,
                         shares := Credit(v.shares, sender, minted));
        AllocationOffers(c, booked, side);
        assert Receive(c, v, actual, sender, token, amount) == AllocateSide(c, booked, side);
        assert w.now.bal.Get(token) == v.free.Get(token);
        BookedFor(c, v, booked, token, amount, minted);
      }
    } else {
      assert Handle(c, w.now, CallReceive(sender, token, amount)).Err? || amount == 0;
      WorthNothing(c, token);
    }
  }

  lemma WorthNothing(c: Params, token: Token)
    ensures !WorthAShare(c, token, 0)
  {
  }

  lemma BookedFor(c: Params, v: Vault, w: Vault, token: Token, amount: nat, minted: nat)
    requires w == v.(free := v.free.Put(token, v.free.Get(token) + amount), total := v.total + minted,
                     shares := Credit(v.shares, c.owner, minted))
    requires if token == Token0 then minted == amount
             else minted * c.referencePrice <= amount * ONE < (minted + 1) * c.referencePrice
    ensures Booked(c, v, w, token, amount)
  {
  }

  /** An allocation commits exactly when the vault is active, the owner asks, both sides have rungs and one
      of them can be offered. Bids come first, asks out of what the cap then leaves. */
  lemma AllocationAnswers(c: Params, w: World, sender: Address)
    requires c.Valid() && WorldInv(c, w) && w.AtRest()
    ensures var after := Step(c, w, Start(CallAllocate(sender)));
            var v := w.now.v;
            var bids, asks := SideRungs(c.rungs, Bid), SideRungs(c.rungs, Ask);
            if v.mode == Active && sender == c.owner && HasSide(c, Bid) && HasSide(c, Ask)
               && (CanOffer(c, v, Bid, bids) || CanOffer(c, v, Ask, asks)) then
              after.flight == Landed && after.saved == w.now && after.now == w.now.(v := after.now.v)
              && exists mid: Vault, n: nat ::
                   n <= |after.queue| && Offered(c, v, mid, after.queue[..n], Bid, bids)
                   && Offered(c, mid, after.now.v, after.queue[n..], Ask, asks)
            else after == w
  {
    hide WorldInv, AllocateSide, SideRungs, Offered, HasSide;
    var v := w.now.v;
    AllocationOffers(c, v, Bid);
    NothingBrought(w.now.bal);
    if HasSide(c, Bid) {
      var bids := AllocateSide(c, v, Bid).value;
      AllocationOffers(c, bids.vault, Ask);
      if HasSide(c, Ask) {
        var asks := AllocateSide(c, bids.vault, Ask).value;
        BothOffered(c, v, bids, asks, SideRungs(c.rungs, Bid), SideRungs(c.rungs, Ask));
        assert (bids.subs + asks.subs)[..|bids.subs|] == bids.subs
          && (bids.subs + asks.subs)[|bids.subs|..] == asks.subs;
      }
    }
  }

  lemma BothOffered(c: Params, v: Vault, bids: Response, asks: Response, bidRungs: seq<nat>, askRungs: seq<nat>)
    requires Offered(c, v, bids.vault, bids.subs, Bid, bidRungs)
    requires Offered(c, bids.vault, asks.vault, asks.subs, Ask, askRungs)
    ensures bids.subs + asks.subs != [] <==> CanOffer(c, v, Bid, bidRungs) || CanOffer(c, v, Ask, askRungs)
  {
  }

  // ---- Synchronising and modes ----

  /** The owner can always synchronise, and then the free balances are the real ones. */
  lemma SyncAnswers(c: Params, w: World, sender: Address)
    requires c.Valid() && WorldInv(c, w) && w.AtRest()
    ensures var after := Step(c, w, Start(CallSync(sender)));
            if sender == c.owner then
              after.AtRest() && after.now == w.now.(v := w.now.v.(free := w.now.bal), credits := Nothing())
            else after == w
  {
    hide WorldInv;
    if sender == c.owner {
      LimitExit.OwnerSyncs(c, w);
    }
  }

  /** The admin pauses and resumes, only the owner leaves, and nobody comes back. */
  lemma ModeAnswers(c: Params, w: World, sender: Address, mode: Mode)
    requires c.Valid() && w.AtRest()
    ensures var after := Step(c, w, Start(CallSetMode(sender, mode)));
            if w.now.v.mode != Exit && w.now.v.mode != mode
               && sender == (if mode == Exit then c.owner else c.admin) then
              after.AtRest() && after.now == w.now.(v := w.now.v.(mode := mode))
            else after == w
  {
    NothingBrought(w.now.bal);
  }

  // ---- Replies ----

  /** A placement of one rung that came back empty or failed. */
  predicate CameBack(v: Vault, flight: Flight)
  {
    flight != Landed && flight.reply in v.placements && |v.placements[flight.reply].rungs| == 1
    && flight.result in {Failed, Placed([])}
  }

  /** The pair reports one order of its own for each rung of the plan: for this vault, on the plan's side, at
      the rung's price, with at most the amount offered. */
  ghost predicate ReportFits(c: Params, p: Pair, plan: PlacementPlan, ids: seq<OrderId>)
  {
    |ids| == |plan.rungs| && (forall i, j :: 0 <= i < j < |ids| ==> ids[i] != ids[j])
    && forall i :: 0 <= i < |ids| ==> OrderFits(c, p, plan, plan.rungs[i], ids[i])
  }

  ghost predicate OrderFits(c: Params, p: Pair, plan: PlacementPlan, rung: nat, id: OrderId)
  {
    rung < |c.rungs| && id in p.active
    && p.active[id].owner == c.self && p.active[id].side == plan.side && p.active[id].price == c.rungs[rung].price
    && p.active[id].remaining <= plan.each
  }

  /** The reported orders join the tracked ones, each under its rung and with what the pair holds of it. */
  ghost predicate Joined(
    before: map<OrderId, GridOrder>, after: map<OrderId, GridOrder>, p: Pair, plan: PlacementPlan, ids: seq<OrderId>)
  {
    |ids| <= |plan.rungs|
    && (forall id :: id in after <==> id in before || id in ids)
    && (forall id :: id in before && id !in ids ==> after[id] == before[id])
    && forall i :: 0 <= i < |ids| ==>
         ids[i] in p.active
         && after[ids[i]] == GridOrder(plan.rungs[i], plan.side, p.active[ids[i]].price, p.active[ids[i]].remaining)
  }

  /** Recording goes through exactly for distinct orders that fit their rungs, and then they have joined. */
  ghost predicate RecordsAs(
    c: Params, orders: map<OrderId, GridOrder>, p: Pair, plan: PlacementPlan, ids: seq<OrderId>,
    r: Result<map<OrderId, GridOrder>, Error>)
    requires |ids| <= |plan.rungs|
  {
    (r.Ok? <==> (forall i, j :: 0 <= i < j < |ids| ==> ids[i] != ids[j])
                && forall i :: 0 <= i < |ids| ==> OrderFits(c, p, plan, plan.rungs[i], ids[i]))
    && (r.Ok? ==> Joined(orders, r.value, p, plan, ids))
  }

  lemma {:induction false} RecordingAnswers(
    c: Params, orders: map<OrderId, GridOrder>, p: Pair, plan: PlacementPlan, ids: seq<OrderId>)
    requires |ids| <= |plan.rungs| && forall i :: 0 <= i < |ids| ==> ids[i] !in orders
    ensures RecordsAs(c, orders, p, plan, ids, RecordOrders(c, orders, p, plan, ids))
  {
    hide RecordsAs, RecordOrder;
    if ids == [] {
      NothingToRecord(c, orders, p, plan);
    } else {
      var last := |ids| - 1;
      RecordingAnswers(c, orders, p, plan, ids[..last]);
      var earlier := RecordOrders(c, orders, p, plan, ids[..last]);
      assert ids == ids[..last] + [ids[last]];
      if earlier.Ok? {
        OneMoreRecorded(c, orders, earlier.value, p, plan, ids[..last], ids[last]);
      } else {
        NoMoreRecorded(c, orders, p, plan, ids[..last], ids[last], earlier);
      }
    }
  }

  lemma NothingToRecord(c: Params, orders: map<OrderId, GridOrder>, p: Pair, plan: PlacementPlan)
    ensures RecordsAs(c, orders, p, plan, [], Ok(orders))
  {
  }

  lemma OneMoreRecorded(
    c: Params, orders: map<OrderId, GridOrder>, earlier: map<OrderId, GridOrder>, p: Pair, plan: PlacementPlan,
    ids: seq<OrderId>, id: OrderId)
    requires |ids| < |plan.rungs| && RecordsAs(c, orders, p, plan, ids, Ok(earlier)) && id !in orders
    ensures RecordsAs(c, orders, p, plan, ids + [id], RecordOrder(c, earlier, p, plan, plan.rungs[|ids|], id))
  {
    var all, r := ids + [id], RecordOrder(c, earlier, p, plan, plan.rungs[|ids|], id);
    assert all[|ids|] == id && forall i :: 0 <= i < |ids| ==> all[i] == ids[i];
    assert r.Ok? <==> id !in ids && OrderFits(c, p, plan, plan.rungs[|ids|], id);
    if id in ids {
      var i :| 0 <= i < |ids| && ids[i] == id;
      assert all[i] == all[|ids|];
    }
    hide OrderFits, RecordOrder;
    if r.Ok? {
      OneMoreJoined(c, orders, earlier, p, plan, ids, id);
    }
  }

  lemma OneMoreJoined(
    c: Params, orders: map<OrderId, GridOrder>, earlier: map<OrderId, GridOrder>, p: Pair, plan: PlacementPlan,
    ids: seq<OrderId>, id: OrderId)
    requires |ids| < |plan.rungs| && Joined(orders, earlier, p, plan, ids)
    requires RecordOrder(c, earlier, p, plan, plan.rungs[|ids|], id).Ok?
    ensures Joined(orders, RecordOrder(c, earlier, p, plan, plan.rungs[|ids|], id).value, p, plan, ids + [id])
  {
    var all, after := ids + [id], RecordOrder(c, earlier, p, plan, plan.rungs[|ids|], id).value;
    assert after.Keys == earlier.Keys + {id};
    forall i | 0 <= i < |all|
      ensures all[i] in p.active
              && after[all[i]]
                 == GridOrder(plan.rungs[i], plan.side, p.active[all[i]].price, p.active[all[i]].remaining)
    {
      if i < |ids| {
        assert all[i] == ids[i] && ids[i] in earlier;
      }
    }
  }

  lemma NoMoreRecorded(
    c: Params, orders: map<OrderId, GridOrder>, p: Pair, plan: PlacementPlan, ids: seq<OrderId>, id: OrderId,
    r: Result<map<OrderId, GridOrder>, Error>)
    requires |ids| < |plan.rungs| && RecordsAs(c, orders, p, plan, ids, r) && r.Err?
    ensures RecordsAs(c, orders, p, plan, ids + [id], r)
  {
    hide OrderFits, Joined;
    var all := ids + [id];
    assert forall i :: 0 <= i < |ids| ==> all[i] == ids[i];
    if i, j :| 0 <= i < j < |ids| && ids[i] == ids[j] {
      assert all[i] == all[j];
    } else {
      var i :| 0 <= i < |ids| && !OrderFits(c, p, plan, plan.rungs[i], ids[i]);
      assert !OrderFits(c, p, plan, plan.rungs[i], all[i]);
    }
  }

  /** What a placement's reply does. One that came back refunds its rung's amount; one that reports as many
      fitting orders as rungs tracks them; anything else takes the whole transaction back. */
  lemma PlacementReplyAnswers(c: Params, w: World)
    requires c.Valid() && WorldInv(c, w) && w.flight != Landed && w.flight.reply in w.now.v.placements
    ensures var after := Step(c, w, Deliver);
            var v, plan := w.now.v, w.now.v.placements[w.flight.reply];
            var token := plan.side.Input();
            if CameBack(v, w.flight) then
              after == w.(now := w.now.(v := after.now.v), flight := Landed)
              && after.now.v == v.(free := after.now.v.free, activeOrders := after.now.v.activeOrders,
                                   placements := v.placements - {w.flight.reply})
              && after.now.v.activeOrders + 1 == v.activeOrders
              && after.now.v.free.Get(token) == v.free.Get(token) + plan.each
              && after.now.v.free.Get(token.Other()) == v.free.Get(token.Other())
            else if w.flight.result.Placed? && ReportFits(c, w.now.p, plan, w.flight.result.ids) then
              after == w.(now := w.now.(v := after.now.v), flight := Landed)
              && after.now.v == v.(orders := after.now.v.orders, placements := v.placements - {w.flight.reply})
              && Joined(v.orders, after.now.v.orders, w.now.p, plan, w.flight.result.ids)
            else after == World(w.saved, w.saved, [], Landed)
  {
    hide Inv, RecordOrders, ReportFits, Joined, Consistent, RepliesOk, DuesOk, Custody, Counted, SharesOk;
    var v, flight := w.now.v, w.flight;
    var plan := v.placements[flight.reply];
    Parts(c, w.now, w.queue, flight);
    if CameBack(v, flight) {
      RestoreKeeps(c, w.now, w.queue, flight);
    } else if flight.result.Placed? && |flight.result.ids| == |plan.rungs| {
      RecordingAnswers(c, v.orders, w.now.p, plan, flight.result.ids);
      FitsIff(c, w.now.p, plan, flight.result.ids);
    } else {
      NotAsMany(c, w.now.p, plan, flight.result);
    }
  }

  lemma FitsIff(c: Params, p: Pair, plan: PlacementPlan, ids: seq<OrderId>)
    requires |ids| == |plan.rungs|
    ensures ReportFits(c, p, plan, ids)
            <==> (forall i, j :: 0 <= i < j < |ids| ==> ids[i] != ids[j])
                 && forall i :: 0 <= i < |ids| ==> OrderFits(c, p, plan, plan.rungs[i], ids[i])
  {
  }

  lemma NotAsMany(c: Params, p: Pair, plan: PlacementPlan, result: SubResult)
    requires result.Placed? ==> |result.ids| != |plan.rungs|
    ensures result.Placed? ==> !ReportFits(c, p, plan, result.ids)
  {
  }

  /** A confirmed page: its orders are no longer tracked or counted and its refunds are free; each cancelled
      one is on file as it was tracked, with the amount that came back. */
  ghost predicate PageConfirmed(v: Vault, w: Vault, reply: ReplyId, page: PendingPage)
  {
    w == v.(free := w.free, orders := v.orders - EntryIds(page.entries), activeOrders := w.activeOrders,
            cancelled := w.cancelled, pages := v.pages - {reply})
    && w.activeOrders + |page.entries| == v.activeOrders
    && (forall t: Token :: w.free.Get(t) == v.free.Get(t) + RefundSum(page.entries, t))
    && Filed(v, w.cancelled, page.kind, page.entries)
  }

  ghost predicate Filed(
    v: Vault, cancelled: map<OrderId, CancelledOrder>, kind: PageKind, entries: seq<PageEntry>)
  {
    (forall id :: id in cancelled <==> id in v.cancelled || (kind == Cancel && id in EntryIds(entries)))
    && (forall id :: id in v.cancelled && (kind == Claim || id !in EntryIds(entries)) ==>
          cancelled[id] == v.cancelled[id])
    && (kind == Cancel ==>
          forall e :: e in entries ==>
            e.id in EntryIds(entries) && e.id in v.orders && e.id in cancelled
            && var o := v.orders[e.id]; cancelled[e.id] == CancelledOrder(o.rung, o.side, o.price, e.refund))
  }

  lemma {:induction false} ConfirmingFiles(v: Vault, kind: PageKind, entries: seq<PageEntry>)
    requires DistinctEntries(entries) && forall e :: e in entries ==> e.id in v.orders
    ensures Filed(v, ConfirmEntries(v, kind, entries).cancelled, kind, entries)
  {
    hide Filed, DistinctEntries, Confirms, EntryIds;
    if entries == [] {
      FiledNothing(v, kind);
    } else {
      var last := |entries| - 1;
      LastEntry(entries);
      assert entries[last] in entries && entries == entries[..last] + [entries[last]];
      ConfirmingFiles(v, kind, entries[..last]);
      ConfirmEntriesFacts(v, kind, entries[..last]);
      ConfirmedFields(v, ConfirmEntries(v, kind, entries[..last]), kind, entries[..last]);
      FiledOneMore(v, ConfirmEntries(v, kind, entries[..last]), kind, entries[..last], entries[last]);
    }
  }

  lemma FiledNothing(v: Vault, kind: PageKind)
    ensures Filed(v, v.cancelled, kind, [])
  {
  }

  lemma FiledOneMore(v: Vault, before: Vault, kind: PageKind, entries: seq<PageEntry>, e: PageEntry)
    requires Filed(v, before.cancelled, kind, entries) && before.orders == v.orders - EntryIds(entries)
    requires e.id in v.orders && e.id !in EntryIds(entries)
    ensures Filed(v, ConfirmEntry(before, kind, e).cancelled, kind, entries + [e])
  {
    hide EntryIds;
    LimitExit.EntryAppended(entries, e);
  }

  /** What a page's reply does: a failed page is forgotten, one that went through is confirmed. */
  lemma PageReplyAnswers(c: Params, w: World)
    requires c.Valid() && WorldInv(c, w) && w.flight != Landed && w.flight.reply in w.now.v.pages
    ensures var after := Step(c, w, Deliver);
            var v := w.now.v;
            after == w.(now := w.now.(v := after.now.v), flight := Landed)
            && if w.flight.result == Failed then after.now.v == v.(pages := v.pages - {w.flight.reply})
               else PageConfirmed(v, after.now.v, w.flight.reply, v.pages[w.flight.reply])
  {
    hide Inv, Consistent, RepliesOk, DuesOk, Custody, Counted, SharesOk, ConfirmEntries, EntryIds, Filed, Confirms,
         DistinctEntries;
    var v, flight := w.now.v, w.flight;
    var page := v.pages[flight.reply];
    Parts(c, w.now, w.queue, flight);
    PageInFlightFacts(c, w.now, w.queue, flight);
    ConfirmEntriesFacts(v, page.kind, page.entries);
    ConfirmingFiles(v, page.kind, page.entries);
    if flight.result != Failed {
      ReplySettlesPage(c, v, w.now.p, flight.reply);
      ConfirmedFields(v, ConfirmEntries(v, page.kind, page.entries), page.kind, page.entries);
    }
  }

  lemma ConfirmedFields(v: Vault, w: Vault, kind: PageKind, entries: seq<PageEntry>)
    requires Confirms(v, w, kind, entries)
    ensures w.orders == v.orders - EntryIds(entries)
    ensures forall t: Token :: w.free.Get(t) == v.free.Get(t) + RefundSum(entries, t)
  {
  }
}
