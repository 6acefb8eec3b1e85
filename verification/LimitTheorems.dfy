/** What the limit-grid invariant gives: exact custody, absence that really means executed, counts that
    never underflow, solvency restored by reconciling, and an exit that pays everything out. */
module LimitTheorems {
  import opened Arithmetic
  import opened Tokens
  import opened Ledger
  import opened LimitGrid
  import opened LimitChain
  import opened LimitInvariant
  import opened LimitSteps

  /** A world some run leads to, from a fresh vault on any pair. */
  function Reached(c: Params, p: Pair, events: seq<Event>): World
    requires c.Valid()
  {
    Run(c, Fresh(p), events)
  }

  lemma ReachedInv(c: Params, p: Pair, events: seq<Event>)
    requires c.Valid() && PairOk(p)
    ensures WorldInv(c, Reached(c, p, events))
    ensures Reached(c, p, events).AtRest() ==> RestInv(c, Reached(c, p, events).now)
  {
    FreshInv(c, p);
    hide Inv, WorldInv;
    RunKeeps(c, Fresh(p), events);
    RestOfWorld(c, Reached(c, p, events));
  }

  lemma RestOfWorld(c: Params, w: World)
    requires WorldInv(c, w)
    ensures w.AtRest() ==> RestInv(c, w.now)
  {
    hide Inv;
  }

  // ---- Custody ----

  /** Between transactions the vault really holds its free balances plus what arrived since it last
      synchronised; synchronising never fails and credits exactly that. */
  lemma CustodyAtRest(c: Params, p: Pair, events: seq<Event>)
    requires c.Valid() && PairOk(p) && Reached(c, p, events).AtRest()
    ensures var b := Reached(c, p, events).now;
            b.bal == b.v.free.Plus(b.credits)
            && Sync(b.v, b.bal) == Some((b.v.(free := b.bal), b.credits))
  {
    ReachedInv(c, p, events);
    var b := Reached(c, p, events).now;
    hide Inv, Reached;
    RestHasNothingPending(c, b);
    assert b.bal.t0 == b.bal.Get(Token0) && b.bal.t1 == b.bal.Get(Token1);
  }

  /** Inside a transaction too: every token the vault really holds is a free balance, an arrival not yet
      synchronised, the gross of a placement whose submessage has not run, or what its submessage in flight
      has moved. */
  lemma CustodyAlways(c: Params, p: Pair, events: seq<Event>, t: Token)
    requires c.Valid() && PairOk(p)
    ensures var w := Reached(c, p, events);
            w.now.bal.Get(t)
            == w.now.v.free.Get(t) + w.now.credits.Get(t) + Gross(w.now.v.placements, w.queue, t)
               + InFlight(w.now.v.pages, w.now.v.placements, w.flight, t)
  {
    ReachedInv(c, p, events);
    hide Reached, RepliesOk, DuesOk, FlightOk, Counted, SharesOk, Consistent, RestInv;
  }

  /** Shares are conserved in every reachable world, only the owner and the collector hold any, and nobody
      holds more than the total, so no payout divides by less than it burns. */
  lemma SharesConserved(c: Params, p: Pair, events: seq<Event>, holder: Address)
    requires c.Valid() && PairOk(p)
    ensures var v := Reached(c, p, events).now.v;
            v.total == Sum(v.shares) && Balance(v.shares, holder) <= v.total
            && (Balance(v.shares, holder) > 0 ==> holder == c.owner || c.collector == Some(holder))
            && RedeemShares(c, v, holder) != Err(ArithmeticOutOfRange)
  {
    ReachedInv(c, p, events);
    var w := Reached(c, p, events);
    hide Reached, RepliesOk, DuesOk, FlightOk, Counted, Custody, Consistent, RestInv, PayOut;
    BalanceWithinSum(w.now.v.shares, holder);
  }

  /** The balance check of a deposit refuses exactly when an arrival in that token was never synchronised. */
  lemma DepositCheckMeansUnsynced(c: Params, p: Pair, events: seq<Event>, token: Token, amount: nat)
    requires c.Valid() && PairOk(p) && Reached(c, p, events).AtRest()
    requires Reached(c, p, events).now.v.mode == Active && amount > 0
    ensures var b := Reached(c, p, events).now;
            Handle(c, b, CallReceive(c.owner, token, amount)) == Err(UnsupportedTokenBehavior)
            <==> b.credits.Get(token) != 0
  {
    ReachedInv(c, p, events);
    hide Reached, Inv, RestInv;
    BalanceAtRest(c, Reached(c, p, events).now, token);
    DepositCheck(c, Reached(c, p, events).now, token, amount);
  }

  lemma DepositCheck(c: Params, b: Books, token: Token, amount: nat)
    requires c.Valid() && b.bal.Get(token) == b.v.free.Get(token) + b.credits.Get(token)
    requires b.v.mode == Active && amount > 0
    ensures Handle(c, b, CallReceive(c.owner, token, amount)) == Err(UnsupportedTokenBehavior)
            <==> b.credits.Get(token) != 0
  {
    hide AllocateSide, DepositShares, Credit;
    if b.credits.Get(token) == 0 {
      var minted := DepositShares(amount, token, c.referencePrice);
      if minted.Some? && minted.value > 0 {
        AllocateSideErrors(
          c,
          b.v.(free := b.v.free.Put(token, b.bal.Get(token) + amount), total := b.v.total + minted.value,
               shares := Credit(b.v.shares, c.owner, minted.value)),
          if token == Token0 then Ask else Bid);
      }
    }
  }

  lemma AllocateSideErrors(c: Params, v: Vault, side: Side)
    ensures AllocateSide(c, v, side).Err? ==> AllocateSide(c, v, side).error == EmptySide
  {
  }

  // ---- Absence means executed ----

  /** In every reachable world, even inside a transaction: a tracked order that the pair neither lists nor
      parks was filled to zero, or its own cancel or claim awaits its reply. It is never a cancelled one,
      so the cancelled branches of reconcile and of the solvency query are dead. */
  lemma UnknownMeansExecuted(c: Params, p: Pair, events: seq<Event>, id: OrderId)
    requires c.Valid() && PairOk(p)
    requires id in Reached(c, p, events).now.v.orders && StatusOf(Reached(c, p, events).now.p, id) == Gone
    ensures var w := Reached(c, p, events);
            id !in w.now.v.cancelled
            && (id in w.now.p.executed || id in Settling(w.now.v.pages, w.flight))
            && (w.AtRest() ==> id in w.now.p.executed)
  {
    ReachedInv(c, p, events);
    hide Reached, RepliesOk, DuesOk, FlightOk, Custody, Counted, SharesOk;
  }

  /** A scan by reconcile never meets an order it cannot validate, never finds one cancelled, and never
      counts below zero: it is refused only for a repeated or an untracked id. */
  lemma ScanNeverStuck(c: Params, p: Pair, events: seq<Event>, ids: seq<OrderId>)
    requires c.Valid() && PairOk(p) && Reached(c, p, events).AtRest()
    ensures var b := Reached(c, p, events).now;
            var r := ScanOrders(c, b.v.(free := b.bal), b.p, ids);
            (r.Ok? ==> r.value.cancelledSeen == 0 && r.value.activeOrders == |r.value.orders|)
            && (r.Err? ==> r.error == InvalidFillReport || r.error == NotFound)
  {
    ReachedInv(c, p, events);
    var b := Reached(c, p, events).now;
    hide Reached, Inv, TracksOk, ClaimsOk, AllSettled, ScanOrders, Consistent;
    RestParts(c, b);
    ScanFacts(c, b.v.(free := b.bal), b.p, ids);
  }

  lemma RestParts(c: Params, b: Books)
    requires RestInv(c, b)
    ensures Consistent(c, b.v.orders, b.v.cancelled, b.p, {}) && SharesOk(c, b.v.shares, b.v.total)
    ensures b.v.pages == map[] && b.v.placements == map[] && b.v.activeOrders == |b.v.orders|
    ensures forall t: Token :: b.bal.Get(t) == b.v.free.Get(t) + b.credits.Get(t)
  {
    RestHasNothingPending(c, b);
    hide Consistent, SharesOk, RepliesOk, DuesOk, FlightOk, Custody, Counted;
  }

  // ---- Counting ----

  /** `active_orders` counts the tracked orders and the rungs still in placement, in every reachable world. */
  lemma ActiveOrdersCount(c: Params, p: Pair, events: seq<Event>)
    requires c.Valid() && PairOk(p)
    ensures var w := Reached(c, p, events);
            w.now.v.activeOrders
            == |w.now.v.orders| + RungsAwaiting(w.now.v.placements, Outstanding(w.queue, w.flight))
  {
    ReachedInv(c, p, events);
    hide Reached, RepliesOk, DuesOk, FlightOk, Custody, SharesOk, Consistent;
  }

  /** Pending pages name tracked orders, each at most once over all pages. */
  lemma PendingPagesAreDisjoint(c: Params, p: Pair, events: seq<Event>)
    requires c.Valid() && PairOk(p)
    ensures var w := Reached(c, p, events);
            var dues := Dues(w.now.v.pages, Outstanding(w.queue, w.flight));
            Distinct(dues) && forall d :: d in dues ==> Tracked(w.now.v.orders, d)
  {
    ReachedInv(c, p, events);
    hide Reached, RepliesOk, FlightOk, Custody, SharesOk, Consistent, Counted, Distinct, Tracked;
  }

  /** A reply that arrives is always a recorded one. A page's reply is never refused, and neither is a
      one-order placement that placed nothing: `active_orders` covers what they subtract. */
  lemma RepliesNeverUnderflow(c: Params, p: Pair, events: seq<Event>)
    requires c.Valid() && PairOk(p) && Reached(c, p, events).flight != Landed
    ensures var w := Reached(c, p, events);
            var r := Reply(c, w.now.v, w.now.p, w.flight.reply, w.flight.result);
            (w.flight.reply in w.now.v.pages ==> r.Ok?)
            && (w.flight.reply !in w.now.v.pages ==>
                  w.flight.reply in w.now.v.placements
                  && (|w.now.v.placements[w.flight.reply].rungs| == 1 && w.flight.result in {Failed, Placed([])}
                     ==> r.Ok?))
  {
    ReachedInv(c, p, events);
    var w := Reached(c, p, events);
    hide Reached, Inv, RestorePlacement, HandlePage;
    Parts(c, w.now, w.queue, w.flight);
    if w.flight.reply in w.now.v.pages {
      PageReplyNeverFails(c, w.now, w.queue, w.flight);
    } else if |w.now.v.placements[w.flight.reply].rungs| == 1 && w.flight.result in {Failed, Placed([])} {
      RestoreKeeps(c, w.now, w.queue, w.flight);
    }
  }

  /** The reset to zero in an emergency withdrawal changes nothing: no order is counted by then. */
  lemma EmergencyResetIsNoOp(c: Params, p: Pair, events: seq<Event>)
    requires c.Valid() && PairOk(p) && Reached(c, p, events).AtRest()
    requires var b := Reached(c, p, events).now; EmergencyWithdraw(c, b.v, b.bal, c.owner).Ok?
    ensures Reached(c, p, events).now.v.activeOrders == 0
  {
    ReachedInv(c, p, events);
    var b := Reached(c, p, events).now;
    hide Reached, Inv, RestInv, PayOut;
    RestParts(c, b);
  }

  /** Neither the world nor what a revert would restore exceeds the order cap. */
  ghost predicate WithinCap(c: Params, w: World)
  {
    w.now.v.activeOrders <= c.maxActive && w.saved.v.activeOrders <= c.maxActive
  }

  /** Queueing pages touches the pending pages and the reply counter only. */
  ghost predicate OnlyPages(v: Vault, w: Vault) { w == v.(pages := w.pages, nextReply := w.nextReply) }

  lemma {:induction false} AddPagesTouches(v: Vault, kind: PageKind, entries: seq<PageEntry>, limit: nat)
    requires limit > 0
    ensures OnlyPages(v, AddPages(v, kind, entries, limit).vault)
    decreases |entries|
  {
    if entries != [] {
      var n := Min(limit, |entries|);
      AddPagesTouches(
        v.(pages := v.pages[v.nextReply := PendingPage(kind, entries[..n])], nextReply := v.nextReply + 1), kind,
          entries[n..], limit);
    }
  }

  lemma ConfirmablePagesTouch(v: Vault, cancels: seq<PageEntry>, claims: seq<PageEntry>, limit: nat)
    ensures OnlyPages(v, AddConfirmablePages(v, cancels, claims, limit).vault)
    ensures AddConfirmablePages(v, cancels, claims, limit).paid == Nothing()
  {
    AddPagesTouches(v, Cancel, cancels, Max(limit, 1));
    AddPagesTouches(AddPages(v, Cancel, cancels, Max(limit, 1)).vault, Claim, claims, Max(limit, 1));
  }

  lemma {:induction false} ScanCount(c: Params, v: Vault, p: Pair, ids: seq<OrderId>)
    requires ScanOrders(c, v, p, ids).Ok?
    ensures ScanOrders(c, v, p, ids).value.activeOrders <= v.activeOrders
  {
    if ids != [] {
      ScanCount(c, v, p, ids[..|ids| - 1]);
      hide Inspect;
    }
  }

  lemma HandlerWithinCap(c: Params, b: Books, call: Call)
    requires c.Valid() && b.v.activeOrders <= c.maxActive && !call.CallRecover? && Handle(c, b, call).Ok?
    ensures Handle(c, b, call).value.vault.activeOrders <= c.maxActive
  {
    hide CancelEntries, ScanOrders, AddConfirmablePages, PayOut, DepositShares, CheckedRatio;
    match call
    case CallReconcile(ids, feeBps, limit) =>
      ScanCount(c, b.v.(free := b.bal), b.p, ids);
      ReconcileCount(c, b, ids, feeBps, limit);
    case CallCancelAll(sender, limit) =>
      ConfirmablePagesTouch(b.v, CancelEntries(c, b.v, b.p, FirstTracked(b.v, c.maxPerReconcile), true).value.0, [],
        limit);
    case CallEmergencyCancel(sender, limit) =>
      var entries := CancelEntries(c, b.v, b.p, FirstTracked(b.v, c.maxPerReconcile), false).value;
      ConfirmablePagesTouch(b.v, entries.0, entries.1, limit);
    case CallWithdraw(sender, burned) => PayOutTouchesFundsOnly(b.v, b.v.free, sender, burned);
    case CallRedeem(sender) => PayOutTouchesFundsOnly(b.v, b.v.free, sender, Balance(b.v.shares, sender));
    case _ =>
  }

  lemma ReconcileCount(c: Params, b: Books, ids: seq<OrderId>, feeBps: nat, limit: nat)
    requires c.Valid() && Reconcile(c, b.v, b.p, b.bal, ids, feeBps, limit).Ok?
    ensures ScanOrders(c, b.v.(free := b.bal), b.p, ids).Ok?
    ensures Reconcile(c, b.v, b.p, b.bal, ids, feeBps, limit).value.vault.activeOrders
            == ScanOrders(c, b.v.(free := b.bal), b.p, ids).value.activeOrders
  {
    hide ScanOrders, AddConfirmablePages, CheckedRatio;
    var v1 := b.v.(free := b.bal);
    var s := ScanOrders(c, v1, b.p, ids).value;
    var charged := ChargeFee(c, v1.(orders := s.orders, activeOrders := s.activeOrders), b.bal.Minus(b.v.free),
      feeBps).value;
    ConfirmablePagesTouch(charged, [], s.claims, limit);
  }

  lemma ReplyWithinCap(c: Params, v: Vault, p: Pair, reply: ReplyId, result: SubResult)
    requires Reply(c, v, p, reply, result).Ok?
    ensures Reply(c, v, p, reply, result).value.vault.activeOrders <= v.activeOrders
  {
    hide ConfirmEntries, RecordOrders;
  }

  /** An event other than the success of a recovery when the cap is already reached. */
  ghost predicate Fits(c: Params, w: World, e: Event)
    requires c.Valid()
  {
    e.Start? && e.call.CallRecover? && w.AtRest() && Handle(c, w.now, e.call).Ok? ==> w.now.v.activeOrders < c.maxActive
  }

  lemma StepWithinCapIff(c: Params, w: World, e: Event)
    requires c.Valid() && WithinCap(c, w)
    ensures WithinCap(c, Step(c, w, e)) <==> Fits(c, w, e)
  {
    hide Handle, Reply;
    match e
    case Start(call) =>
      if w.AtRest() && Handle(c, w.now, call).Ok? {
        if call.CallRecover? {
          RecoveryCommits(c, w, call);
        } else {
          HandlerWithinCap(c, w.now, call);
        }
      }
    case Deliver =>
      if w.flight != Landed && Reply(c, w.now.v, w.now.p, w.flight.reply, w.flight.result).Ok? {
        ReplyWithinCap(c, w.now.v, w.now.p, w.flight.reply, w.flight.result);
      }
    case _ =>
  }

  lemma RecoveryCommits(c: Params, w: World, call: Call)
    requires c.Valid() && WithinCap(c, w) && w.AtRest() && call.CallRecover? && Handle(c, w.now, call).Ok?
    ensures WithinCap(c, Step(c, w, Start(call))) <==> w.now.v.activeOrders < c.maxActive
  {
    RecoveryWithinCapIff(c, w.now.v, w.now.p, call.sender, call.id, call.rung, call.limit);
    RecoveryPaysNothing(c, w.now.v, w.now.p, call.sender, call.id, call.rung, call.limit);
    hide RecoverOrder;
  }

  lemma RecoveryPaysNothing(c: Params, v: Vault, p: Pair, sender: Address, id: OrderId, rung: nat, limit: nat)
    requires RecoverOrder(c, v, p, sender, id, rung, limit).Ok?
    ensures RecoverOrder(c, v, p, sender, id, rung, limit).value.paid == Nothing()
  {
    hide AddConfirmablePages, MatchesActive;
    var side, price := c.rungs[rung].side.value, c.rungs[rung].price;
    if id !in p.active {
      var refund := p.parked[id].remaining;
      ConfirmablePagesTouch(Track(v, id, GridOrder(rung, side, price, refund)), [],
        [PageEntry(id, side.Input(), refund)], limit);
    }
  }

  /** Every recovery that succeeds along the run found room for one more order. */
  ghost predicate RecoveriesFit(c: Params, w: World, events: seq<Event>)
    requires c.Valid()
    decreases |events|
  {
    events == [] || (Fits(c, w, events[0]) && RecoveriesFit(c, Step(c, w, events[0]), events[1..]))
  }

  ghost predicate CapThroughout(c: Params, w: World, events: seq<Event>)
    requires c.Valid()
  {
    forall n :: 0 <= n <= |events| ==> WithinCap(c, Run(c, w, events[..n]))
  }

  lemma LaterPrefix(c: Params, w: World, events: seq<Event>, n: nat)
    requires c.Valid() && 0 < n <= |events|
    ensures Run(c, w, events[..n]) == Run(c, Step(c, w, events[0]), events[1..][..n - 1])
  {
    assert events[..n][0] == events[0] && events[..n][1..] == events[1..][..n - 1];
  }

  /** A run from within the cap stays within it at every point exactly when each recovery that succeeds
      began below it: nothing else ever exceeds the cap. */
  lemma {:induction false} CapHoldsIffRecoveriesFit(c: Params, w: World, events: seq<Event>)
    requires c.Valid() && WithinCap(c, w)
    ensures CapThroughout(c, w, events) <==> RecoveriesFit(c, w, events)
    decreases |events|
  {
    hide Step, WithinCap, Fits;
    if events == [] {
      assert forall n :: 0 <= n <= |events| ==> events[..n] == [];
    } else {
      var next, rest := Step(c, w, events[0]), events[1..];
      StepWithinCapIff(c, w, events[0]);
      forall n | 0 < n <= |events| ensures Run(c, w, events[..n]) == Run(c, next, rest[..n - 1]) {
        LaterPrefix(c, w, events, n);
      }
      if WithinCap(c, next) {
        CapHoldsIffRecoveriesFit(c, next, rest);
        PrefixesShift(c, w, events);
      } else {
        assert rest[..0] == [] && !WithinCap(c, Run(c, w, events[..1]));
      }
    }
  }

  lemma PrefixesShift(c: Params, w: World, events: seq<Event>)
    requires c.Valid() && WithinCap(c, w) && events != []
    ensures CapThroughout(c, w, events) <==> CapThroughout(c, Step(c, w, events[0]), events[1..])
  {
    hide Step, WithinCap;
    var next, rest := Step(c, w, events[0]), events[1..];
    if CapThroughout(c, w, events) {
      forall n | 0 <= n <= |rest| ensures WithinCap(c, Run(c, next, rest[..n])) {
        LaterPrefix(c, w, events, n + 1);
        assert WithinCap(c, Run(c, w, events[..n + 1]));
      }
    }
    if CapThroughout(c, next, rest) {
      forall n | 0 <= n <= |events| ensures WithinCap(c, Run(c, w, events[..n])) {
        if n > 0 {
          LaterPrefix(c, w, events, n);
          assert WithinCap(c, Run(c, next, rest[..n - 1]));
        }
      }
    }
  }

  /** A recovery that succeeds stays within the cap exactly when one more order fitted before it. */
  lemma RecoveryWithinCapIff(c: Params, v: Vault, p: Pair, sender: Address, id: OrderId, rung: nat, limit: nat)
    requires RecoverOrder(c, v, p, sender, id, rung, limit).Ok?
    ensures RecoverOrder(c, v, p, sender, id, rung, limit).value.vault.activeOrders <= c.maxActive
            <==> v.activeOrders < c.maxActive
  {
    hide AddConfirmablePages;
    var side, price := c.rungs[rung].side.value, c.rungs[rung].price;
    if id !in p.active {
      var refund := p.parked[id].remaining;
      ConfirmablePagesTouch(Track(v, id, GridOrder(rung, side, price, refund)), [],
        [PageEntry(id, side.Input(), refund)], limit);
    }
  }
}
