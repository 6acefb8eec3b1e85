/** Reconciling never makes the vault's holdings look larger, so one bound on them before a run keeps every
    fee of the run within 128 bits, and reconciling everything balances the books. */
module LimitFees {
  import opened Arithmetic
  import opened Tokens
  import opened LimitGrid
  import opened LimitChain
  import opened LimitInvariant
  import opened LimitSteps
  import opened LimitTheorems
  import opened LimitPages
  import opened LimitSolvency

  // ---- Recorded escrow as a sum over the tracked orders ----

  ghost function EscrowSum(orders: map<OrderId, GridOrder>, t: Token): nat
  {
    if orders == map[] then 0
    else
      var id :| id in orders;
      In(t, orders[id].side, orders[id].remaining) + EscrowSum(orders - {id}, t)
  }

  lemma {:induction false} EscrowWithout(orders: map<OrderId, GridOrder>, id: OrderId, t: Token)
    requires id in orders
    ensures EscrowSum(orders, t) == In(t, orders[id].side, orders[id].remaining) + EscrowSum(orders - {id}, t)
    decreases |orders|
  {
    var other :|
      other in orders
      && EscrowSum(orders, t) == In(t, orders[other].side, orders[other].remaining) + EscrowSum(orders - {other}, t);
    if other != id {
      EscrowWithout(orders - {other}, id, t);
      EscrowWithout(orders - {id}, other, t);
      assert orders - {other} - {id} == orders - {id} - {other};
    }
  }

  lemma {:induction false} EscrowFrame(orders: map<OrderId, GridOrder>, listed: seq<OrderId>, id: OrderId)
    requires (forall other :: other in listed ==> other in orders) && id !in listed
    ensures Escrow(orders - {id}, listed) == Escrow(orders, listed)
  {
    if listed != [] {
      assert listed[|listed| - 1] in listed;
      EscrowFrame(orders, listed[..|listed| - 1], id);
    }
  }

  lemma {:induction false} EscrowIsSum(orders: map<OrderId, GridOrder>, listed: seq<OrderId>, t: Token)
    requires forall id :: id in listed <==> id in orders
    requires forall i, j :: 0 <= i < j < |listed| ==> listed[i] != listed[j]
    ensures Escrow(orders, listed).Get(t) == EscrowSum(orders, t)
    decreases |listed|
  {
    if listed == [] {
      assert orders == map[];
    } else {
      var last := |listed| - 1;
      var id := listed[last];
      assert id in listed && listed == listed[..last] + [id];
      EscrowWithout(orders, id, t);
      EscrowFrame(orders, listed[..last], id);
      EscrowIsSum(orders - {id}, listed[..last], t);
    }
  }

  /** `after` tracks a part of `before`, none of it with more. */
  ghost predicate Shrunk(before: map<OrderId, GridOrder>, after: map<OrderId, GridOrder>)
  {
    forall id :: id in after ==>
      id in before && after[id].side == before[id].side && after[id].remaining <= before[id].remaining
  }

  lemma {:induction false} EscrowShrinks(before: map<OrderId, GridOrder>, after: map<OrderId, GridOrder>, t: Token)
    requires Shrunk(before, after)
    ensures EscrowSum(after, t) <= EscrowSum(before, t)
    decreases |before|
  {
    if before == map[] {
      assert after == map[];
    } else {
      var id :| id in before;
      EscrowWithout(before, id, t);
      if id in after {
        EscrowWithout(after, id, t);
      } else {
        assert after - {id} == after;
      }
      EscrowShrinks(before - {id}, after - {id}, t);
    }
  }

  // ---- What a reconcile does to the holdings ----

  lemma {:induction false} ScanShrinks(c: Params, v: Vault, p: Pair, ids: seq<OrderId>)
    requires ScanOrders(c, v, p, ids).Ok?
    ensures Shrunk(v.orders, ScanOrders(c, v, p, ids).value.orders)
  {
    if ids != [] {
      ScanShrinks(c, v, p, ids[..|ids| - 1]);
    }
  }

  /** Free and recorded assets of one token: what `charge_fee` counts. */
  ghost function Holdings(v: Vault, t: Token): nat { v.free.Get(t) + EscrowSum(v.orders, t) }

  /** A refund is never more than what was recorded, so confirming a page adds nothing. */
  lemma {:induction false} ConfirmingAddsNothing(v: Vault, kind: PageKind, entries: seq<PageEntry>, t: Token)
    requires DistinctEntries(entries)
    requires forall e :: e in entries ==> Tracked(v.orders, Due(kind, e)) && e.refund <= v.orders[e.id].remaining
    ensures Holdings(ConfirmEntries(v, kind, entries), t) <= Holdings(v, t)
  {
    if entries != [] {
      var last := |entries| - 1;
      var e := entries[last];
      assert e in entries;
      LastEntry(entries);
      ConfirmingAddsNothing(v, kind, entries[..last], t);
      ConfirmEntriesFacts(v, kind, entries[..last]);
      hide Confirms, DistinctEntries, EntryIds;
      OneConfirmed(v, ConfirmEntries(v, kind, entries[..last]), kind, entries[..last], e, t);
    }
  }

  lemma OneConfirmed(v: Vault, before: Vault, kind: PageKind, entries: seq<PageEntry>, e: PageEntry, t: Token)
    requires Confirms(v, before, kind, entries) && e.id !in EntryIds(entries)
    requires Tracked(v.orders, Due(kind, e)) && e.refund <= v.orders[e.id].remaining
    ensures Holdings(ConfirmEntry(before, kind, e), t) <= Holdings(before, t)
  {
    EscrowWithout(before.orders, e.id, t);
  }

  lemma PageAddsNothing(c: Params, w: World, t: Token)
    requires c.Valid() && WorldInv(c, w) && w.flight == Landed && w.queue != [] && w.queue[0] in w.now.v.pages
    ensures Holdings(Step(c, Step(c, w, Obliged()), Deliver).now.v, t) <= Holdings(w.now.v, t)
  {
    var page := w.now.v.pages[w.queue[0]];
    hide Step, ConfirmEntries;
    PageSettles(c, w);
    RefundsRecorded(c, w.now, w.queue);
    ConfirmingAddsNothing(w.now.v, page.kind, page.entries, t);
  }

  lemma RefundsRecorded(c: Params, b: Books, queue: seq<ReplyId>)
    requires Inv(c, b, queue, Landed) && queue != [] && queue[0] in b.v.pages
    ensures var page := b.v.pages[queue[0]];
            DistinctEntries(page.entries)
            && forall e :: e in page.entries ==>
                 Tracked(b.v.orders, Due(page.kind, e)) && e.refund <= b.v.orders[e.id].remaining
  {
    QueuedParts(c, b, queue);
    hide Inv, RepliesOk, Custody, Counted, SharesOk, FlightOk;
    DuesOfFirst(b.v.pages, b.v.orders, b.p, queue);
    FirstPageDues(b.v.pages, b.v.orders, queue);
  }

  lemma {:induction false} PagesAddNothing(c: Params, w: World, t: Token)
    requires c.Valid() && WorldInv(c, w) && w.flight == Landed && forall r :: r in w.queue ==> r in w.now.v.pages
    ensures Holdings(Drain(c, w).now.v, t) <= Holdings(w.now.v, t)
    decreases |w.queue|
  {
    hide WorldInv, Step, Holdings, Removes, EntryIds;
    if w.queue != [] {
      PageSettles(c, w);
      QueueDistinct(c, w);
      PageAddsNothing(c, w, t);
      PagesAddNothing(c, Step(c, Step(c, w, Obliged()), Deliver), t);
    }
  }

  // ---- The bound ----

  /** What the vault really holds of a token together with what its records say is out in orders. */
  ghost function Ceiling(b: Books, t: Token): nat { b.bal.Get(t) + EscrowSum(b.v.orders, t) }

  /** No fee is charged, or the token-1 ceiling is worth less than 2^128 at the reference price. */
  ghost predicate FeesFit(c: Params, b: Books, feeBps: nat)
    requires c.Valid()
  {
    c.collector.None? || feeBps == 0 || Floor(Ceiling(b, Token1) * ONE, c.referencePrice) < TWO_128
  }

  lemma RatioFits(value: nat, ceiling: nat, price: nat)
    requires price > 0 && value <= ceiling && Floor(ceiling * ONE, price) < TWO_128
    ensures CheckedRatio(value, ONE, price).Some?
  {
    MulLe(value, ceiling, ONE);
    FloorMonotone(value * ONE, ceiling * ONE, price);
  }

  lemma FeeFits(c: Params, b: Books, v: Vault, credited: Amounts, feeBps: nat)
    requires c.Valid() && FeesFit(c, b, feeBps)
    requires v.free == b.bal && credited.t1 <= b.bal.t1 && Shrunk(b.v.orders, v.orders)
    ensures ChargeFee(c, v, credited, feeBps).Ok?
  {
    EscrowIsSum(v.orders, Ascending(v.orders.Keys), Token1);
    EscrowShrinks(b.v.orders, v.orders, Token1);
    hide Escrow, EscrowSum, Ascending, CheckedRatio, Floor;
    if c.collector.Some? && feeBps != 0 {
      var escrow := Escrow(v.orders, Ascending(v.orders.Keys));
      RatioFits(credited.t1, Ceiling(b, Token1), c.referencePrice);
      RatioFits(v.free.Plus(escrow).t1, Ceiling(b, Token1), c.referencePrice);
    }
  }

  /** Below the bound a reconcile's fee is always computable. */
  lemma FitIsComputable(c: Params, b: Books, ids: seq<OrderId>, feeBps: nat, limit: nat)
    requires c.Valid() && FeesFit(c, b, feeBps)
    ensures Handle(c, b, CallReconcile(ids, feeBps, limit)) != Err(ArithmeticOutOfRange)
  {
    var v1 := b.v.(free := b.bal);
    if b.bal.Covers(b.v.free) && ScanOrders(c, v1, b.p, ids).Ok? {
      ScanShrinks(c, v1, b.p, ids);
      var s := ScanOrders(c, v1, b.p, ids).value;
      FeeFits(c, b, v1.(orders := s.orders, activeOrders := s.activeOrders), b.bal.Minus(b.v.free), feeBps);
    }
    hide FeesFit, ChargeFee, AddConfirmablePages, ScanOrder;
    ScanErrors(c, v1, b.p, ids);
  }

  lemma {:induction false} ScanErrors(c: Params, v: Vault, p: Pair, ids: seq<OrderId>)
    ensures ScanOrders(c, v, p, ids) != Err(ArithmeticOutOfRange)
  {
    if ids != [] {
      ScanErrors(c, v, p, ids[..|ids| - 1]);
    }
  }

  /** And the ceiling does not rise over a reconcile and its claims. */
  lemma BatchKeepsCeiling(c: Params, w: World, ids: seq<OrderId>, feeBps: nat, limit: nat, t: Token)
    requires c.Valid() && WorldInv(c, w) && w.AtRest() && w.now.v.mode == Active && Batch(c, w.now.v, ids)
    requires Handle(c, w.now, CallReconcile(ids, feeBps, limit)) != Err(ArithmeticOutOfRange)
    ensures Ceiling(ReconcileTx(c, w, ids, feeBps, limit).now, t) <= Ceiling(w.now, t)
  {
    hide Inv, RestInv, Reconcile, Reconciled, ScanOk, ScanOrders, AddConfirmablePages, Batch, ChargeFee, Consistent,
         SharesOk, EscrowSum;
    var b := w.now;
    RestOfWorld(c, w);
    BatchOutcomes(c, b, ids, feeBps, limit);
    var s := ScanOrders(c, b.v.(free := b.bal), b.p, ids).value;
    var r := Reconcile(c, b.v, b.p, b.bal, ids, feeBps, limit);
    if r.Ok? {
      ReconcileBatch(c, w, ids, feeBps, limit);
      ReconcileKeeps(c, b, ids, feeBps, limit);
      StepKeeps(c, w, Start(CallReconcile(ids, feeBps, limit)));
      var mid := Step(c, w, Start(CallReconcile(ids, feeBps, limit)));
      var charged := ChargeFee(c, Scanned(b, s).v, b.credits, feeBps).value;
      ChargedFree(c, Scanned(b, s).v, b.credits, feeBps);
      ConfirmablePagesFacts(charged, [], s.claims, limit);
      NothingBrought(b.bal);
      assert mid == World(Books(r.value.vault, b.p, b.bal, Nothing()), b, r.value.subs, Landed);
      ScanShrinks(c, b.v.(free := b.bal), b.p, ids);
      EscrowShrinks(b.v.orders, s.orders, t);
      PagesAddNothing(c, mid, t);
      var after := Drain(c, mid);
      BalanceIsFree(c, after, ids, b);
    }
  }

  lemma ChargedFree(c: Params, v: Vault, credited: Amounts, feeBps: nat)
    requires c.Valid() && ChargeFee(c, v, credited, feeBps).Ok?
    ensures ChargeFee(c, v, credited, feeBps).value.free == v.free
  {
  }

  lemma BalanceIsFree(c: Params, w: World, ids: seq<OrderId>, before: Books)
    requires WorldInv(c, w) && w.AtRest() && Reconciled(before, w.now, ids)
    ensures forall t: Token :: w.now.bal.Get(t) == w.now.v.free.Get(t)
  {
    hide Inv, RestInv, Consistent, SharesOk;
    RestOfWorld(c, w);
    RestParts(c, w.now);
  }

  lemma CeilingKeepsFit(c: Params, b: Books, after: Books, feeBps: nat)
    requires c.Valid() && FeesFit(c, b, feeBps) && Ceiling(after, Token1) <= Ceiling(b, Token1)
    ensures FeesFit(c, after, feeBps)
  {
    MulLe(Ceiling(after, Token1), Ceiling(b, Token1), ONE);
    FloorMonotone(Ceiling(after, Token1) * ONE, Ceiling(b, Token1) * ONE, c.referencePrice);
  }

  lemma {:induction false} FitKeepsComputable(
    c: Params, w: World, batches: seq<seq<OrderId>>, feeBps: nat, limit: nat)
    requires c.Valid() && WorldInv(c, w) && w.AtRest() && w.now.v.mode == Active
    requires Batches(c, w.now.v, batches) && FeesFit(c, w.now, feeBps)
    ensures FeesComputable(c, w, batches, feeBps, limit)
    decreases |batches|
  {
    hide Inv, WorldInv, ReconcileTx, Handle, Clear, Batches, Batch, FeesFit, Ceiling;
    if batches != [] {
      var mid := ReconcileTx(c, w, batches[0], feeBps, limit);
      FirstBatch(c, w.now.v, batches);
      FitIsComputable(c, w.now, batches[0], feeBps, limit);
      ReconcileBatch(c, w, batches[0], feeBps, limit);
      BatchKeepsCeiling(c, w, batches[0], feeBps, limit, Token1);
      CeilingKeepsFit(c, w.now, mid.now, feeBps);
      BatchesRemain(c, w.now.v, mid.now.v, batches);
      FitKeepsComputable(c, mid, batches[1..], feeBps, limit);
    }
  }

  /** Reconciling every tracked order in bounded batches, claims confirmed and no pair step in between, makes
      the solvency query report expected equal to actual on both tokens and nothing executed, parked,
      cancelled or unverifiable. The only bound is on the holdings' worth before the first batch. */
  lemma ReconcileRestoresSolvency(
    c: Params, p: Pair, events: seq<Event>, batches: seq<seq<OrderId>>, feeBps: nat, limit: nat)
    requires c.Valid() && PairOk(p) && Reached(c, p, events).AtRest() && Reached(c, p, events).now.v.mode == Active
    requires var w := Reached(c, p, events);
             batches != [] && Batches(c, w.now.v, batches) && FeesFit(c, w.now, feeBps)
             && forall id :: id in w.now.v.orders ==> exists ids :: ids in batches && id in ids
    ensures var after := ReconcileAll(c, Reached(c, p, events), batches, feeBps, limit);
            var s := CheckSolvency(c, after.now.v, after.now.p, after.now.bal);
            after.AtRest()
            && (forall t: Token :: s.expected.Get(t) == s.actual.Get(t))
            && s.parked == 0 && s.executed == 0 && s.cancelled == 0 && s.unverifiable == 0
  {
    hide Reached, WorldInv, RestInv, Batches, FeesComputable, FeesFit, ReconcileAll, CheckSolvency;
    ReachedInv(c, p, events);
    FitKeepsComputable(c, Reached(c, p, events), batches, feeBps, limit);
    ReconcileBalances(c, p, events, batches, feeBps, limit);
  }
}
