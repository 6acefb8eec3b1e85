/** The solvency query against the books: the exact gap between expected and actual assets, and
    reconciling every tracked order closing it. */
module LimitSolvency {
  import opened Arithmetic
  import opened Tokens
  import opened LimitGrid
  import opened LimitChain
  import opened LimitInvariant
  import opened LimitSteps
  import opened LimitTheorems
  import opened LimitPages

  // ---- The query's totals ----

  /** What the pair still holds of an order; an executed one holds nothing. */
  function PairRemaining(p: Pair, id: OrderId): nat
  {
    if id in p.active then p.active[id].remaining else if id in p.parked then p.parked[id].remaining else 0
  }

  /** Escrow of token `t` recorded for the listed orders but no longer on the pair: fills not yet seen. */
  function Unseen(orders: map<OrderId, GridOrder>, p: Pair, listed: seq<OrderId>, t: Token): int
    requires forall id :: id in listed ==> id in orders
  {
    if listed == [] then 0
    else
      var last := |listed| - 1;
      var o := orders[listed[last]];
      Unseen(orders, p, listed[..last], t)
      + if o.side.Input() == t then o.remaining - PairRemaining(p, listed[last]) else 0
  }

  lemma {:induction false} SolvencyTotals(c: Params, v: Vault, p: Pair, start: Solvency, listed: seq<OrderId>)
    requires Consistent(c, v.orders, v.cancelled, p, {}) && forall id :: id in listed ==> id in v.orders
    ensures var s := SolvencyOver(c, v, p, start, listed);
            (forall t: Token ::
               Unseen(v.orders, p, listed, t) >= 0
               && s.expected.Get(t) - s.actual.Get(t)
                  == start.expected.Get(t) - start.actual.Get(t) + Unseen(v.orders, p, listed, t))
            && s.unverifiable == start.unverifiable && s.cancelled == start.cancelled
            && s.active + s.parked + s.executed == start.active + start.parked + start.executed + |listed|
  {
    if listed != [] {
      var last := |listed| - 1;
      SolvencyTotals(c, v, p, start, listed[..last]);
      var before := SolvencyOver(c, v, p, start, listed[..last]);
      assert listed[last] in v.orders;
      OneOrderCounted(c, v, p, before, listed[last]);
    }
  }

  lemma OneOrderCounted(c: Params, v: Vault, p: Pair, s: Solvency, id: OrderId)
    requires Consistent(c, v.orders, v.cancelled, p, {}) && id in v.orders
    ensures var r := SolvencyWith(c, v, p, s, id);
            var o := v.orders[id];
            PairRemaining(p, id) <= o.remaining
            && (forall t: Token ::
                  r.expected.Get(t) - r.actual.Get(t)
                  == s.expected.Get(t) - s.actual.Get(t)
                     + (if o.side.Input() == t then o.remaining - PairRemaining(p, id) else 0))
            && r.unverifiable == s.unverifiable && r.cancelled == s.cancelled
            && r.active + r.parked + r.executed == s.active + s.parked + s.executed + 1
            && r.parked == s.parked + (if id in p.parked then 1 else 0)
            && r.executed == s.executed + (if id in p.executed then 1 else 0)
  {
  }

  /** In every reachable state at rest and for each token: expected assets exceed actual ones by the fills
      not yet seen less the arrivals not yet synchronised. Every tracked order is verified and none is
      counted as cancelled. */
  lemma SolvencyGap(c: Params, p: Pair, events: seq<Event>, t: Token)
    requires c.Valid() && PairOk(p) && Reached(c, p, events).AtRest()
    ensures var b := Reached(c, p, events).now;
            var s := CheckSolvency(c, b.v, b.p, b.bal);
            s.expected.Get(t) - s.actual.Get(t)
            == Unseen(b.v.orders, b.p, Ascending(b.v.orders.Keys), t) - b.credits.Get(t)
            && s.unverifiable == 0 && s.cancelled == 0
            && s.active + s.parked + s.executed == |Ascending(b.v.orders.Keys)|
  {
    ReachedInv(c, p, events);
    var b := Reached(c, p, events).now;
    hide Reached, Inv, RestInv, Consistent;
    RestParts(c, b);
    SolvencyTotals(c, b.v, b.p, Solvency(b.v.free, b.bal, 0, 0, 0, 0, 0), Ascending(b.v.orders.Keys));
  }

  /** The query is not a per-token lower bound: a fill of a fully synchronised vault takes the escrow out at
      once, so `expected` exceeds `actual` in that token until the order is reconciled. */
  lemma FillOpensGap(c: Params, b: Books, id: OrderId, taken: nat, proceeds: nat)
    requires RestInv(c, b) && b.credits == Nothing() && forall other :: other in b.v.orders ==> Clear(b, other)
    requires id in b.v.orders && id in b.p.active && 0 < taken <= b.p.active[id].remaining
    ensures var after := PairStep(c, b, Fill(id, taken, proceeds, true));
            var s := CheckSolvency(c, after.v, after.p, after.bal);
            var escrow := b.v.orders[id].side.Input();
            s.expected.Get(escrow) == s.actual.Get(escrow) + taken
  {
    hide Inv, RestInv, PairStep, Consistent, SharesOk, Clear;
    var after := PairStep(c, b, Fill(id, taken, proceeds, true));
    var listed := Ascending(b.v.orders.Keys);
    var escrow := b.v.orders[id].side.Input();
    PairStepKeeps(c, b, Fill(id, taken, proceeds, true));
    OwnFill(c, b, id, taken, proceeds);
    RestParts(c, after);
    SolvencyTotals(c, after.v, after.p, Solvency(after.v.free, after.bal, 0, 0, 0, 0, 0), listed);
    UnseenOfOneFill(b, after.p, listed, id, taken);
  }

  /** A fill that leaves the order on the book: its remaining shrinks, proceeds of the other token arrive. */
  lemma OwnFill(c: Params, b: Books, id: OrderId, taken: nat, proceeds: nat)
    requires RestInv(c, b) && id in b.v.orders && id in b.p.active && 0 < taken <= b.p.active[id].remaining
    ensures var after := PairStep(c, b, Fill(id, taken, proceeds, true));
            var escrow := b.v.orders[id].side.Input();
            after.v == b.v && after.credits.Get(escrow) == b.credits.Get(escrow)
            && after.p == b.p.(active :=
               b.p.active[id := b.p.active[id].(remaining := b.p.active[id].remaining - taken)])
  {
    OwnedByVault(c, b, id);
  }

  lemma OwnedByVault(c: Params, b: Books, id: OrderId)
    requires RestInv(c, b) && id in b.v.orders && id in b.p.active
    ensures b.p.active[id].owner == c.self && b.p.active[id].side == b.v.orders[id].side
  {
    RestParts(c, b);
  }

  lemma {:induction false} UnseenOfOneFill(b: Books, p: Pair, listed: seq<OrderId>, id: OrderId, taken: nat)
    requires forall i, j :: 0 <= i < j < |listed| ==> listed[i] != listed[j]
    requires forall other :: other in listed ==> other in b.v.orders && Clear(b, other)
    requires id in b.p.active && taken <= b.p.active[id].remaining
    requires p == b.p.(active := b.p.active[id := b.p.active[id].(remaining := b.p.active[id].remaining - taken)])
    requires id in b.v.orders
    ensures Unseen(b.v.orders, p, listed, b.v.orders[id].side.Input()) == if id in listed then taken else 0
  {
    if listed != [] {
      var last := |listed| - 1;
      UnseenOfOneFill(b, p, listed[..last], id, taken);
      assert listed == listed[..last] + [listed[last]];
    }
  }

  // ---- Reconciling everything ----

  /** The vault's record of the order is what the pair holds. */
  ghost predicate Clear(b: Books, id: OrderId)
  {
    id in b.v.orders ==> id in b.p.active && b.p.active[id].remaining == b.v.orders[id].remaining
  }

  /** With nothing unsynchronised and every order clear the books balance on both tokens, and every
      tracked order rests on the pair. */
  lemma ClearMeansSolvent(c: Params, b: Books)
    requires RestInv(c, b) && b.credits == Nothing() && forall id :: id in b.v.orders ==> Clear(b, id)
    ensures var s := CheckSolvency(c, b.v, b.p, b.bal);
            (forall t: Token :: s.expected.Get(t) == s.actual.Get(t))
            && s.parked == 0 && s.executed == 0 && s.cancelled == 0 && s.unverifiable == 0
  {
    hide Inv, RestInv;
    RestParts(c, b);
    SolvencyTotals(c, b.v, b.p, Solvency(b.v.free, b.bal, 0, 0, 0, 0, 0), Ascending(b.v.orders.Keys));
    ClearUnseen(c, b.v, b, Solvency(b.v.free, b.bal, 0, 0, 0, 0, 0), Ascending(b.v.orders.Keys));
  }

  lemma {:induction false} ClearUnseen(c: Params, v: Vault, b: Books, start: Solvency, listed: seq<OrderId>)
    requires v == b.v && Consistent(c, v.orders, v.cancelled, b.p, {})
    requires forall id :: id in listed ==> id in v.orders && Clear(b, id)
    ensures forall t: Token :: Unseen(v.orders, b.p, listed, t) == 0
    ensures var s := SolvencyOver(c, v, b.p, start, listed); s.parked == start.parked && s.executed == start.executed
  {
    if listed != [] {
      var last := |listed| - 1;
      ClearUnseen(c, v, b, start, listed[..last]);
      assert listed[last] in listed && Clear(b, listed[last]);
      OneOrderCounted(c, v, b.p, SolvencyOver(c, v, b.p, start, listed[..last]), listed[last]);
    }
  }

  /** One reconcile and its claim pages, with no pair step in between. */
  function ReconcileTx(c: Params, w: World, ids: seq<OrderId>, feeBps: nat, limit: nat): World
    requires c.Valid() && w.AtRest()
  {
    Drain(c, Step(c, w, Start(CallReconcile(ids, feeBps, limit))))
  }

  function ReconcileAll(c: Params, w: World, batches: seq<seq<OrderId>>, feeBps: nat, limit: nat): World
    requires c.Valid() && w.AtRest()
    decreases |batches|
  {
    if batches == [] then w
    else
      var after := ReconcileTx(c, w, batches[0], feeBps, limit);
      if after.AtRest() then ReconcileAll(c, after, batches[1..], feeBps, limit) else after
  }

  /** Distinct tracked ids are always accepted by the scan. */
  lemma {:induction false} ScanAccepts(c: Params, v: Vault, p: Pair, ids: seq<OrderId>)
    requires Consistent(c, v.orders, v.cancelled, p, {}) && v.activeOrders == |v.orders|
    requires forall i, j :: 0 <= i < j < |ids| ==> ids[i] != ids[j]
    requires forall id :: id in ids ==> id in v.orders
    ensures ScanOrders(c, v, p, ids).Ok?
  {
    if ids != [] {
      var last := |ids| - 1;
      ScanAccepts(c, v, p, ids[..last]);
      ScanFacts(c, v, p, ids[..last]);
      hide Inspect, Agrees, ClaimsOk, AllSettled;
      var earlier := ScanOrders(c, v, p, ids[..last]).value;
      assert ids[last] in ids && ids[last] !in ids[..last];
      assert ids[last] in earlier.orders;
      ScanOneFacts(c, v, p, ids[..last], earlier, ids[last]);
    }
  }

  /** A batch of distinct tracked orders. */
  ghost predicate Batch(c: Params, v: Vault, ids: seq<OrderId>)
  {
    0 < |ids| <= c.maxPerReconcile
    && (forall i, j :: 0 <= i < j < |ids| ==> ids[i] != ids[j])
    && forall id :: id in ids ==> id in v.orders
  }

  /** What one reconcile with its claims does: the batch is clear, nothing is left unsynchronised, what was
      clear stays so, and orders outside the batch stay tracked. */
  ghost predicate Reconciled(before: Books, after: Books, ids: seq<OrderId>)
  {
    after.credits == Nothing() && after.v.mode == Active
    && (forall id :: id in ids ==> Clear(after, id))
    && (forall id :: Clear(before, id) ==> Clear(after, id))
    && (forall id :: id in after.v.orders ==> id in before.v.orders)
    && (forall id :: id in before.v.orders && id !in ids ==> id in after.v.orders)
  }

  /** How a reconcile of a batch can end: with a fee that leaves 128 bits, with nothing to do, or well. */
  lemma BatchOutcomes(c: Params, b: Books, ids: seq<OrderId>, feeBps: nat, limit: nat)
    requires c.Valid() && RestInv(c, b) && b.v.mode == Active && Batch(c, b.v, ids)
    ensures ScanOrders(c, b.v.(free := b.bal), b.p, ids).Ok?
    ensures var s := ScanOrders(c, b.v.(free := b.bal), b.p, ids).value;
            var r := Reconcile(c, b.v, b.p, b.bal, ids, feeBps, limit);
            ScanOk(c, b.v, b.p, ids, s)
            && (r.Err? && r.error != ArithmeticOutOfRange ==> s.changed == 0 && b.credits == Nothing())
            && (r.Ok? ==>
                  var charged := ChargeFee(c, Scanned(b, s).v, b.credits, feeBps);
                  charged.Ok? && charged.value.orders == s.orders && charged.value.pages == map[]
                  && charged.value.mode == Active && charged.value.nextReply == b.v.nextReply
                  && r.value == AddConfirmablePages(charged.value, [], s.claims, limit))
  {
    hide Inv, RestInv, ScanOrders, ScanOk, AddConfirmablePages, Consistent, SharesOk;
    RestParts(c, b);
    ScanAccepts(c, b.v.(free := b.bal), b.p, ids);
    ScanOkFrom(c, b, ids);
    assert b.bal.t0 == b.bal.Get(Token0) && b.bal.t1 == b.bal.Get(Token1);
    ReconcileOutcome(c, b, ids, feeBps, limit);
  }

  lemma ScanOkFrom(c: Params, b: Books, ids: seq<OrderId>)
    requires RestInv(c, b) && ScanOrders(c, b.v.(free := b.bal), b.p, ids).Ok?
    ensures ScanOk(c, b.v, b.p, ids, ScanOrders(c, b.v.(free := b.bal), b.p, ids).value)
  {
    ScannedRests(c, b, ids);
  }

  lemma ReconcileOutcome(c: Params, b: Books, ids: seq<OrderId>, feeBps: nat, limit: nat)
    requires c.Valid() && b.v.mode == Active && 0 < |ids| <= c.maxPerReconcile && b.v.pages == map[]
    requires b.bal.Covers(b.v.free) && b.bal.Minus(b.v.free) == b.credits
    requires ScanOrders(c, b.v.(free := b.bal), b.p, ids).Ok?
    ensures var s := ScanOrders(c, b.v.(free := b.bal), b.p, ids).value;
            var r := Reconcile(c, b.v, b.p, b.bal, ids, feeBps, limit);
            (r.Err? && r.error != ArithmeticOutOfRange ==> s.changed == 0 && b.credits == Nothing())
            && (r.Ok? ==>
                  var charged := ChargeFee(c, Scanned(b, s).v, b.credits, feeBps);
                  charged.Ok? && charged.value.orders == s.orders && charged.value.pages == map[]
                  && charged.value.mode == Active && charged.value.nextReply == b.v.nextReply
                  && r.value == AddConfirmablePages(charged.value, [], s.claims, limit))
  {
    hide ScanOrders, AddConfirmablePages;
    var s := ScanOrders(c, b.v.(free := b.bal), b.p, ids).value;
    var start := Scanned(b, s).v;
    var charged := ChargeFee(c, start, b.credits, feeBps);
    assert charged.Ok? ==> charged.value == start.(shares := charged.value.shares, total := charged.value.total);
    assert charged.Err? ==> charged.error == ArithmeticOutOfRange;
  }

  lemma ClaimedAway(c: Params, p: Pair, ids: seq<OrderId>, before: Books, s: Scan, mid: Books, after: Books)
    requires TracksOk(c, before.v.orders, p, ids, s.orders)
    requires ClaimsOk(p, ids, s.orders, s.claims) && AllSettled(p, ids, s.orders, s.claims)
    requires before.p == p && mid.p == p && mid.v.orders == s.orders && mid.v.mode == Active && mid.credits == Nothing()
    requires Removes(mid, after, EntryIds(s.claims))
    ensures Reconciled(before, after, ids)
  {
    var gone := EntryIds(s.claims);
    forall id | id in gone ensures id in ids {
      var i :| 0 <= i < |s.claims| && s.claims[i].id == id;
      assert s.claims[i] in s.claims;
    }
    hide EntryIds, ClaimsOk;
  }

  lemma ReconcileBatch(c: Params, w: World, ids: seq<OrderId>, feeBps: nat, limit: nat)
    requires c.Valid() && WorldInv(c, w) && w.AtRest() && w.now.v.mode == Active && Batch(c, w.now.v, ids)
    requires Handle(c, w.now, CallReconcile(ids, feeBps, limit)) != Err(ArithmeticOutOfRange)
    ensures var after := ReconcileTx(c, w, ids, feeBps, limit);
            after.AtRest() && WorldInv(c, after) && Reconciled(w.now, after.now, ids)
  {
    hide Inv, RestInv, Reconcile, Reconciled, ScanOk, ScanOrders, AddConfirmablePages, Batch, ChargeFee, Consistent,
      SharesOk;
    var b := w.now;
    RestOfWorld(c, w);
    BatchOutcomes(c, b, ids, feeBps, limit);
    var s := ScanOrders(c, b.v.(free := b.bal), b.p, ids).value;
    var r := Reconcile(c, b.v, b.p, b.bal, ids, feeBps, limit);
    var mid := Step(c, w, Start(CallReconcile(ids, feeBps, limit)));
    if r.Err? {
      NothingLeftToDo(c, b, ids, s);
    } else {
      ReconcileKeeps(c, b, ids, feeBps, limit);
      StepKeeps(c, w, Start(CallReconcile(ids, feeBps, limit)));
      var charged := ChargeFee(c, Scanned(b, s).v, b.credits, feeBps).value;
      ConfirmablePagesFacts(charged, [], s.claims, limit);
      assert mid == World(Books(r.value.vault, b.p, b.bal, Nothing()), b, r.value.subs, Landed) by {
        NothingBrought(b.bal);
      }
      PagesSucceed(c, mid);
      assert Dues(mid.now.v.pages, mid.queue) == Tagged(Claim, s.claims);
      TaggedIds(s.claims);
      ScanParts(c, b.v, b.p, ids, s);
      ClaimedAway(c, b.p, ids, b, s, mid.now, Drain(c, mid).now);
    }
  }

  lemma ScanParts(c: Params, v: Vault, p: Pair, ids: seq<OrderId>, s: Scan)
    requires ScanOk(c, v, p, ids, s)
    ensures TracksOk(c, v.orders, p, ids, s.orders) && ClaimsOk(p, ids, s.orders, s.claims)
            && AllSettled(p, ids, s.orders, s.claims)
  {
    hide TracksOk, ClaimsOk, AllSettled;
  }

  lemma TaggedIds(claims: seq<PageEntry>)
    ensures DueIds(Tagged(Claim, claims)) == EntryIds(claims)
  {
    DueIdsOfFirst(claims, Claim, []);
    assert Tagged(Claim, claims) + [] == Tagged(Claim, claims);
  }

  lemma NothingLeftToDo(c: Params, b: Books, ids: seq<OrderId>, s: Scan)
    requires ScanOk(c, b.v, b.p, ids, s) && s.changed == 0 && b.credits == Nothing() && b.v.mode == Active
    ensures Reconciled(b, b, ids)
  {
    forall id | id in ids ensures Clear(b, id) {
      assert SettledBy(s.orders, b.p, s.claims, id);
    }
  }

  /** No batch's fee leaves 128 bits. */
  ghost predicate FeesComputable(c: Params, w: World, batches: seq<seq<OrderId>>, feeBps: nat, limit: nat)
    requires c.Valid() && w.AtRest()
    decreases |batches|
  {
    batches == []
    || (Handle(c, w.now, CallReconcile(batches[0], feeBps, limit)) != Err(ArithmeticOutOfRange)
        && var after := ReconcileTx(c, w, batches[0], feeBps, limit);
           after.AtRest() ==> FeesComputable(c, after, batches[1..], feeBps, limit))
  }

  /** Disjoint batches of distinct tracked orders, each within the limit per call. */
  ghost predicate Batches(c: Params, v: Vault, batches: seq<seq<OrderId>>)
  {
    (forall ids :: ids in batches ==> Batch(c, v, ids))
    && forall i, j :: 0 <= i < j < |batches| ==> forall id :: id in batches[i] ==> id !in batches[j]
  }

  lemma BatchesRemain(c: Params, v: Vault, after: Vault, batches: seq<seq<OrderId>>)
    requires batches != [] && Batches(c, v, batches)
    requires forall id :: id in v.orders && id !in batches[0] ==> id in after.orders
    ensures Batches(c, after, batches[1..])
  {
    forall ids | ids in batches[1..] ensures Batch(c, after, ids) {
      var j :| 0 <= j < |batches| - 1 && batches[1..][j] == ids;
      assert ids == batches[j + 1] && ids in batches;
      forall id | id in ids ensures id in after.orders {
        assert Batch(c, v, ids);
        assert id !in batches[0];
      }
    }
  }

  /** Reconciling in batches makes every order of every batch clear, and keeps clear what was. */
  lemma {:induction false} ReconcileAllClears(c: Params, w: World, batches: seq<seq<OrderId>>, feeBps: nat, limit: nat)
    requires c.Valid() && WorldInv(c, w) && w.AtRest() && w.now.v.mode == Active
    requires Batches(c, w.now.v, batches) && FeesComputable(c, w, batches, feeBps, limit)
    ensures var after := ReconcileAll(c, w, batches, feeBps, limit);
            after.AtRest() && WorldInv(c, after)
            && (batches != [] || w.now.credits == Nothing() ==> after.now.credits == Nothing())
            && (forall ids, id :: ids in batches && id in ids ==> Clear(after.now, id))
            && (forall id :: Clear(w.now, id) ==> Clear(after.now, id))
            && (forall id :: id in after.now.v.orders ==> id in w.now.v.orders)
    decreases |batches|
  {
    hide Inv, WorldInv, ReconcileTx, Handle, Clear, Batches, Batch;
    if batches != [] {
      var mid := ReconcileTx(c, w, batches[0], feeBps, limit);
      FirstBatch(c, w.now.v, batches);
      ReconcileBatch(c, w, batches[0], feeBps, limit);
      BatchesRemain(c, w.now.v, mid.now.v, batches);
      ReconcileAllClears(c, mid, batches[1..], feeBps, limit);
      forall ids, id | ids in batches && id in ids
        ensures Clear(ReconcileAll(c, w, batches, feeBps, limit).now, id)
      {
        assert ids == batches[0] || ids in batches[1..];
      }
    }
  }

  lemma FirstBatch(c: Params, v: Vault, batches: seq<seq<OrderId>>)
    requires batches != [] && Batches(c, v, batches)
    ensures Batch(c, v, batches[0])
  {
    assert batches[0] in batches;
  }

  /** The solvency query after reconciling every tracked order, as long as no fee leaves 128 bits. */
  lemma ReconcileBalances(
    c: Params, p: Pair, events: seq<Event>, batches: seq<seq<OrderId>>, feeBps: nat, limit: nat)
    requires c.Valid() && PairOk(p) && Reached(c, p, events).AtRest() && Reached(c, p, events).now.v.mode == Active
    requires var w := Reached(c, p, events);
             batches != [] && Batches(c, w.now.v, batches) && FeesComputable(c, w, batches, feeBps, limit)
             && forall id :: id in w.now.v.orders ==> exists ids :: ids in batches && id in ids
    ensures var after := ReconcileAll(c, Reached(c, p, events), batches, feeBps, limit);
            var s := CheckSolvency(c, after.now.v, after.now.p, after.now.bal);
            after.AtRest()
            && (forall t: Token :: s.expected.Get(t) == s.actual.Get(t))
            && s.parked == 0 && s.executed == 0 && s.cancelled == 0 && s.unverifiable == 0
  {
    ReachedInv(c, p, events);
    var w := Reached(c, p, events);
    var after := ReconcileAll(c, w, batches, feeBps, limit);
    hide Reached, Inv, WorldInv, RestInv, Batches, FeesComputable, ReconcileAll, Clear, CheckSolvency;
    ReconcileAllClears(c, w, batches, feeBps, limit);
    forall id | id in after.now.v.orders ensures Clear(after.now, id) {
      assert id in w.now.v.orders;
    }
    RestOfWorld(c, after);
    ClearMeansSolvent(c, after.now);
  }
}
