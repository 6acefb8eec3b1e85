/** What the limit-grid calls that move orders achieve once their pages have run: which orders they settle,
    what becomes of every record, that not a unit is lost on the way, and exactly when they commit. */
module LimitOutcomes {
  import opened Arithmetic
  import opened Tokens
  import opened Ledger
  import opened LimitGrid
  import opened LimitChain
  import opened LimitInvariant
  import opened LimitSteps
  import opened LimitTheorems
  import opened LimitPages
  import opened LimitSolvency
  import opened LimitFees
  import LimitCalls
  import LimitExit
  import FeeMint

  // ---- Pages settle their orders ----

  /** The tracked orders with the remaining the pair holds for them. */
  function AsHeld(orders: map<OrderId, GridOrder>, p: Pair): map<OrderId, GridOrder>
  {
    map id | id in orders :: orders[id].(remaining := PairRemaining(p, id))
  }

  /** What is really there of a token: free, or held by the pair for a tracked order. */
  ghost function Assets(v: Vault, p: Pair, t: Token): nat { v.free.Get(t) + EscrowSum(AsHeld(v.orders, p), t) }

  /** What goes on file for those of `ids` that rest on the book. */
  function Filing(v: Vault, p: Pair, ids: set<OrderId>): map<OrderId, CancelledOrder>
  {
    map id | id in ids && id in v.orders && id in p.active ::
      CancelledOrder(v.orders[id].rung, v.orders[id].side, v.orders[id].price, p.active[id].remaining)
  }

  /** The orders leave vault and pair, all that the pair held of them comes back, and those that rested on
      the book are on file as cancelled. */
  ghost predicate Settles(b: Books, after: Books, ids: set<OrderId>)
  {
    Removes(b, after, ids)
    && after.v.cancelled == b.v.cancelled + Filing(b.v, b.p, ids)
    && forall t: Token :: Assets(after.v, after.p, t) == Assets(b.v, b.p, t)
  }

  lemma SettlesNothing(b: Books)
    ensures Settles(b, b, {})
  {
    RemovesNothing(b);
    assert b.v.cancelled + Filing(b.v, b.p, {}) == b.v.cancelled;
  }

  lemma SettlesBoth(b: Books, mid: Books, after: Books, first: set<OrderId>, rest: set<OrderId>)
    requires Settles(b, mid, first) && Settles(mid, after, rest)
    ensures Settles(b, after, first + rest)
  {
    hide Assets, Filing, Removes;
    RemovesBoth(b, mid, after, first, rest);
    FilingBoth(b, mid, first, rest);
    assert b.v.cancelled + Filing(b.v, b.p, first) + Filing(mid.v, mid.p, rest)
      == b.v.cancelled + (Filing(b.v, b.p, first) + Filing(mid.v, mid.p, rest));
  }

  lemma FilingBoth(b: Books, mid: Books, first: set<OrderId>, rest: set<OrderId>)
    requires Removes(b, mid, first)
    ensures Filing(b.v, b.p, first) + Filing(mid.v, mid.p, rest) == Filing(b.v, b.p, first + rest)
  {
    var both, all := Filing(b.v, b.p, first) + Filing(mid.v, mid.p, rest), Filing(b.v, b.p, first + rest);
    forall id ensures id in both <==> id in all {
    }
    forall id | id in all ensures both[id] == all[id] {
    }
  }

  lemma AsHeldWithout(orders: map<OrderId, GridOrder>, p: Pair, ids: set<OrderId>)
    ensures AsHeld(orders - ids, p.(active := p.active - ids, parked := p.parked - ids)) == AsHeld(orders, p) - ids
  {
  }

  /** Distinct entries that refund what is recorded take exactly that out of the records. */
  lemma {:induction false} RefundsCarry(orders: map<OrderId, GridOrder>, entries: seq<PageEntry>, t: Token)
    requires DistinctEntries(entries)
    requires forall e :: e in entries ==>
               e.id in orders && e.token == orders[e.id].side.Input() && e.refund == orders[e.id].remaining
    ensures EscrowSum(orders - EntryIds(entries), t) + RefundSum(entries, t) == EscrowSum(orders, t)
  {
    if entries == [] {
      assert orders - EntryIds([]) == orders;
    } else {
      var last := |entries| - 1;
      LastEntry(entries);
      assert entries[last] in entries;
      RefundsCarry(orders, entries[..last], t);
      hide EntryIds, DistinctEntries;
      var left := orders - EntryIds(entries[..last]);
      OneOrderLess(orders, EntryIds(entries[..last]), entries[last].id);
      EscrowWithout(left, entries[last].id, t);
    }
  }

  lemma FiledIsFiling(
    v: Vault, p: Pair, cancelled: map<OrderId, CancelledOrder>, kind: PageKind, entries: seq<PageEntry>)
    requires LimitCalls.Filed(v, cancelled, kind, entries) && p.active.Keys !! p.parked.Keys
    requires forall e :: e in entries ==> e.id in v.orders && Payable(p, Due(kind, e))
    ensures cancelled == v.cancelled + Filing(v, p, EntryIds(entries))
  {
    var filing := Filing(v, p, EntryIds(entries));
    forall id | id in EntryIds(entries)
      ensures if kind == Cancel then id in filing && id in cancelled && cancelled[id] == filing[id] else id !in filing
    {
      var i :| 0 <= i < |entries| && entries[i].id == id;
      assert entries[i] in entries;
    }
    hide EntryIds;
    assert filing.Keys == if kind == Cancel then EntryIds(entries) else {};
  }

  lemma PageDrained(c: Params, w: World)
    requires c.Valid() && WorldInv(c, w) && w.flight == Landed && w.queue != [] && w.queue[0] in w.now.v.pages
    ensures var after := Step(c, Step(c, w, Obliged()), Deliver);
            Settles(w.now, after.now, EntryIds(w.now.v.pages[w.queue[0]].entries))
  {
    hide Inv, RestInv, Execute, Reply, EntryIds, Removes, LimitCalls.Filed, RefundSum, DistinctEntries, EscrowSum,
         AsHeld, Filing, Consistent, RepliesOk, DuesOk, Custody, Counted, SharesOk, FlightOk;
    var b, page := w.now, w.now.v.pages[w.queue[0]];
    var ids := EntryIds(page.entries);
    var run := Step(c, w, Obliged());
    PageSettles(c, w);
    PageExecutable(c, b, w.queue);
    StepKeeps(c, w, Obliged());
    PageExecutes(c, b, w.queue, Succeeds([], 0));
    LimitCalls.PageReplyAnswers(c, run);
    QueuedRefunds(c, b, w.queue);
    FiledIsFiling(b.v, b.p, Step(c, run, Deliver).now.v.cancelled, page.kind, page.entries);
    RefundsCarry(AsHeld(b.v.orders, b.p), page.entries, Token0);
    RefundsCarry(AsHeld(b.v.orders, b.p), page.entries, Token1);
    RemovedAsHeld(b, Step(c, run, Deliver).now, ids);
  }

  lemma RemovedAsHeld(b: Books, after: Books, ids: set<OrderId>)
    requires Removes(b, after, ids)
    ensures AsHeld(after.v.orders, after.p) == AsHeld(b.v.orders, b.p) - ids
  {
    AsHeldWithout(b.v.orders, b.p, ids);
  }

  lemma QueuedRefunds(c: Params, b: Books, queue: seq<ReplyId>)
    requires Inv(c, b, queue, Landed) && queue != [] && queue[0] in b.v.pages
    ensures var page, held := b.v.pages[queue[0]], AsHeld(b.v.orders, b.p);
            b.p.active.Keys !! b.p.parked.Keys && DistinctEntries(page.entries)
            && forall e :: e in page.entries ==>
                 e.id in b.v.orders && Payable(b.p, Due(page.kind, e))
                 && e.id in held && e.token == held[e.id].side.Input() && e.refund == held[e.id].remaining
  {
    QueuedParts(c, b, queue);
    hide Inv, RepliesOk, Custody, Counted, SharesOk, FlightOk;
    DuesOfFirst(b.v.pages, b.v.orders, b.p, queue);
    FirstPageDues(b.v.pages, b.v.orders, queue);
  }

  /** Every queued page settles its orders. */
  lemma {:induction false} PagesSettle(c: Params, w: World)
    requires c.Valid() && WorldInv(c, w) && w.flight == Landed && forall r :: r in w.queue ==> r in w.now.v.pages
    ensures var after := Drain(c, w);
            after.AtRest() && WorldInv(c, after) && Settles(w.now, after.now, DueIds(Dues(w.now.v.pages, w.queue)))
    decreases |w.queue|
  {
    hide WorldInv, Inv, Removes, Settles, Step, EntryIds;
    PagesSucceed(c, w);
    if w.queue == [] {
      assert DueIds(Dues(w.now.v.pages, [])) == {};
      SettlesNothing(w.now);
    } else {
      var mid := Step(c, Step(c, w, Obliged()), Deliver);
      var page := w.now.v.pages[w.queue[0]];
      PageSettles(c, w);
      PageDrained(c, w);
      QueueDistinct(c, w);
      PagesSettle(c, mid);
      DuesFrame(w.now.v.pages, mid.now.v.pages, mid.queue);
      DueIdsOfFirst(page.entries, page.kind, Dues(w.now.v.pages, mid.queue));
      SettlesBoth(w.now, mid.now, Drain(c, mid).now, EntryIds(page.entries), DueIds(Dues(w.now.v.pages, mid.queue)));
    }
  }

  // ---- Reconcile ----

  /** The records after a batch has been reviewed against the pair: a resting order is brought down to what
      the pair holds, one that holds nothing is dropped, a parked refund stays until it is claimed. */
  function Reviewed(orders: map<OrderId, GridOrder>, p: Pair, ids: seq<OrderId>): map<OrderId, GridOrder>
  {
    map id | id in orders && (id in ids ==> PairRemaining(p, id) > 0) ::
      if id in ids && id in p.active then orders[id].(remaining := p.active[id].remaining) else orders[id]
  }

  /** A reconcile has nothing to do for an order that rests untouched. */
  predicate AsRecorded(orders: map<OrderId, GridOrder>, p: Pair, id: OrderId)
  {
    id in orders && id in p.active && p.active[id].remaining == orders[id].remaining > 0
  }

  /** The batch's parked refunds that hold something. */
  function ParkedOf(p: Pair, ids: seq<OrderId>): set<OrderId>
  {
    set id | id in ids && id in p.parked && p.parked[id].remaining > 0
  }

  /** The loop against the review: it accepts exactly distinct tracked ids and then has done it. */
  ghost predicate Scans(v: Vault, p: Pair, ids: seq<OrderId>, r: Result<Scan, Error>)
  {
    (r.Ok? <==> (forall i, j :: 0 <= i < j < |ids| ==> ids[i] != ids[j]) && forall id :: id in ids ==> id in v.orders)
    && (r.Ok? ==>
          r.value.orders == Reviewed(v.orders, p, ids)
          && EntryIds(r.value.claims) == ParkedOf(p, ids)
          && (r.value.changed == 0 <==> forall id :: id in ids ==> AsRecorded(v.orders, p, id)))
  }

  lemma {:induction false} ScanReviews(c: Params, v: Vault, p: Pair, ids: seq<OrderId>)
    requires Consistent(c, v.orders, v.cancelled, p, {}) && v.activeOrders == |v.orders|
    ensures Scans(v, p, ids, ScanOrders(c, v, p, ids))
  {
    hide Scans, Consistent, ScanOk, ScanOrder;
    if ids == [] {
      NothingScanned(v, p);
    } else {
      var last := |ids| - 1;
      var id := ids[last];
      ScanReviews(c, v, p, ids[..last]);
      ScanFacts(c, v, p, ids[..last]);
      var earlier := ScanOrders(c, v, p, ids[..last]);
      assert ids == ids[..last] + [id];
      if earlier.Ok? && id !in ids[..last] && id in v.orders {
        ReviewFrame(v, p, ids[..last], earlier, id);
        ReviewOne(c, v, p, ids[..last], earlier.value, id);
        ScansOneMore(v, p, ids[..last], earlier.value, id, ScanOrder(c, v, earlier.value, p, id).value);
      } else {
        ScanRefused(c, v, p, ids[..last], id, earlier, ScanOrders(c, v, p, ids));
      }
    }
  }

  lemma NothingScanned(v: Vault, p: Pair)
    ensures Scans(v, p, [], Ok(Scan(v.orders, v.activeOrders, [], 0, 0, 0)))
  {
    assert Reviewed(v.orders, p, []) == v.orders;
  }

  lemma ReviewFrame(v: Vault, p: Pair, ids: seq<OrderId>, r: Result<Scan, Error>, id: OrderId)
    requires Scans(v, p, ids, r) && r.Ok? && id !in ids && id in v.orders
    ensures id in r.value.orders && r.value.orders[id] == v.orders[id]
  {
  }

  /** What the pair's answer on one more order does to the scan. */
  ghost predicate ReviewStep(v: Vault, p: Pair, s: Scan, id: OrderId, s': Scan)
    requires id in v.orders
  {
    var left := PairRemaining(p, id);
    s'.orders == (if left == 0 then s.orders - {id}
                  else if id in p.active then s.orders[id := v.orders[id].(remaining := left)]
                  else s.orders)
    && s'.claims == (if id in p.parked && left > 0 then s.claims + [PageEntry(id, v.orders[id].side.Input(), left)]
                     else s.claims)
    && s'.changed == s.changed + (if AsRecorded(v.orders, p, id) then 0 else 1)
  }

  lemma ReviewOne(c: Params, v: Vault, p: Pair, ids: seq<OrderId>, s: Scan, id: OrderId)
    requires Consistent(c, v.orders, v.cancelled, p, {}) && ScanOk(c, v, p, ids, s)
    requires id in v.orders && id !in ids && id in s.orders && s.orders[id] == v.orders[id]
    ensures ScanOrder(c, v, s, p, id).Ok? && ReviewStep(v, p, s, id, ScanOrder(c, v, s, p, id).value)
    ensures p.active.Keys !! p.parked.Keys
  {
    hide ScanOk, Agrees, CancelledGone;
    ScanOneFacts(c, v, p, ids, s, id);
    LimitExit.StatusSettles(c, v, p, id);
  }

  lemma ScansOneMore(v: Vault, p: Pair, ids: seq<OrderId>, s: Scan, id: OrderId, s': Scan)
    requires Scans(v, p, ids, Ok(s)) && id in v.orders && id !in ids && ReviewStep(v, p, s, id, s')
    requires p.active.Keys !! p.parked.Keys
    ensures Scans(v, p, ids + [id], Ok(s'))
  {
    hide EntryIds;
    assert s'.orders == Reviewed(v.orders, p, ids + [id]);
    if id in p.parked && PairRemaining(p, id) > 0 {
      LimitExit.EntryAppended(s.claims, s'.claims[|s.claims|]);
    }
    assert ParkedOf(p, ids + [id]) == ParkedOf(p, ids) + ParkedOf(p, [id]);
  }

  lemma ScanRefused(
    c: Params, v: Vault, p: Pair, ids: seq<OrderId>, id: OrderId, earlier: Result<Scan, Error>, r: Result<Scan, Error>)
    requires Scans(v, p, ids, earlier) && (earlier.Err? || id in ids || id !in v.orders)
    requires r == if earlier.Err? then earlier else if id in ids then Err(InvalidFillReport)
                  else ScanOrder(c, v, earlier.value, p, id)
    ensures Scans(v, p, ids + [id], r)
  {
    var all := ids + [id];
    if earlier.Err? {
      if i, j :| 0 <= i < j < |ids| && ids[i] == ids[j] {
        assert all[i] == all[j];
      } else {
        var other :| other in ids && other !in v.orders;
        assert other in all;
      }
    } else if id in ids {
      var i :| 0 <= i < |ids| && ids[i] == id;
      assert all[i] == all[|ids|];
    } else {
      assert id in all;
    }
  }

  /** The fee on what was credited, valued like the holdings at the reference price: the collector alone is
      minted for it, the most that is fair. */
  ghost predicate FeeTaken(c: Params, v: Vault, w: Vault, held0: nat, held1: nat, credited: Amounts, feeBps: nat)
    requires c.Valid()
  {
    var price := c.referencePrice;
    var fee := Floor((credited.t0 + Floor(credited.t1 * ONE, price)) * feeBps, BPS);
    w.total >= v.total
    && (if c.collector.None? then w.total == v.total
        else FeeMint.FairMint(fee, held0 + Floor(held1 * ONE, price), v.total, w.total - v.total))
    && forall a ::
         Balance(w.shares, a) == Balance(v.shares, a) + (if c.collector == Some(a) then w.total - v.total else 0)
  }

  /** No fee is to be charged, or the token-1 holdings are worth less than 2^128. */
  predicate FeeComputes(c: Params, held1: nat, feeBps: nat)
  {
    c.collector.None? || feeBps == 0 || held1 * ONE < TWO_128 * c.referencePrice
  }

  lemma RatioFitsIff(value: nat, price: nat)
    requires price > 0
    ensures CheckedRatio(value, ONE, price).Some? <==> value * ONE < TWO_128 * price
    ensures CheckedRatio(value, ONE, price).Some? ==> CheckedRatio(value, ONE, price).value == Floor(value * ONE, price)
  {
    FloorIsLargest(value * ONE, price, TWO_128);
  }

  lemma ChargeAnswers(c: Params, v: Vault, credited: Amounts, feeBps: nat)
    requires c.Valid() && credited.t1 <= v.free.t1
    ensures var r := ChargeFee(c, v, credited, feeBps);
            var held0, held1 := v.free.t0 + EscrowSum(v.orders, Token0), v.free.t1 + EscrowSum(v.orders, Token1);
            (r.Ok? <==> FeeComputes(c, held1, feeBps))
            && (r.Ok? ==> r.value == v.(shares := r.value.shares, total := r.value.total)
                          && FeeTaken(c, v, r.value, held0, held1, credited, feeBps))
  {
    hide Escrow, EscrowSum, Ascending, CheckedRatio, Floor, FeeMint.FeeShares, FeeMint.FairMint;
    var escrow := Escrow(v.orders, Ascending(v.orders.Keys));
    var held0, held1 := v.free.t0 + EscrowSum(v.orders, Token0), v.free.t1 + EscrowSum(v.orders, Token1);
    EscrowIsSum(v.orders, Ascending(v.orders.Keys), Token0);
    EscrowIsSum(v.orders, Ascending(v.orders.Keys), Token1);
    assert v.free.Plus(escrow) == Amounts(held0, held1);
    RatioFitsIff(credited.t1, c.referencePrice);
    RatioFitsIff(held1, c.referencePrice);
    MulLe(credited.t1, held1, ONE);
    var gained := credited.t0 + Floor(credited.t1 * ONE, c.referencePrice);
    var fee := Floor(gained * feeBps, BPS);
    NoRateNoFee(gained);
    var worth := held0 + Floor(held1 * ONE, c.referencePrice);
    FeeMint.FairMintIsFeeShares(fee, worth, v.total, FeeMint.FeeShares(fee, worth, v.total));
    FairMintOfNothing(held0 + Floor(held1 * ONE, c.referencePrice), v.total);
  }

  lemma NoRateNoFee(gained: nat)
    ensures Floor(gained * 0, BPS) == 0
  {
  }

  lemma FairMintOfNothing(assets: nat, supply: nat)
    ensures FeeMint.FairMint(0, assets, supply, 0)
  {
  }

  /** A batch a reconcile takes: not too many distinct tracked orders of an active vault, something to book,
      and a fee it can compute. */
  ghost predicate ReconcileDue(c: Params, b: Books, ids: seq<OrderId>, feeBps: nat)
  {
    b.v.mode == Active && 0 < |ids| <= c.maxPerReconcile
    && (forall i, j :: 0 <= i < j < |ids| ==> ids[i] != ids[j])
    && (forall id :: id in ids ==> id in b.v.orders)
    && (b.credits != Nothing() || exists id :: id in ids && !AsRecorded(b.v.orders, b.p, id))
    && FeeComputes(c, b.bal.t1 + EscrowSum(Reviewed(b.v.orders, b.p, ids), Token1), feeBps)
  }

  /** The vault as reconcile leaves it, before its claim pages are queued. */
  ghost predicate ReconciledVault(c: Params, b: Books, ids: seq<OrderId>, feeBps: nat, w: Vault)
    requires c.Valid()
  {
    var reviewed := Reviewed(b.v.orders, b.p, ids);
    w == b.v.(free := b.bal, orders := reviewed, activeOrders := |reviewed|, shares := w.shares, total := w.total)
    && FeeTaken(c, b.v, w, b.bal.t0 + EscrowSum(reviewed, Token0), b.bal.t1 + EscrowSum(reviewed, Token1),
                b.credits, feeBps)
  }

  lemma ReconcileStarts(c: Params, b: Books, ids: seq<OrderId>, feeBps: nat, limit: nat)
    requires c.Valid() && RestInv(c, b)
    ensures var r := Reconcile(c, b.v, b.p, b.bal, ids, feeBps, limit);
            (r.Ok? <==> ReconcileDue(c, b, ids, feeBps))
            && (r.Ok? ==>
                  exists w: Vault, claims: seq<PageEntry> ::
                    ReconciledVault(c, b, ids, feeBps, w) && EntryIds(claims) == ParkedOf(b.p, ids)
                    && r.value == AddConfirmablePages(w, [], claims, limit))
  {
    hide Inv, RestInv, Consistent, SharesOk, ScanOrders, AddConfirmablePages, ChargeFee, EscrowSum, Reviewed, ParkedOf,
         FeeTaken, FeeComputes, AsRecorded, ScanOk, EntryIds;
    RestParts(c, b);
    assert b.bal.t0 == b.bal.Get(Token0) && b.bal.t1 == b.bal.Get(Token1);
    var v1 := b.v.(free := b.bal);
    assert Sync(b.v, b.bal) == Some((v1, b.credits));
    ScanReviews(c, v1, b.p, ids);
    ScanFacts(c, v1, b.p, ids);
    var scanned := ScanOrders(c, v1, b.p, ids);
    if scanned.Ok? {
      ScanCounts(c, v1, b.p, ids, scanned.value);
      var s := scanned.value;
      var start := v1.(orders := s.orders, activeOrders := s.activeOrders);
      ChargeAnswers(c, start, b.credits, feeBps);
      var charged := ChargeFee(c, start, b.credits, feeBps);
      if charged.Ok? {
        FeeCarries(c, start, b.v, charged.value, b.bal.t0 + EscrowSum(s.orders, Token0),
          b.bal.t1 + EscrowSum(s.orders, Token1), b.credits, feeBps);
        assert ReconciledVault(c, b, ids, feeBps, charged.value);
      }
    }
  }

  lemma ScanCounts(c: Params, v: Vault, p: Pair, ids: seq<OrderId>, s: Scan)
    requires ScanOk(c, v, p, ids, s)
    ensures s.activeOrders == |s.orders|
  {
  }

  lemma FeeCarries(
    c: Params, start: Vault, v: Vault, w: Vault, held0: nat, held1: nat, credited: Amounts, feeBps: nat)
    requires c.Valid() && FeeTaken(c, start, w, held0, held1, credited, feeBps)
    requires start.total == v.total && start.shares == v.shares
    ensures FeeTaken(c, v, w, held0, held1, credited, feeBps)
  {
  }

  /** Everything of a token the vault owns: really held, or held by the pair for a tracked order. */
  ghost function Owned(b: Books, t: Token): nat { b.bal.Get(t) + EscrowSum(AsHeld(b.v.orders, b.p), t) }

  ghost predicate LacksEmptiesOnly(kept: map<OrderId, GridOrder>, orders: map<OrderId, GridOrder>)
  {
    (forall id :: id in kept ==> id in orders && kept[id] == orders[id])
    && forall id :: id in orders && id !in kept ==> orders[id].remaining == 0
  }

  lemma LacksFewer(kept: map<OrderId, GridOrder>, orders: map<OrderId, GridOrder>, id: OrderId)
    requires LacksEmptiesOnly(kept, orders) && id in orders
    ensures LacksEmptiesOnly(kept - {id}, orders - {id})
    ensures if id in kept then kept[id] == orders[id] else orders[id].remaining == 0 && kept - {id} == kept
  {
  }

  lemma {:induction false} EmptiesWeighNothing(orders: map<OrderId, GridOrder>, kept: map<OrderId, GridOrder>, t: Token)
    requires LacksEmptiesOnly(kept, orders)
    ensures EscrowSum(kept, t) == EscrowSum(orders, t)
    decreases |orders|
  {
    if orders == map[] {
      assert kept == map[];
    } else {
      var id :| id in orders;
      hide EscrowSum, LacksEmptiesOnly;
      LacksFewer(kept, orders, id);
      EscrowWithout(orders, id, t);
      if id in kept {
        EscrowWithout(kept, id, t);
      }
      EmptiesWeighNothing(orders - {id}, kept - {id}, t);
    }
  }

  /** Reviewing moves nothing: what the pair holds for the orders that stay is what it held for all. */
  lemma ReviewKeepsHeld(orders: map<OrderId, GridOrder>, p: Pair, ids: seq<OrderId>, t: Token)
    ensures EscrowSum(AsHeld(Reviewed(orders, p, ids), p), t) == EscrowSum(AsHeld(orders, p), t)
  {
    EmptiesWeighNothing(AsHeld(orders, p), AsHeld(Reviewed(orders, p, ids), p), t);
  }

  /** The batch's records are what the pair holds and its parked orders are claimed; arrivals and claims are
      free; nothing the vault owns has changed; the collector has been minted its fair fee. */
  ghost predicate BatchBooked(c: Params, b: Books, after: Books, ids: seq<OrderId>, feeBps: nat)
    requires c.Valid()
  {
    var reviewed, parked := Reviewed(b.v.orders, b.p, ids), ParkedOf(b.p, ids);
    after.v.orders == reviewed - parked
    && after.p == b.p.(active := b.p.active - parked, parked := b.p.parked - parked)
    && after.credits == Nothing()
    && (forall t: Token :: after.v.free.Get(t) == after.bal.Get(t) && Owned(after, t) == Owned(b, t))
    && FeeTaken(c, b.v, after.v, b.bal.t0 + EscrowSum(reviewed, Token0), b.bal.t1 + EscrowSum(reviewed, Token1),
                b.credits, feeBps)
    && after.v.cancelled == b.v.cancelled && after.v.mode == Active
  }

  /** A reconcile with its claims: a batch that is due is booked, any other call changes nothing. */
  lemma ReconcileAnswers(c: Params, w: World, ids: seq<OrderId>, feeBps: nat, limit: nat)
    requires c.Valid() && WorldInv(c, w) && w.AtRest()
    ensures var after := ReconcileTx(c, w, ids, feeBps, limit);
            if ReconcileDue(c, w.now, ids, feeBps) then
              after.AtRest() && WorldInv(c, after) && BatchBooked(c, w.now, after.now, ids, feeBps)
            else after == w
  {
    hide Inv, RestInv, Reconcile, ReconcileDue, ReconciledVault, AddConfirmablePages, EntryIds, Settles, Drain,
         Reviewed, ParkedOf, Consistent, SharesOk, BatchBooked;
    var b := w.now;
    RestOfWorld(c, w);
    RestParts(c, b);
    ReconcileStarts(c, b, ids, feeBps, limit);
    NothingBrought(b.bal);
    if ReconcileDue(c, b, ids, feeBps) {
      var r := Reconcile(c, b.v, b.p, b.bal, ids, feeBps, limit).value;
      var v: Vault, claims: seq<PageEntry> :|
        ReconciledVault(c, b, ids, feeBps, v) && EntryIds(claims) == ParkedOf(b.p, ids)
        && r == AddConfirmablePages(v, [], claims, limit);
      ReconciledFields(c, b, ids, feeBps, v);
      var mid := Step(c, w, Start(CallReconcile(ids, feeBps, limit)));
      StepKeeps(c, w, Start(CallReconcile(ids, feeBps, limit)));
      ConfirmablePagesFacts(v, [], claims, limit);
      ConfirmablePagesTouch(v, [], claims, limit);
      assert mid == World(Books(r.vault, b.p, b.bal, Nothing()), b, r.subs, Landed);
      PagesSettle(c, mid);
      assert Dues(mid.now.v.pages, mid.queue) == Tagged(Claim, claims);
      TaggedIds(claims);
      BatchSettled(c, b, mid.now, Drain(c, mid), ids, feeBps, v);
    } else {
      NothingDrained(c, w);
    }
  }

  lemma NothingDrained(c: Params, w: World)
    requires c.Valid() && w.AtRest()
    ensures Drain(c, w) == w
  {
  }

  lemma ReconciledFields(c: Params, b: Books, ids: seq<OrderId>, feeBps: nat, v: Vault)
    requires c.Valid() && ReconciledVault(c, b, ids, feeBps, v) && b.v.pages == map[] && ReconcileDue(c, b, ids, feeBps)
    ensures v.pages == map[] && b.v.mode == Active
  {
  }

  lemma BatchSettled(c: Params, b: Books, mid: Books, after: World, ids: seq<OrderId>, feeBps: nat, v: Vault)
    requires c.Valid() && ReconciledVault(c, b, ids, feeBps, v) && b.v.mode == Active && RestInv(c, b)
    requires OnlyPages(v, mid.v) && mid.p == b.p && mid.bal == b.bal && mid.credits == Nothing()
    requires after.AtRest() && WorldInv(c, after) && Settles(mid, after.now, ParkedOf(b.p, ids))
    ensures BatchBooked(c, b, after.now, ids, feeBps)
  {
    hide Inv, RestInv, Reviewed, ParkedOf, Consistent, SharesOk, EscrowSum, AsHeld, Filing, FeeTaken, Assets, Owned;
    RestOfWorld(c, after);
    RestParts(c, after.now);
    ParkedFilesNothing(c, b, mid.v, ids);
    BatchOwned(c, b, v, mid, after.now, ids);
    FeeStays(c, b.v, v, after.now.v, b.bal.t0 + EscrowSum(Reviewed(b.v.orders, b.p, ids), Token0),
      b.bal.t1 + EscrowSum(Reviewed(b.v.orders, b.p, ids), Token1), b.credits, feeBps);
  }

  lemma BatchOwned(c: Params, b: Books, v: Vault, mid: Books, after: Books, ids: seq<OrderId>)
    requires OnlyPages(v, mid.v) && mid.p == b.p
    requires v.free == b.bal && v.orders == Reviewed(b.v.orders, b.p, ids)
    requires Settles(mid, after, ParkedOf(b.p, ids)) && forall t: Token :: after.bal.Get(t) == after.v.free.Get(t)
    ensures forall t: Token :: Owned(after, t) == Owned(b, t)
  {
    hide Removes, Reviewed, ParkedOf, AsHeld, EscrowSum, Filing;
    forall t: Token ensures Owned(after, t) == Owned(b, t) {
      ReviewKeepsHeld(b.v.orders, b.p, ids, t);
      assert Assets(after.v, after.p, t) == Assets(mid.v, mid.p, t);
    }
  }

  lemma FeeStays(
    c: Params, v: Vault, charged: Vault, w: Vault, held0: nat, held1: nat, credited: Amounts, feeBps: nat)
    requires c.Valid() && FeeTaken(c, v, charged, held0, held1, credited, feeBps)
    requires w.total == charged.total && w.shares == charged.shares
    ensures FeeTaken(c, v, w, held0, held1, credited, feeBps)
  {
  }

  lemma ParkedFilesNothing(c: Params, b: Books, v: Vault, ids: seq<OrderId>)
    requires RestInv(c, b)
    ensures b.v.cancelled + Filing(v, b.p, ParkedOf(b.p, ids)) == b.v.cancelled
  {
    RestParts(c, b);
    assert Filing(v, b.p, ParkedOf(b.p, ids)) == map[];
  }

  // ---- Cancellation and recovery ----

  /** A handler that moves no token itself and queues pages over `v`: once they have run, their orders are
      settled. */
  lemma QueuedPagesSettle(
    c: Params, w: World, call: Call, v: Vault, cancels: seq<PageEntry>, claims: seq<PageEntry>, limit: nat)
    requires c.Valid() && WorldInv(c, w) && w.AtRest() && v.pages == map[]
    requires Brought(call) == Nothing() && !Synchronises(call)
    requires Handle(c, w.now, call) == Ok(AddConfirmablePages(v, cancels, claims, limit))
    ensures var after := Drain(c, Step(c, w, Start(call)));
            after.AtRest() && WorldInv(c, after)
            && Settles(w.now.(v := v), after.now, EntryIds(cancels) + EntryIds(claims))
  {
    hide Inv, RestInv, Handle, AddConfirmablePages, Settles, EntryIds, Drain;
    var b, r := w.now, AddConfirmablePages(v, cancels, claims, limit);
    ConfirmablePagesFacts(v, cancels, claims, limit);
    ConfirmablePagesTouch(v, cancels, claims, limit);
    NothingBrought(b.bal);
    StepKeeps(c, w, Start(call));
    var mid := Step(c, w, Start(call));
    assert mid == World(b.(v := r.vault), b, r.subs, Landed);
    PagesSettle(c, mid);
    LimitExit.SeveralIds(Dues(r.vault.pages, r.subs), cancels, claims);
    SettlesFrom(b.(v := v), mid.now, Drain(c, mid).now, EntryIds(cancels) + EntryIds(claims));
  }

  lemma SettlesFrom(b: Books, mid: Books, after: Books, ids: set<OrderId>)
    requires OnlyPages(b.v, mid.v) && mid.p == b.p && mid.credits == b.credits && Settles(mid, after, ids)
    ensures Settles(b, after, ids)
  {
    LimitExit.RemovesOf(b, mid, after, ids);
    hide Removes, EscrowSum, AsHeld;
  }

  /** A batch is the least tracked ids, as many as one call takes. */
  lemma FirstTrackedAreLeast(v: Vault, limit: nat)
    ensures var listed := FirstTracked(v, limit);
            |listed| == Min(limit, |v.orders|)
            && forall id, other :: id in listed && other in v.orders && other !in listed ==> id < other
  {
    LimitExit.AscendingCount(v.orders.Keys);
    var all, listed := Ascending(v.orders.Keys), FirstTracked(v, limit);
    forall id, other | id in listed && other in v.orders && other !in listed ensures id < other {
      var i :| 0 <= i < |listed| && listed[i] == id;
      var j :| 0 <= j < |all| && all[j] == other;
    }
  }

  ghost predicate Untouched(v: Vault, p: Pair, id: OrderId)
  {
    id in p.active && id in v.orders && p.active[id].remaining == v.orders[id].remaining
  }

  /** Refused exactly when a listed order does not rest untouched, else a cancel entry for each. */
  ghost predicate CancelsUntouched(
    v: Vault, p: Pair, listed: seq<OrderId>, r: Result<(seq<PageEntry>, seq<PageEntry>), Error>)
  {
    (r.Ok? <==> forall id :: id in listed ==> Untouched(v, p, id))
    && (r.Ok? ==> r.value.1 == [] && forall id :: id in listed <==> id in EntryIds(r.value.0))
  }

  /** Collecting for `execute_cancel_all` goes through exactly when every listed order rests untouched, and
      then cancels each of them. */
  lemma {:induction false} CancelAllEntriesIff(c: Params, v: Vault, p: Pair, listed: seq<OrderId>)
    requires Consistent(c, v.orders, v.cancelled, p, {}) && forall id :: id in listed ==> id in v.orders
    ensures CancelsUntouched(v, p, listed, CancelEntries(c, v, p, listed, true))
  {
    if listed != [] {
      var last := |listed| - 1;
      var id := listed[last];
      CancelAllEntriesIff(c, v, p, listed[..last]);
      assert id in listed && listed == listed[..last] + [id];
      LimitExit.StatusSettles(c, v, p, id);
      hide Consistent, CancelsUntouched;
      var earlier := CancelEntries(c, v, p, listed[..last], true);
      CancelOneMore(v, p, listed[..last], id, earlier, CancelEntries(c, v, p, listed, true));
    }
  }

  lemma CancelOneMore(
    v: Vault, p: Pair, listed: seq<OrderId>, id: OrderId, earlier: Result<(seq<PageEntry>, seq<PageEntry>), Error>,
    r: Result<(seq<PageEntry>, seq<PageEntry>), Error>)
    requires CancelsUntouched(v, p, listed, earlier) && id in v.orders
    requires if earlier.Ok? && Untouched(v, p, id) then
               r == Ok((earlier.value.0 + [PageEntry(id, v.orders[id].side.Input(), p.active[id].remaining)],
                 earlier.value.1))
             else r.Err?
    ensures CancelsUntouched(v, p, listed + [id], r)
  {
    hide EntryIds, Untouched;
    if r.Ok? {
      LimitExit.EntryAppended(earlier.value.0, r.value.0[|earlier.value.0|]);
    } else if earlier.Ok? {
      assert id in listed + [id] && !Untouched(v, p, id);
    } else {
      var bad :| bad in listed && !Untouched(v, p, bad);
      assert bad in listed + [id];
    }
  }

  lemma NoIds()
    ensures EntryIds([]) == {}
  {
  }

  /** The owner's cancellation settles the first batch if each order in it rests untouched; otherwise, and
      for anybody else, nothing happens. */
  lemma CancellationAnswers(c: Params, w: World, sender: Address, limit: nat)
    requires c.Valid() && WorldInv(c, w) && w.AtRest()
    ensures var listed := FirstTracked(w.now.v, c.maxPerReconcile);
            var after := Drain(c, Step(c, w, Start(CallCancelAll(sender, limit))));
            if sender == c.owner && forall id :: id in listed ==> Untouched(w.now.v, w.now.p, id) then
              after.AtRest() && WorldInv(c, after) && Settles(w.now, after.now, LimitExit.ToSet(listed))
            else after == w
  {
    hide Inv, RestInv, FirstTracked, CancelEntries, AddConfirmablePages, Consistent, Settles, EntryIds, Drain,
         StatusOf, Untouched, SharesOk;
    var b := w.now;
    RestOfWorld(c, w);
    RestParts(c, b);
    var listed := FirstTracked(b.v, c.maxPerReconcile);
    CancelAllEntriesIff(c, b.v, b.p, listed);
    if CancelAll(c, b.v, b.p, sender, limit).Ok? {
      var cancels := CancelEntries(c, b.v, b.p, listed, true).value.0;
      QueuedPagesSettle(c, w, CallCancelAll(sender, limit), b.v, cancels, [], limit);
      NoIds();
      assert EntryIds(cancels) + {} == LimitExit.ToSet(listed);
      assert b.(v := b.v) == b;
    } else {
      NothingDrained(c, w);
    }
  }

  /** In exit mode the owner's cancellation settles the first batch, fills and parked refunds included, if no
      order in it was executed; otherwise nothing happens. */
  lemma EmergencyCancellationAnswers(c: Params, w: World, sender: Address, limit: nat)
    requires c.Valid() && WorldInv(c, w) && w.AtRest()
    ensures var listed := FirstTracked(w.now.v, c.maxPerReconcile);
            var after := Drain(c, Step(c, w, Start(CallEmergencyCancel(sender, limit))));
            if w.now.v.mode == Exit && sender == c.owner && forall id :: id in listed ==> id !in w.now.p.executed then
              after.AtRest() && WorldInv(c, after) && Settles(w.now, after.now, LimitExit.ToSet(listed))
            else after == w
  {
    hide Inv, RestInv, FirstTracked, CancelEntries, AddConfirmablePages, Consistent, Settles, EntryIds, Drain, StatusOf,
         SharesOk;
    var b := w.now;
    RestOfWorld(c, w);
    RestParts(c, b);
    var listed := FirstTracked(b.v, c.maxPerReconcile);
    LimitExit.CancelEntriesBlockedIff(c, b.v, b.p, listed);
    if EmergencyCancel(c, b.v, b.p, sender, limit).Ok? {
      var (cancels, claims) := CancelEntries(c, b.v, b.p, listed, false).value;
      QueuedPagesSettle(c, w, CallEmergencyCancel(sender, limit), b.v, cancels, claims, limit);
      assert EntryIds(cancels) + EntryIds(claims) == LimitExit.ToSet(listed);
      assert b.(v := b.v) == b;
    } else {
      NothingDrained(c, w);
    }
  }

  /** An order the owner can take back under a rung: unknown to the vault, and the pair holds something of it
      for this vault on the rung's side, at the rung's price if it is on the book. */
  ghost predicate Recoverable(c: Params, b: Books, id: OrderId, rung: nat)
  {
    id !in b.v.orders && id !in b.v.cancelled && rung < |c.rungs| && c.rungs[rung].side.Some?
    && PairRemaining(b.p, id) > 0
    && if id in b.p.active then
         b.p.active[id].owner == c.self && b.p.active[id].side == c.rungs[rung].side.value
         && b.p.active[id].price == c.rungs[rung].price
       else id in b.p.parked && b.p.parked[id].owner == c.self && b.p.parked[id].side == c.rungs[rung].side.value
  }

  lemma RecoverySucceedsIff(c: Params, b: Books, sender: Address, id: OrderId, rung: nat, limit: nat)
    ensures RecoverOrder(c, b.v, b.p, sender, id, rung, limit).Ok? <==> sender == c.owner && Recoverable(c, b, id, rung)
  {
    hide AddConfirmablePages;
  }

  /** The order on record under its rung, with what the pair holds of it. */
  function Adopted(c: Params, b: Books, id: OrderId, rung: nat): Books
    requires rung < |c.rungs| && c.rungs[rung].side.Some?
  {
    b.(v := b.v.(orders := b.v.orders[id := GridOrder(rung, c.rungs[rung].side.value, c.rungs[rung].price,
                                                      PairRemaining(b.p, id))],
                 activeOrders := b.v.activeOrders + 1))
  }

  /** The owner's recovery puts a recoverable order on record; a parked one is settled at once. Anything else
      changes nothing. */
  lemma RecoveryAnswers(c: Params, w: World, sender: Address, id: OrderId, rung: nat, limit: nat)
    requires c.Valid() && WorldInv(c, w) && w.AtRest()
    ensures var after := Drain(c, Step(c, w, Start(CallRecover(sender, id, rung, limit))));
            if sender == c.owner && Recoverable(c, w.now, id, rung) then
              after.AtRest() && WorldInv(c, after)
              && if id in w.now.p.active then after.now == Adopted(c, w.now, id, rung)
                 else Settles(Adopted(c, w.now, id, rung), after.now, {id})
            else after == w
  {
    hide Inv, RestInv, AddConfirmablePages, Consistent, Settles, EntryIds, Drain, SharesOk;
    var b := w.now;
    RestOfWorld(c, w);
    RestParts(c, b);
    RecoverySucceedsIff(c, b, sender, id, rung, limit);
    StepKeeps(c, w, Start(CallRecover(sender, id, rung, limit)));
    NothingBrought(b.bal);
    if sender != c.owner || !Recoverable(c, b, id, rung) {
      NothingDrained(c, w);
    } else if id in b.p.active {
      NothingDrained(c, Step(c, w, Start(CallRecover(sender, id, rung, limit))));
    } else {
      var claim := PageEntry(id, c.rungs[rung].side.value.Input(), b.p.parked[id].remaining);
      QueuedPagesSettle(c, w, CallRecover(sender, id, rung, limit), Adopted(c, b, id, rung).v, [], [claim], limit);
      NoIds();
      LimitExit.EntryAppended([], claim);
      assert [] + [claim] == [claim] && {} + ({} + {id}) == {id};
    }
  }

  // ---- The solvency query ----

  /** Those of the listed orders the pair keeps in `where`. */
  function Among(listed: seq<OrderId>, where: set<OrderId>): set<OrderId> { set id | id in listed && id in where }

  /** The query's answer over the listed orders. */
  ghost predicate Tallied(v: Vault, p: Pair, start: Solvency, listed: seq<OrderId>, s: Solvency)
    requires forall id :: id in listed ==> id in v.orders
  {
    s.expected == start.expected.Plus(Escrow(v.orders, listed))
    && s.actual == start.actual.Plus(Escrow(AsHeld(v.orders, p), listed))
    && s.active == |Among(listed, p.active.Keys)| && s.parked == |Among(listed, p.parked.Keys)|
    && s.executed == |Among(listed, p.executed)|
    && s.cancelled == start.cancelled && s.unverifiable == start.unverifiable
  }

  lemma {:induction false} SolvencyCounts(c: Params, v: Vault, p: Pair, start: Solvency, listed: seq<OrderId>)
    requires Consistent(c, v.orders, v.cancelled, p, {}) && forall id :: id in listed ==> id in v.orders
    requires forall i, j :: 0 <= i < j < |listed| ==> listed[i] != listed[j]
    requires start.active == start.parked == start.executed == 0
    ensures Tallied(v, p, start, listed, SolvencyOver(c, v, p, start, listed))
  {
    if listed == [] {
      assert Tallied(v, p, start, [], start);
    } else {
      hide Consistent, SolvencyWith, Tallied;
      var last := |listed| - 1;
      var id := listed[last];
      SolvencyCounts(c, v, p, start, listed[..last]);
      assert listed == listed[..last] + [id] && id in v.orders;
      OrderTallied(c, v, p, SolvencyOver(c, v, p, start, listed[..last]), id);
      OneMoreTallied(v, p, start, listed, SolvencyOver(c, v, p, start, listed[..last]));
    }
  }

  function WithOrder(v: Vault, p: Pair, s: Solvency, id: OrderId): Solvency
    requires id in v.orders
  {
    var token := v.orders[id].side.Input();
    Solvency(s.expected.Plus(Just(token, v.orders[id].remaining)), s.actual.Plus(Just(token, PairRemaining(p, id))),
             s.active + (if id in p.active then 1 else 0), s.parked + (if id in p.parked then 1 else 0),
             s.executed + (if id in p.executed then 1 else 0), s.cancelled, s.unverifiable)
  }

  lemma OneMoreTallied(v: Vault, p: Pair, start: Solvency, listed: seq<OrderId>, s: Solvency)
    requires listed != [] && forall id :: id in listed ==> id in v.orders
    requires var last := |listed| - 1;
             listed[last] !in listed[..last] && Tallied(v, p, start, listed[..last], s)
    ensures Tallied(v, p, start, listed, WithOrder(v, p, s, listed[|listed| - 1]))
  {
    hide PairRemaining, Among;
    var last := |listed| - 1;
    var id := listed[last];
    assert listed == listed[..last] + [id];
    OneMoreAmong(listed[..last], id, p.active.Keys);
    OneMoreAmong(listed[..last], id, p.parked.Keys);
    OneMoreAmong(listed[..last], id, p.executed);
  }

  lemma OrderTallied(c: Params, v: Vault, p: Pair, s: Solvency, id: OrderId)
    requires Consistent(c, v.orders, v.cancelled, p, {}) && id in v.orders
    ensures SolvencyWith(c, v, p, s, id) == WithOrder(v, p, s, id)
  {
    LimitExit.StatusSettles(c, v, p, id);
  }

  lemma OneMoreAmong(listed: seq<OrderId>, id: OrderId, where: set<OrderId>)
    requires id !in listed
    ensures |Among(listed + [id], where)| == |Among(listed, where)| + (if id in where then 1 else 0)
  {
    assert Among(listed + [id], where) == Among(listed, where) + (if id in where then {id} else {});
  }

  /** The solvency query in any state at rest: expected is free plus recorded, actual is really held plus held
      by the pair, and every tracked order is counted once, where the pair has it. */
  lemma SolvencyAnswers(c: Params, b: Books)
    requires RestInv(c, b)
    ensures var s := CheckSolvency(c, b.v, b.p, b.bal);
            (forall t: Token ::
               s.expected.Get(t) == b.v.free.Get(t) + EscrowSum(b.v.orders, t) && s.actual.Get(t) == Owned(b, t))
            && s.active == |b.v.orders.Keys * b.p.active.Keys| && s.parked == |b.v.orders.Keys * b.p.parked.Keys|
            && s.executed == |b.v.orders.Keys * b.p.executed| && s.cancelled == s.unverifiable == 0
            && s.active + s.parked + s.executed == |b.v.orders|
  {
    hide Inv, RestInv, Consistent, SharesOk, EscrowSum, Escrow, AsHeld, SolvencyOver, Unseen, Ascending, Among;
    RestParts(c, b);
    var listed := Ascending(b.v.orders.Keys);
    var start := Solvency(b.v.free, b.bal, 0, 0, 0, 0, 0);
    SolvencyCounts(c, b.v, b.p, start, listed);
    SolvencyTotals(c, b.v, b.p, start, listed);
    LimitExit.AscendingCount(b.v.orders.Keys);
    ListedSums(b.v.orders, b.p, listed);
    AmongAll(listed, b.v.orders.Keys, b.p.active.Keys);
    AmongAll(listed, b.v.orders.Keys, b.p.parked.Keys);
    AmongAll(listed, b.v.orders.Keys, b.p.executed);
  }

  lemma ListedSums(orders: map<OrderId, GridOrder>, p: Pair, listed: seq<OrderId>)
    requires forall id :: id in listed <==> id in orders
    requires forall i, j :: 0 <= i < j < |listed| ==> listed[i] != listed[j]
    ensures forall t: Token ::
              Escrow(orders, listed).Get(t) == EscrowSum(orders, t)
              && Escrow(AsHeld(orders, p), listed).Get(t) == EscrowSum(AsHeld(orders, p), t)
  {
    hide Escrow, EscrowSum;
    forall t: Token
      ensures Escrow(orders, listed).Get(t) == EscrowSum(orders, t)
              && Escrow(AsHeld(orders, p), listed).Get(t) == EscrowSum(AsHeld(orders, p), t)
    {
      EscrowIsSum(orders, listed, t);
      EscrowIsSum(AsHeld(orders, p), listed, t);
    }
  }

  lemma AmongAll(listed: seq<OrderId>, ids: set<OrderId>, where: set<OrderId>)
    requires forall id :: id in listed <==> id in ids
    ensures Among(listed, where) == ids * where
  {
  }

  // ---- Pages ----

  /** Page `i` holds the entries from `i * limit` on, as many as the limit allows, in their order. */
  ghost predicate PagedFrom(v: Vault, r: Response, kind: PageKind, entries: seq<PageEntry>, limit: nat)
  {
    |entries| <= |r.subs| * limit < |entries| + limit
    && (forall i :: 0 <= i < |r.subs| ==> r.subs[i] == v.nextReply + i)
    && (forall i :: 0 <= i < |r.subs| ==> PageAt(r.vault, v.nextReply, kind, entries, limit, i))
    && (forall k :: k in r.vault.pages <==> k in v.pages || v.nextReply <= k < v.nextReply + |r.subs|)
    && (forall k :: k in v.pages && k < v.nextReply ==> k in r.vault.pages && r.vault.pages[k] == v.pages[k])
  }

  predicate PageAt(v: Vault, first: ReplyId, kind: PageKind, entries: seq<PageEntry>, limit: nat, i: nat)
  {
    i * limit <= |entries| && first + i in v.pages
    && v.pages[first + i] == PendingPage(kind, entries[i * limit..Min(i * limit + limit, |entries|)])
  }

  /** Queueing pages cuts the entries into runs of the limit, the last one shorter: none empty, none lost,
      none twice, nothing reordered. */
  lemma {:induction false} PagesAreRuns(v: Vault, kind: PageKind, entries: seq<PageEntry>, limit: nat)
    requires limit > 0 && forall k :: k in v.pages ==> k < v.nextReply
    ensures PagedFrom(v, AddPages(v, kind, entries, limit), kind, entries, limit)
    decreases |entries|
  {
    hide PagedFrom;
    if entries == [] {
      NoRuns(v, kind, limit);
    } else {
      var n := Min(limit, |entries|);
      var v1 := v.(pages := v.pages[v.nextReply := PendingPage(kind, entries[..n])], nextReply := v.nextReply + 1);
      PagesAreRuns(v1, kind, entries[n..], limit);
      OneMoreRun(v, v1, AddPages(v1, kind, entries[n..], limit), kind, entries, limit);
    }
  }

  lemma NoRuns(v: Vault, kind: PageKind, limit: nat)
    requires limit > 0
    ensures PagedFrom(v, Response(v, [], Nothing()), kind, [], limit)
  {
  }

  lemma OneMoreRun(v: Vault, v1: Vault, rest: Response, kind: PageKind, entries: seq<PageEntry>, limit: nat)
    requires limit > 0 && entries != [] && forall k :: k in v.pages ==> k < v.nextReply
    requires var n := Min(limit, |entries|);
             v1 == v.(pages := v.pages[v.nextReply := PendingPage(kind, entries[..n])], nextReply := v.nextReply + 1)
             && PagedFrom(v1, rest, kind, entries[n..], limit)
    ensures PagedFrom(v, Response(rest.vault, [v.nextReply] + rest.subs, Nothing()), kind, entries, limit)
  {
    hide PageAt;
    var n := Min(limit, |entries|);
    var r := Response(rest.vault, [v.nextReply] + rest.subs, Nothing());
    RunsCount(|rest.subs|, limit, |entries| - n, n);
    FirstRun(v, v1, r.vault, kind, entries, limit);
    forall i | 0 < i < |r.subs| ensures PageAt(r.vault, v.nextReply, kind, entries, limit, i) {
      assert PageAt(rest.vault, v1.nextReply, kind, entries[n..], limit, i - 1);
      RunOfRest(r.vault, v.nextReply, kind, entries, limit, i);
    }
  }

  lemma RunsCount(pages: nat, limit: nat, left: nat, n: nat)
    requires limit > 0 && left <= pages * limit < left + limit && 0 < n <= limit && (left > 0 ==> n == limit)
    ensures left + n <= (pages + 1) * limit < left + n + limit && (pages > 0 ==> n == limit)
  {
    assert (pages + 1) * limit == pages * limit + limit;
    if pages > 0 {
      MulLe(1, pages, limit);
    }
  }

  lemma FirstRun(v: Vault, v1: Vault, w: Vault, kind: PageKind, entries: seq<PageEntry>, limit: nat)
    requires v.nextReply in v1.pages && v1.pages[v.nextReply] == PendingPage(kind, entries[..Min(limit, |entries|)])
    requires v.nextReply in w.pages && w.pages[v.nextReply] == v1.pages[v.nextReply]
    ensures PageAt(w, v.nextReply, kind, entries, limit, 0)
  {
  }

  lemma RunOfRest(v: Vault, first: ReplyId, kind: PageKind, entries: seq<PageEntry>, limit: nat, i: nat)
    requires i > 0 && limit <= |entries| && PageAt(v, first + 1, kind, entries[limit..], limit, i - 1)
    ensures PageAt(v, first, kind, entries, limit, i)
  {
    var at := (i - 1) * limit;
    assert at + limit == i * limit;
    assert entries[limit..][at..Min(at + limit, |entries| - limit)]
      == entries[at + limit..Min(at + limit + limit, |entries|)];
  }
}
