/** Submessages, replies and the pair's own steps keep the limit-grid invariant, hence every run does. */
module LimitSteps {
  import opened Arithmetic
  import opened Tokens
  import opened LimitGrid
  import opened LimitChain
  import opened LimitInvariant

  // ---- A submessage runs ----

  /** Taking the first reply off the queue into flight leaves the outstanding replies what they were. */
  lemma OutstandingKept(queue: seq<ReplyId>, result: SubResult)
    requires queue != []
    ensures Outstanding(queue[1..], Awaiting(queue[0], result)) == queue == Outstanding(queue, Landed)
  {
    assert [queue[0]] + queue[1..] == queue;
  }

  lemma FirstIsPending(
    pages: map<ReplyId, PendingPage>, placements: map<ReplyId, PlacementPlan>, nextReply: ReplyId, outs: seq<ReplyId>)
    requires RepliesOk(pages, placements, nextReply, outs) && outs != []
    ensures outs[0] in pages <==> outs[0] !in placements
    ensures forall r :: r in outs[1..] ==> r != outs[0]
  {
  }

  lemma TailDues(pages: map<ReplyId, PendingPage>, queue: seq<ReplyId>)
    requires queue != []
    ensures Dues(pages, queue)
            == (if queue[0] in pages then Tagged(pages[queue[0]].kind, pages[queue[0]].entries) else [])
               + Dues(pages, queue[1..])
    ensures forall d :: d in Dues(pages, queue[1..]) ==> d in Dues(pages, queue)
  {
  }

  /** A submessage that changed nothing leaves its tokens where they were. */
  lemma UnchangedSubKeeps(c: Params, b: Books, queue: seq<ReplyId>, result: SubResult)
    requires Inv(c, b, queue, Landed) && queue != []
    requires result == Failed || (result == Placed([]) && queue[0] in b.v.placements)
    ensures Inv(c, b, queue[1..], Awaiting(queue[0], result))
  {
    hide Consistent, RepliesOk, Distinct, Tracked, Payable, Counted, SharesOk, Agrees;
    OutstandingKept(queue, result);
    FirstIsPending(b.v.pages, b.v.placements, b.v.nextReply, queue);
    TailDues(b.v.pages, queue);
    forall t: Token
      ensures Gross(b.v.placements, queue, t)
              == Gross(b.v.placements, queue[1..], t) + InFlight(b.v.pages, b.v.placements, Awaiting(queue[0], result),
                 t)
    {
    }
  }

  /** The pair pays a page exactly its recorded refunds, token by token. */
  lemma {:induction false} PairPaysRefunds(
    c: Params, orders: map<OrderId, GridOrder>, p: Pair, kind: PageKind, entries: seq<PageEntry>, t: Token)
    requires Agrees(c, orders, p, {})
    requires forall e :: e in entries ==> Tracked(orders, Due(kind, e)) && Payable(p, Due(kind, e))
    ensures forall e :: e in entries ==> if kind == Cancel then e.id in p.active else e.id in p.parked
    ensures PairPays(p, kind, entries, t) == RefundSum(entries, t)
  {
    if entries != [] {
      var last := |entries| - 1;
      PairPaysRefunds(c, orders, p, kind, entries[..last], t);
      assert Tracked(orders, Due(kind, entries[last]));
    }
  }

  /** The orders a page names leave the pair. */
  function WithoutIds(p: Pair, kind: PageKind, ids: set<OrderId>): Pair
  {
    if kind == Cancel then p.(active := p.active - ids) else p.(parked := p.parked - ids)
  }

  lemma PageRunsConsistent(
    c: Params, orders: map<OrderId, GridOrder>, cancelled: map<OrderId, CancelledOrder>, p: Pair, kind: PageKind,
    ids: set<OrderId>)
    requires Consistent(c, orders, cancelled, p, {})
    requires if kind == Cancel then ids <= p.active.Keys else ids <= p.parked.Keys
    ensures Consistent(c, orders, cancelled, WithoutIds(p, kind, ids), ids)
    ensures forall id :: id in ids ==> id !in WithoutIds(p, kind, ids).active && id !in WithoutIds(p, kind, ids).parked
  {
  }

  lemma OthersStayPayable(p: Pair, kind: PageKind, entries: seq<PageEntry>, rest: seq<Due>)
    requires Distinct(Tagged(kind, entries) + rest)
    requires forall d :: d in rest ==> Payable(p, d)
    ensures forall d :: d in rest ==> Payable(WithoutIds(p, kind, EntryIds(entries)), d)
  {
    var all := Tagged(kind, entries) + rest;
    forall d | d in rest ensures d.entry.id !in EntryIds(entries) {
      var j :| 0 <= j < |rest| && rest[j] == d;
      forall i | 0 <= i < |entries| ensures entries[i].id != d.entry.id {
        assert all[i].entry == entries[i] && all[|entries| + j] == d;
      }
    }
  }

  /** With every part shown, the invariant between a submessage and its reply. */
  lemma AssembleInFlight(c: Params, b: Books, queue: seq<ReplyId>, flight: Flight)
    requires flight != Landed
    requires Consistent(c, b.v.orders, b.v.cancelled, b.p, Settling(b.v.pages, flight))
    requires RepliesOk(b.v.pages, b.v.placements, b.v.nextReply, Outstanding(queue, flight))
    requires DuesOk(b.v.pages, b.v.orders, b.p, queue, Outstanding(queue, flight)) && FlightOk(b.v, b.p, flight)
    requires Custody(b, queue, flight) && Counted(b.v, Outstanding(queue, flight)) && SharesOk(c, b.v.shares, b.v.total)
    ensures Inv(c, b, queue, flight)
  {
    hide Consistent, RepliesOk, SharesOk, DuesOk, FlightOk, Custody, Counted;
  }

  /** The parts of the invariant before the first queued submessage runs. */
  lemma QueuedParts(c: Params, b: Books, queue: seq<ReplyId>)
    requires Inv(c, b, queue, Landed) && queue != []
    ensures Consistent(c, b.v.orders, b.v.cancelled, b.p, {})
            && RepliesOk(b.v.pages, b.v.placements, b.v.nextReply, queue)
            && DuesOk(b.v.pages, b.v.orders, b.p, queue, queue)
            && Custody(b, queue, Landed) && Counted(b.v, queue) && SharesOk(c, b.v.shares, b.v.total)
            && (queue[0] in b.v.pages <==> queue[0] !in b.v.placements)
  {
    hide Consistent, SharesOk, DuesOk, Custody, Counted;
    FirstIsPending(b.v.pages, b.v.placements, b.v.nextReply, queue);
  }

  lemma PageRuns(c: Params, b: Books, queue: seq<ReplyId>)
    requires Inv(c, b, queue, Landed) && queue != [] && queue[0] in b.v.pages
    requires var page := b.v.pages[queue[0]];
             if page.kind == Cancel then EntryIds(page.entries) <= b.p.active.Keys
             else EntryIds(page.entries) <= b.p.parked.Keys
    ensures var page := b.v.pages[queue[0]];
            var after := b.(p := WithoutIds(b.p, page.kind, EntryIds(page.entries)),
                            bal := b.bal.Plus(Amounts(RefundSum(page.entries, Token0),
                              RefundSum(page.entries, Token1))));
            Inv(c, after, queue[1..], Awaiting(queue[0], PageDone))
  {
    hide Inv, Consistent, RepliesOk, DuesOk, FlightOk, Custody, Counted, SharesOk, EntryIds, WithoutIds, Outstanding;
    var page := b.v.pages[queue[0]];
    var ids := EntryIds(page.entries);
    var flight := Awaiting(queue[0], PageDone);
    var after := b.(p := WithoutIds(b.p, page.kind, ids),
                    bal := b.bal.Plus(Amounts(RefundSum(page.entries, Token0), RefundSum(page.entries, Token1))));
    QueuedParts(c, b, queue);
    OutstandingKept(queue, PageDone);
    PageRunsConsistent(c, b.v.orders, b.v.cancelled, b.p, page.kind, ids);
    PageRunsDues(b.v.pages, b.v.orders, b.p, queue);
    PageMoney(b, queue, page);
    PageFlightOk(b.v, after.p, flight);
    AssembleInFlight(c, after, queue[1..], flight);
  }

  lemma PageFlightOk(v: Vault, p: Pair, flight: Flight)
    requires flight != Landed && flight.reply in v.pages && flight.result == PageDone
    requires forall id :: id in EntryIds(v.pages[flight.reply].entries) ==> id !in p.active && id !in p.parked
    ensures FlightOk(v, p, flight)
  {
  }

  lemma PageRunsDues(pages: map<ReplyId, PendingPage>, orders: map<OrderId, GridOrder>, p: Pair, queue: seq<ReplyId>)
    requires queue != [] && queue[0] in pages && DuesOk(pages, orders, p, queue, queue)
    ensures var page := pages[queue[0]];
            DuesOk(pages, orders, WithoutIds(p, page.kind, EntryIds(page.entries)), queue[1..], queue)
  {
    var page := pages[queue[0]];
    TailDues(pages, queue);
    hide Distinct, Tracked, Payable;
    OthersStayPayable(p, page.kind, page.entries, Dues(pages, queue[1..]));
  }

  lemma PageMoney(b: Books, queue: seq<ReplyId>, page: PendingPage)
    requires queue != [] && queue[0] in b.v.pages && queue[0] !in b.v.placements && page == b.v.pages[queue[0]]
    requires Custody(b, queue, Landed)
    ensures forall p ::
              Custody(b.(p := p, bal :=
                b.bal.Plus(Amounts(RefundSum(page.entries, Token0), RefundSum(page.entries, Token1)))),
                      queue[1..], Awaiting(queue[0], PageDone))
  {
    forall t: Token ensures Gross(b.v.placements, queue, t) == Gross(b.v.placements, queue[1..], t) {
    }
  }

  lemma {:induction false} PlaceAllFacts(p: Pair, placed: seq<LimitOrder>)
    ensures var after := PlaceAll(p, placed);
            after.nextId == p.nextId + |placed| && after.parked == p.parked && after.executed == p.executed
            && (forall id :: id in after.active ==> id in p.active || p.nextId <= id < after.nextId)
            && (forall id :: id in p.active && id < p.nextId ==> id in after.active && after.active[id] == p.active[id])
    decreases |placed|
  {
    if placed != [] {
      PlaceAllFacts(PlaceOne(p, placed[0]), placed[1..]);
    }
  }

  /** New orders on the pair concern nothing the vault already has on record. */
  lemma PlacingKeepsConsistent(
    c: Params, orders: map<OrderId, GridOrder>, cancelled: map<OrderId, CancelledOrder>, p: Pair,
    placed: seq<LimitOrder>)
    requires Consistent(c, orders, cancelled, p, {})
    ensures Consistent(c, orders, cancelled, PlaceAll(p, placed), {})
    ensures forall d :: Payable(p, d) ==> Payable(PlaceAll(p, placed), d)
  {
    PlaceAllFacts(p, placed);
  }

  lemma PlacementRuns(c: Params, b: Books, queue: seq<ReplyId>, placed: seq<LimitOrder>, proceeds: nat)
    requires Inv(c, b, queue, Landed) && queue != [] && queue[0] in b.v.placements && queue[0] !in b.v.pages
             && placed != []
    requires var plan := b.v.placements[queue[0]]; b.bal.Get(plan.side.Input()) >= plan.Gross()
    ensures var (after, result) := Execute(c, b, queue[0], Succeeds(placed, proceeds));
            Inv(c, after, queue[1..], Awaiting(queue[0], result))
  {
    var (after, result) := Execute(c, b, queue[0], Succeeds(placed, proceeds));
    hide Inv, Consistent, RepliesOk, DuesOk, FlightOk, Custody, Counted, SharesOk, Outstanding;
    QueuedParts(c, b, queue);
    OutstandingKept(queue, result);
    PlacingKeepsConsistent(c, b.v.orders, b.v.cancelled, b.p, placed);
    PlacingKeepsDues(b.v.pages, b.v.orders, b.p, queue, placed);
    PlacedAreNew(c, b.v, b.p, placed, queue[0], result);
    PlacementSpends(c, b, queue, placed, proceeds);
    AssembleInFlight(c, after, queue[1..], Awaiting(queue[0], result));
  }

  lemma PlacingKeepsDues(
    pages: map<ReplyId, PendingPage>, orders: map<OrderId, GridOrder>, p: Pair, queue: seq<ReplyId>,
    placed: seq<LimitOrder>)
    requires queue != [] && DuesOk(pages, orders, p, queue, queue)
    requires forall d :: Payable(p, d) ==> Payable(PlaceAll(p, placed), d)
    ensures DuesOk(pages, orders, PlaceAll(p, placed), queue[1..], queue)
  {
    hide Distinct, Tracked, Payable;
    TailDues(pages, queue);
  }

  /** The gross leaves with the submessage; what an immediate fill brings is a credit. */
  lemma PlacementSpends(c: Params, b: Books, queue: seq<ReplyId>, placed: seq<LimitOrder>, proceeds: nat)
    requires Custody(b, queue, Landed) && queue != [] && queue[0] in b.v.placements && queue[0] !in b.v.pages
             && placed != []
    requires var plan := b.v.placements[queue[0]]; b.bal.Get(plan.side.Input()) >= plan.Gross()
    ensures var (after, result) := Execute(c, b, queue[0], Succeeds(placed, proceeds));
            Custody(after, queue[1..], Awaiting(queue[0], result))
  {
  }

  lemma PlacedAreNew(c: Params, v: Vault, p: Pair, placed: seq<LimitOrder>, reply: ReplyId, result: SubResult)
    requires Consistent(c, v.orders, v.cancelled, p, {}) && reply in v.placements
    requires result == Placed(seq(|placed|, i => p.nextId + i))
    ensures FlightOk(v, PlaceAll(p, placed), Awaiting(reply, result))
  {
    PlaceAllFacts(p, placed);
  }

  lemma SubKeeps(c: Params, b: Books, queue: seq<ReplyId>, outcome: PairOutcome)
    requires Inv(c, b, queue, Landed) && queue != []
    ensures var (after, result) := Execute(c, b, queue[0], outcome);
            Inv(c, after, queue[1..], Awaiting(queue[0], result))
  {
    var (after, result) := Execute(c, b, queue[0], outcome);
    FirstIsPending(b.v.pages, b.v.placements, b.v.nextReply, queue);
    if result == Failed || result == Placed([]) {
      assert after == b;
      hide Inv, Execute;
      UnchangedSubKeeps(c, b, queue, result);
    } else if queue[0] in b.v.pages {
      PageExecutes(c, b, queue, outcome);
      hide Inv, Execute;
      PageRuns(c, b, queue);
    } else {
      hide Inv;
      PlacementRuns(c, b, queue, outcome.placed, outcome.proceeds);
    }
  }

  /** A page that succeeds removes its orders and pays its refunds. */
  lemma PageExecutes(c: Params, b: Books, queue: seq<ReplyId>, outcome: PairOutcome)
    requires Inv(c, b, queue, Landed) && queue != [] && queue[0] in b.v.pages
    requires Execute(c, b, queue[0], outcome).1 == PageDone
    ensures var page := b.v.pages[queue[0]];
            Execute(c, b, queue[0], outcome).0
            == b.(p := WithoutIds(b.p, page.kind, EntryIds(page.entries)),
                  bal := b.bal.Plus(Amounts(RefundSum(page.entries, Token0), RefundSum(page.entries, Token1))))
            && if page.kind == Cancel then EntryIds(page.entries) <= b.p.active.Keys
               else EntryIds(page.entries) <= b.p.parked.Keys
  {
    var page := b.v.pages[queue[0]];
    TailDues(b.v.pages, queue);
    DuesOfFirst(b.v.pages, b.v.orders, b.p, queue);
    PairPaysRefunds(c, b.v.orders, b.p, page.kind, page.entries, Token0);
    PairPaysRefunds(c, b.v.orders, b.p, page.kind, page.entries, Token1);
  }

  lemma DuesOfFirst(pages: map<ReplyId, PendingPage>, orders: map<OrderId, GridOrder>, p: Pair, queue: seq<ReplyId>)
    requires DuesOk(pages, orders, p, queue, queue) && queue != [] && queue[0] in pages
    ensures forall e :: e in pages[queue[0]].entries ==>
              Tracked(orders, Due(pages[queue[0]].kind, e)) && Payable(p, Due(pages[queue[0]].kind, e))
  {
    var page := pages[queue[0]];
    forall e | e in page.entries ensures Due(page.kind, e) in Dues(pages, queue) {
      var i :| 0 <= i < |page.entries| && page.entries[i] == e;
      assert Tagged(page.kind, page.entries)[i] == Due(page.kind, e);
    }
  }

  // ---- A reply is delivered ----

  /** Their refunds become free, their orders go, cancelled ones are kept as such. */
  ghost predicate Confirms(v: Vault, w: Vault, kind: PageKind, entries: seq<PageEntry>)
  {
    w.orders == v.orders - EntryIds(entries)
    && (forall t: Token :: w.free.Get(t) == v.free.Get(t) + RefundSum(entries, t))
    && w.cancelled.Keys == v.cancelled.Keys + (if kind == Cancel then EntryIds(entries) else {})
  }

  ghost predicate ConfirmTouches(v: Vault, w: Vault)
  {
    w == v.(free := w.free, orders := w.orders, cancelled := w.cancelled)
  }

  lemma {:induction false} ConfirmEntriesFacts(v: Vault, kind: PageKind, entries: seq<PageEntry>)
    requires DistinctEntries(entries) && forall e :: e in entries ==> e.id in v.orders
    ensures Confirms(v, ConfirmEntries(v, kind, entries), kind, entries)
    ensures ConfirmTouches(v, ConfirmEntries(v, kind, entries))
  {
    hide Confirms, ConfirmTouches, DistinctEntries, ConfirmEntry;
    if entries == [] {
      NothingConfirmed(v, kind);
    } else {
      var last := |entries| - 1;
      LastEntry(entries);
      assert entries[last] in entries;
      ConfirmEntriesFacts(v, kind, entries[..last]);
      var before := ConfirmEntries(v, kind, entries[..last]);
      ConfirmsOneMore(v, before, kind, entries);
      ConfirmEntryTouches(v, before, kind, entries[last]);
    }
  }

  lemma NothingConfirmed(v: Vault, kind: PageKind)
    ensures Confirms(v, v, kind, []) && ConfirmTouches(v, v)
  {
    assert v.orders - EntryIds([]) == v.orders;
    assert v.cancelled.Keys + EntryIds([]) == v.cancelled.Keys;
  }

  lemma ConfirmEntryTouches(v: Vault, before: Vault, kind: PageKind, e: PageEntry)
    requires ConfirmTouches(v, before)
    ensures ConfirmTouches(v, ConfirmEntry(before, kind, e))
  {
  }

  lemma ConfirmsOneMore(v: Vault, before: Vault, kind: PageKind, entries: seq<PageEntry>)
    requires entries != []
    requires var last := |entries| - 1;
             entries[last].id in v.orders && entries[last].id !in EntryIds(entries[..last])
             && EntryIds(entries) == EntryIds(entries[..last]) + {entries[last].id}
             && Confirms(v, before, kind, entries[..last])
    ensures Confirms(v, ConfirmEntry(before, kind, entries[|entries| - 1]), kind, entries)
  {
    hide EntryIds, RefundSum, ConfirmEntry;
    var last := |entries| - 1;
    ConfirmEntryMoves(v, before, kind, entries[last], EntryIds(entries[..last]));
    ConfirmEntryFacts(before, kind, entries[last]);
    RefundOneMore(v.free, before.free, entries);
  }

  lemma ConfirmEntryMoves(v: Vault, before: Vault, kind: PageKind, e: PageEntry, ids: set<OrderId>)
    requires before.orders == v.orders - ids && e.id in v.orders && e.id !in ids
    requires before.cancelled.Keys == v.cancelled.Keys + (if kind == Cancel then ids else {})
    ensures var w := ConfirmEntry(before, kind, e);
            w.orders == v.orders - (ids + {e.id})
            && w.cancelled.Keys == v.cancelled.Keys + (if kind == Cancel then (ids + {e.id}) else {})
  {
    hide ConfirmEntry;
    OneOrderLess(v.orders, ids, e.id);
    ConfirmEntryFacts(before, kind, e);
  }

  lemma ConfirmEntryFacts(v: Vault, kind: PageKind, e: PageEntry)
    requires e.id in v.orders
    ensures var w := ConfirmEntry(v, kind, e);
            w.free == v.free.Put(e.token, v.free.Get(e.token) + e.refund) && w.orders == v.orders - {e.id}
            && w.cancelled.Keys == v.cancelled.Keys + (if kind == Cancel then {e.id} else {})
  {
  }

  lemma RefundOneMore(start: Amounts, before: Amounts, entries: seq<PageEntry>)
    requires entries != []
    requires forall t: Token :: before.Get(t) == start.Get(t) + RefundSum(entries[..|entries| - 1], t)
    ensures var e := entries[|entries| - 1];
            forall t: Token ::
              before.Put(e.token, before.Get(e.token) + e.refund).Get(t) == start.Get(t) + RefundSum(entries, t)
  {
  }

  lemma OneOrderLess(orders: map<OrderId, GridOrder>, ids: set<OrderId>, id: OrderId)
    requires id in orders && id !in ids
    ensures orders - ids - {id} == orders - (ids + {id})
  {
  }

  /** Distinct entries for tracked orders leave that many fewer tracked. */
  lemma {:induction false} EntriesCount(orders: map<OrderId, GridOrder>, entries: seq<PageEntry>)
    requires DistinctEntries(entries) && forall e :: e in entries ==> e.id in orders
    ensures |orders - EntryIds(entries)| == |orders| - |entries|
  {
    if entries == [] {
      assert orders - EntryIds([]) == orders;
    } else {
      var last := |entries| - 1;
      LastEntry(entries);
      hide EntryIds, DistinctEntries;
      assert entries[last] in entries;
      EntriesCount(orders, entries[..last]);
      OneOrderLess(orders, EntryIds(entries[..last]), entries[last].id);
      OneKeyLess(orders - EntryIds(entries[..last]), entries[last].id);
    }
  }

  lemma OneKeyLess(orders: map<OrderId, GridOrder>, id: OrderId)
    requires id in orders
    ensures |orders - {id}| == |orders| - 1
  {
    assert (orders - {id}).Keys == orders.Keys - {id};
  }

  lemma LastEntry(entries: seq<PageEntry>)
    requires entries != [] && DistinctEntries(entries)
    ensures var last := |entries| - 1;
            DistinctEntries(entries[..last]) && EntryIds(entries) == EntryIds(entries[..last]) + {entries[last].id}
            && entries[last].id !in EntryIds(entries[..last])
  {
    var last := |entries| - 1;
    forall id ensures id in EntryIds(entries) <==> id in EntryIds(entries[..last]) + {entries[last].id} {
      if id in EntryIds(entries) {
        var i :| 0 <= i < |entries| && entries[i].id == id;
        assert i < last ==> entries[..last][i].id == id;
      }
      if id in EntryIds(entries[..last]) {
        var i :| 0 <= i < last && entries[..last][i].id == id;
        assert entries[i].id == id;
      }
      assert entries[last].id in EntryIds(entries);
    }
  }

  /** The first reply's dues are the page's entries, distinct from all the others. */
  lemma FirstPageDues(pages: map<ReplyId, PendingPage>, orders: map<OrderId, GridOrder>, outs: seq<ReplyId>)
    requires outs != [] && outs[0] in pages
    requires Distinct(Dues(pages, outs)) && forall d :: d in Dues(pages, outs) ==> Tracked(orders, d)
    ensures var entries := pages[outs[0]].entries;
            DistinctEntries(entries)
            && (forall e :: e in entries ==> e.id in orders)
            && (forall d :: d in Dues(pages, outs[1..]) ==> d.entry.id !in EntryIds(entries))
            && Distinct(Dues(pages, outs[1..]))
  {
    var page := pages[outs[0]];
    var first, rest := Tagged(page.kind, page.entries), Dues(pages, outs[1..]);
    var all := Dues(pages, outs);
    assert all == first + rest;
    hide Dues, Distinct;
    assert forall i, j :: 0 <= i < j < |all| ==> all[i].entry.id != all[j].entry.id;
    forall e | e in page.entries ensures e.id in orders {
      var i :| 0 <= i < |page.entries| && page.entries[i] == e;
      assert all[i] == Due(page.kind, e) && all[i] in all;
    }
    forall i, j | 0 <= i < j < |page.entries| ensures page.entries[i].id != page.entries[j].id {
      assert all[i].entry == page.entries[i] && all[j].entry == page.entries[j];
    }
    forall i, j | 0 <= i < j < |rest| ensures rest[i].entry.id != rest[j].entry.id {
      assert all[|first| + i] == rest[i] && all[|first| + j] == rest[j];
    }
    forall d | d in rest ensures d.entry.id !in EntryIds(page.entries) {
      var j :| 0 <= j < |rest| && rest[j] == d;
      forall i | 0 <= i < |page.entries| ensures page.entries[i].id != d.entry.id {
        assert all[i].entry == page.entries[i] && all[|first| + j] == d;
      }
    }
  }

  /** Taking the first outstanding reply off the record leaves the others outstanding. */
  lemma RepliesTail(
    pages: map<ReplyId, PendingPage>, placements: map<ReplyId, PlacementPlan>, nextReply: ReplyId, outs: seq<ReplyId>)
    requires RepliesOk(pages, placements, nextReply, outs) && outs != []
    ensures RepliesOk(pages - {outs[0]}, placements - {outs[0]}, nextReply, outs[1..])
    ensures Dues(pages - {outs[0]}, outs[1..]) == Dues(pages, outs[1..])
    ensures forall t :: Gross(placements - {outs[0]}, outs[1..], t) == Gross(placements, outs[1..], t)
    ensures RungsAwaiting(placements - {outs[0]}, outs[1..]) == RungsAwaiting(placements, outs[1..])
  {
    FirstIsPending(pages, placements, nextReply, outs);
    DuesFrame(pages, pages - {outs[0]}, outs[1..]);
    PlacementsFrame(placements, placements - {outs[0]}, outs[1..]);
  }

  lemma RemovingAbsent<V>(m: map<ReplyId, V>, k: ReplyId)
    requires k !in m
    ensures m - {k} == m
  {
  }

  /** With every part shown, the invariant between submessages. */
  lemma Assemble(c: Params, b: Books, queue: seq<ReplyId>)
    requires Consistent(c, b.v.orders, b.v.cancelled, b.p, {})
    requires RepliesOk(b.v.pages, b.v.placements, b.v.nextReply, queue)
    requires DuesOk(b.v.pages, b.v.orders, b.p, queue, queue)
    requires Custody(b, queue, Landed) && Counted(b.v, queue) && SharesOk(c, b.v.shares, b.v.total)
    ensures Inv(c, b, queue, Landed)
  {
    hide Consistent, RepliesOk, SharesOk, DuesOk, Custody, Counted;
  }

  /** The parts of the invariant with a reply in flight. */
  lemma Parts(c: Params, b: Books, queue: seq<ReplyId>, flight: Flight)
    requires Inv(c, b, queue, flight) && flight != Landed
    ensures var outs := Outstanding(queue, flight);
            outs != [] && outs[0] == flight.reply && outs[1..] == queue
            && Consistent(c, b.v.orders, b.v.cancelled, b.p, Settling(b.v.pages, flight))
            && RepliesOk(b.v.pages, b.v.placements, b.v.nextReply, outs)
            && DuesOk(b.v.pages, b.v.orders, b.p, queue, outs)
            && FlightOk(b.v, b.p, flight) && Custody(b, queue, flight) && Counted(b.v, outs)
            && SharesOk(c, b.v.shares, b.v.total)
            && (flight.reply in b.v.pages <==> flight.reply !in b.v.placements)
            && forall r :: r in queue ==> r != flight.reply
  {
    hide Consistent, SharesOk, DuesOk, Custody, Counted;
    FirstIsPending(b.v.pages, b.v.placements, b.v.nextReply, Outstanding(queue, flight));
  }

  lemma PageConfirmedConsistent(
    c: Params, orders: map<OrderId, GridOrder>, cancelled: map<OrderId, CancelledOrder>,
    cancelled': map<OrderId, CancelledOrder>, p: Pair, ids: set<OrderId>)
    requires Consistent(c, orders, cancelled, p, ids) && ids <= orders.Keys
    requires forall id :: id in ids ==> id !in p.active && id !in p.parked
    requires cancelled'.Keys <= cancelled.Keys + ids
    ensures Consistent(c, orders - ids, cancelled', p, {})
  {
  }

  /** A page's reply is never refused: its orders are still tracked and counted. */
  lemma PageReplyNeverFails(c: Params, b: Books, queue: seq<ReplyId>, flight: Flight)
    requires Inv(c, b, queue, flight) && flight != Landed && flight.reply in b.v.pages
    ensures Reply(c, b.v, b.p, flight.reply, flight.result).Ok?
  {
    var outs := Outstanding(queue, flight);
    FirstPageDues(b.v.pages, b.v.orders, outs);
    EntriesCount(b.v.orders, b.v.pages[flight.reply].entries);
  }

  lemma PageFailureKeeps(c: Params, b: Books, queue: seq<ReplyId>, flight: Flight)
    requires Inv(c, b, queue, flight) && flight != Landed && flight.reply in b.v.pages && flight.result != PageDone
    ensures Inv(c, b.(v := b.v.(pages := b.v.pages - {flight.reply})), queue, Landed)
  {
    hide Consistent, RepliesOk, Distinct, Tracked, Payable, SharesOk;
    var outs := Outstanding(queue, flight);
    FirstIsPending(b.v.pages, b.v.placements, b.v.nextReply, outs);
    RepliesTail(b.v.pages, b.v.placements, b.v.nextReply, outs);
    FirstPageDues(b.v.pages, b.v.orders, outs);
    TailDues(b.v.pages, outs);
    assert outs[1..] == queue;
    RemovingAbsent(b.v.placements, flight.reply);
  }

  /** The vault once `confirmed` has taken over from a page of `n` entries. */
  function Settled(v: Vault, confirmed: Vault, n: nat, reply: ReplyId): Vault
    requires n <= v.activeOrders
  {
    v.(free := confirmed.free, orders := confirmed.orders, cancelled := confirmed.cancelled,
       activeOrders := v.activeOrders - n, pages := v.pages - {reply})
  }

  lemma ReplySettlesPage(c: Params, v: Vault, p: Pair, reply: ReplyId)
    requires reply in v.pages
    requires var page := v.pages[reply];
             |page.entries| <= v.activeOrders && ConfirmTouches(v, ConfirmEntries(v, page.kind, page.entries))
    ensures var page := v.pages[reply];
            Reply(c, v, p, reply, PageDone)
            == Ok(Response(Settled(v, ConfirmEntries(v, page.kind, page.entries), |page.entries|, reply), [],
               Nothing()))
  {
    hide ConfirmEntries;
  }

  lemma PageSuccessKeeps(c: Params, b: Books, queue: seq<ReplyId>, flight: Flight)
    requires Inv(c, b, queue, flight) && flight != Landed && flight.reply in b.v.pages && flight.result == PageDone
    ensures Reply(c, b.v, b.p, flight.reply, PageDone).Ok?
    ensures Inv(c, b.(v := Reply(c, b.v, b.p, flight.reply, PageDone).value.vault), queue, Landed)
  {
    hide Inv, Reply, ConfirmEntries, DistinctEntries;
    var page := b.v.pages[flight.reply];
    PageInFlightFacts(c, b, queue, flight);
    EntriesCount(b.v.orders, page.entries);
    ConfirmEntriesFacts(b.v, page.kind, page.entries);
    ReplySettlesPage(c, b.v, b.p, flight.reply);
    SettledKeeps(c, b, queue, flight, ConfirmEntries(b.v, page.kind, page.entries));
  }

  lemma PageInFlightFacts(c: Params, b: Books, queue: seq<ReplyId>, flight: Flight)
    requires Inv(c, b, queue, flight) && flight != Landed && flight.reply in b.v.pages
    ensures var entries := b.v.pages[flight.reply].entries;
            DistinctEntries(entries) && (forall e :: e in entries ==> e.id in b.v.orders)
            && |entries| <= b.v.activeOrders && EntryIds(entries) <= b.v.orders.Keys
  {
    hide Consistent, RepliesOk, FlightOk, Custody, SharesOk;
    FirstPageDues(b.v.pages, b.v.orders, Outstanding(queue, flight));
    EntriesCount(b.v.orders, b.v.pages[flight.reply].entries);
  }

  lemma SettledKeeps(c: Params, b: Books, queue: seq<ReplyId>, flight: Flight, confirmed: Vault)
    requires Inv(c, b, queue, flight) && flight != Landed && flight.reply in b.v.pages && flight.result == PageDone
    requires var page := b.v.pages[flight.reply];
             EntryIds(page.entries) <= b.v.orders.Keys && |page.entries| <= b.v.activeOrders
             && Confirms(b.v, confirmed, page.kind, page.entries)
             && |confirmed.orders| == |b.v.orders| - |page.entries|
    ensures Inv(c, b.(v := Settled(b.v, confirmed, |b.v.pages[flight.reply].entries|, flight.reply)), queue, Landed)
  {
    hide Inv, Outstanding, FlightOk, Consistent, RepliesOk, DuesOk, SharesOk, EntryIds, Custody, Counted;
    var page := b.v.pages[flight.reply];
    var outs := Outstanding(queue, flight);
    var w := Settled(b.v, confirmed, |page.entries|, flight.reply);
    Parts(c, b, queue, flight);
    RemovingAbsent(b.v.placements, flight.reply);
    SettledMoney(b, queue, flight, confirmed);
    PageOffPair(b.v, b.p, flight);
    PageConfirmedConsistent(c, b.v.orders, b.v.cancelled, confirmed.cancelled, b.p, EntryIds(page.entries));
    RepliesTail(b.v.pages, b.v.placements, b.v.nextReply, outs);
    SettledDues(b.v.pages, b.v.orders, b.p, queue, outs);
    Assemble(c, b.(v := w), queue);
  }

  lemma PageOffPair(v: Vault, p: Pair, flight: Flight)
    requires FlightOk(v, p, flight) && flight != Landed && flight.result == PageDone
    ensures forall id :: id in EntryIds(v.pages[flight.reply].entries) ==> id !in p.active && id !in p.parked
  {
  }

  /** The refunds in flight have become free, and the settled orders are no longer counted. */
  lemma SettledMoney(b: Books, queue: seq<ReplyId>, flight: Flight, confirmed: Vault)
    requires flight != Landed && flight.reply in b.v.pages && flight.reply !in b.v.placements
             && flight.result == PageDone
    requires Custody(b, queue, flight) && Counted(b.v, Outstanding(queue, flight))
    requires var page := b.v.pages[flight.reply];
             |page.entries| <= b.v.activeOrders && Confirms(b.v, confirmed, page.kind, page.entries)
             && |confirmed.orders| == |b.v.orders| - |page.entries|
    ensures var w := Settled(b.v, confirmed, |b.v.pages[flight.reply].entries|, flight.reply);
            Custody(b.(v := w), queue, Landed) && Counted(w, queue)
  {
    hide EntryIds;
    assert Outstanding(queue, flight)[1..] == queue;
  }

  lemma SettledDues(
    pages: map<ReplyId, PendingPage>, orders: map<OrderId, GridOrder>, p: Pair, queue: seq<ReplyId>, outs: seq<ReplyId>)
    requires outs != [] && outs[1..] == queue && outs[0] in pages && DuesOk(pages, orders, p, queue, outs)
    requires forall r :: r in queue ==> r != outs[0]
    ensures DuesOk(pages - {outs[0]}, orders - EntryIds(pages[outs[0]].entries), p, queue, queue)
  {
    hide Distinct, Tracked, Payable, EntryIds, DistinctEntries;
    FirstPageDues(pages, orders, outs);
    TailDues(pages, outs);
    DuesFrame(pages, pages - {outs[0]}, queue);
    StillTracked(orders, Dues(pages, queue), EntryIds(pages[outs[0]].entries));
  }

  lemma StillTracked(orders: map<OrderId, GridOrder>, dues: seq<Due>, gone: set<OrderId>)
    requires forall d :: d in dues ==> Tracked(orders, d) && d.entry.id !in gone
    ensures forall d :: d in dues ==> Tracked(orders - gone, d)
  {
  }

  /** A one-order placement that placed nothing returns its gross to the free balance. */
  lemma RestoreKeeps(c: Params, b: Books, queue: seq<ReplyId>, flight: Flight)
    requires Inv(c, b, queue, flight) && flight != Landed && flight.reply in b.v.placements
             && flight.reply !in b.v.pages
    requires |b.v.placements[flight.reply].rungs| == 1 && (flight.result == Failed || flight.result == Placed([]))
    ensures RestorePlacement(b.v, flight.reply).Ok?
    ensures Inv(c, b.(v := RestorePlacement(b.v, flight.reply).value.vault), queue, Landed)
  {
    var outs := Outstanding(queue, flight);
    hide Consistent, RepliesOk, SharesOk, Distinct, Tracked, Payable;
    assert outs[1..] == queue;
    TailDues(b.v.pages, outs);
    RepliesTail(b.v.pages, b.v.placements, b.v.nextReply, outs);
    RemovingAbsent(b.v.pages, flight.reply);
    assert Dues(b.v.pages, outs) == [] + Dues(b.v.pages, queue) == Dues(b.v.pages, queue);
  }

  /** What tracking a list of reported ids does: exactly those ids are new, each as the pair holds it. */
  ghost predicate Records(
    c: Params, before: map<OrderId, GridOrder>, p: Pair, after: map<OrderId, GridOrder>, ids: seq<OrderId>)
  {
    (forall id :: id in before ==> id in after && after[id] == before[id])
    && (forall id :: id in after && id !in before ==> id in ids)
    && (forall id :: id in ids ==>
          id in after && id !in before && id in p.active && MatchesActive(c.self, after[id], p.active[id]))
    && |after| == |before| + |ids|
  }

  lemma {:induction false} RecordOrdersFacts(
    c: Params, before: map<OrderId, GridOrder>, p: Pair, plan: PlacementPlan, ids: seq<OrderId>)
    requires |ids| <= |plan.rungs| && RecordOrders(c, before, p, plan, ids).Ok?
    ensures Records(c, before, p, RecordOrders(c, before, p, plan, ids).value, ids)
  {
    hide Records, RecordOrder;
    if ids == [] {
      NothingRecorded(c, before, p);
    } else {
      var last := |ids| - 1;
      RecordOrdersFacts(c, before, p, plan, ids[..last]);
      var earlier := RecordOrders(c, before, p, plan, ids[..last]).value;
      RecordOneMore(c, before, p, plan, earlier, ids[..last], plan.rungs[last], ids[last]);
      assert ids == ids[..last] + [ids[last]];
    }
  }

  lemma NothingRecorded(c: Params, before: map<OrderId, GridOrder>, p: Pair)
    ensures Records(c, before, p, before, [])
  {
  }

  lemma RecordOneMore(
    c: Params, before: map<OrderId, GridOrder>, p: Pair, plan: PlacementPlan, earlier: map<OrderId, GridOrder>,
    ids: seq<OrderId>, rung: nat, id: OrderId)
    requires Records(c, before, p, earlier, ids) && RecordOrder(c, earlier, p, plan, rung, id).Ok?
    ensures Records(c, before, p, RecordOrder(c, earlier, p, plan, rung, id).value, ids + [id])
  {
    hide RecordOrder, MatchesActive;
    RecordOrderFacts(c, earlier, p, plan, rung, id);
    var after := RecordOrder(c, earlier, p, plan, rung, id).value;
    assert after.Keys == earlier.Keys + {id};
    forall other | other in ids + [id]
      ensures other in after && other !in before && other in p.active
              && MatchesActive(c.self, after[other], p.active[other])
    {
    }
  }

  lemma RecordOrderFacts(
    c: Params, orders: map<OrderId, GridOrder>, p: Pair, plan: PlacementPlan, rung: nat, id: OrderId)
    requires RecordOrder(c, orders, p, plan, rung, id).Ok?
    ensures var after := RecordOrder(c, orders, p, plan, rung, id).value;
            id !in orders && id in p.active && id in after && after == orders[id := after[id]]
            && MatchesActive(c.self, after[id], p.active[id])
  {
  }

  lemma RecordedConsistent(
    c: Params, before: map<OrderId, GridOrder>, after: map<OrderId, GridOrder>, cancelled: map<OrderId, CancelledOrder>,
    p: Pair, ids: seq<OrderId>)
    requires Consistent(c, before, cancelled, p, {}) && Records(c, before, p, after, ids)
    requires forall id :: id in ids ==> id < p.nextId && id !in cancelled
    ensures Consistent(c, after, cancelled, p, {}) && |after| == |before| + |ids|
  {
  }

  lemma TrackedAfterRecording(
    c: Params, before: map<OrderId, GridOrder>, p: Pair, after: map<OrderId, GridOrder>, ids: seq<OrderId>,
    dues: seq<Due>)
    requires Records(c, before, p, after, ids) && forall d :: d in dues ==> Tracked(before, d)
    ensures forall d :: d in dues ==> Tracked(after, d)
  {
  }

  lemma RecordKeeps(c: Params, b: Books, queue: seq<ReplyId>, flight: Flight, ids: seq<OrderId>)
    requires Inv(c, b, queue, flight) && flight != Landed && flight.reply in b.v.placements
             && flight.reply !in b.v.pages
    requires flight.result == Placed(ids) && |ids| == |b.v.placements[flight.reply].rungs|
    requires RecordOrders(c, b.v.orders, b.p, b.v.placements[flight.reply], ids).Ok?
    ensures var recorded := RecordOrders(c, b.v.orders, b.p, b.v.placements[flight.reply], ids).value;
            Inv(c, b.(v := b.v.(orders := recorded, placements := b.v.placements - {flight.reply})), queue, Landed)
  {
    hide Inv, Outstanding, FlightOk, Consistent, RepliesOk, SharesOk, DuesOk, RecordOrders, Records, Custody, Counted;
    var recorded := RecordOrders(c, b.v.orders, b.p, b.v.placements[flight.reply], ids).value;
    var outs := Outstanding(queue, flight);
    Parts(c, b, queue, flight);
    RecordOrdersFacts(c, b.v.orders, b.p, b.v.placements[flight.reply], ids);
    ReportedAreNew(b.v, b.p, flight);
    RecordedConsistent(c, b.v.orders, recorded, b.v.cancelled, b.p, ids);
    RepliesTail(b.v.pages, b.v.placements, b.v.nextReply, outs);
    RemovingAbsent(b.v.pages, flight.reply);
    RecordedDues(c, b.v.pages, b.v.orders, recorded, b.p, queue, outs, ids);
    RecordedMoney(b, queue, flight, recorded);
    Assemble(c, b.(v := b.v.(orders := recorded, placements := b.v.placements - {flight.reply})), queue);
  }

  lemma ReportedAreNew(v: Vault, p: Pair, flight: Flight)
    requires FlightOk(v, p, flight) && flight != Landed && flight.result.Placed?
    ensures forall id :: id in flight.result.ids ==> id < p.nextId && id !in v.cancelled
  {
  }

  lemma RecordedDues(
    c: Params, pages: map<ReplyId, PendingPage>, before: map<OrderId, GridOrder>, after: map<OrderId, GridOrder>,
    p: Pair,
    queue: seq<ReplyId>, outs: seq<ReplyId>, ids: seq<OrderId>)
    requires outs != [] && outs[1..] == queue && outs[0] !in pages
    requires DuesOk(pages, before, p, queue, outs) && Records(c, before, p, after, ids)
    ensures DuesOk(pages, after, p, queue, queue)
  {
    TailDues(pages, outs);
    assert Dues(pages, outs) == [] + Dues(pages, queue) == Dues(pages, queue);
    hide Records, Distinct, Payable, Tracked;
    TrackedAfterRecording(c, before, p, after, ids, Dues(pages, queue));
  }

  /** The placement's gross has left with the submessage; its rungs are now tracked orders. */
  lemma RecordedMoney(b: Books, queue: seq<ReplyId>, flight: Flight, recorded: map<OrderId, GridOrder>)
    requires flight != Landed && flight.reply in b.v.placements && flight.reply !in b.v.pages && flight.result.Placed?
    requires |flight.result.ids| == |b.v.placements[flight.reply].rungs|
    requires |recorded| == |b.v.orders| + |flight.result.ids|
    requires Custody(b, queue, flight) && Counted(b.v, Outstanding(queue, flight))
    requires forall r :: r in queue ==> r != flight.reply
    ensures var w := b.v.(orders := recorded, placements := b.v.placements - {flight.reply});
            Custody(b.(v := w), queue, Landed) && Counted(w, queue)
  {
    assert Outstanding(queue, flight)[1..] == queue;
    PlacementsFrame(b.v.placements, b.v.placements - {flight.reply}, queue);
  }

  lemma DeliveryKeeps(c: Params, b: Books, queue: seq<ReplyId>, flight: Flight)
    requires Inv(c, b, queue, flight) && flight != Landed
    requires Reply(c, b.v, b.p, flight.reply, flight.result).Ok?
    ensures Inv(c, b.(v := Reply(c, b.v, b.p, flight.reply, flight.result).value.vault), queue, Landed)
  {
    FirstIsPending(b.v.pages, b.v.placements, b.v.nextReply, Outstanding(queue, flight));
    if flight.reply in b.v.pages {
      hide Inv, ConfirmEntries;
      if flight.result == PageDone {
        PageSuccessKeeps(c, b, queue, flight);
      } else {
        PageFailureKeeps(c, b, queue, flight);
      }
    } else {
      assert flight.result != PageDone;
      hide Inv, RecordOrders, RestorePlacement;
      if |b.v.placements[flight.reply].rungs| == 1 && (flight.result == Failed || flight.result == Placed([])) {
        RestoreKeeps(c, b, queue, flight);
      } else {
        RecordKeeps(c, b, queue, flight, flight.result.ids);
      }
    }
  }

  // ---- The pair's own steps ----

  lemma PairStepConsistent(
    c: Params, orders: map<OrderId, GridOrder>, cancelled: map<OrderId, CancelledOrder>, b: Books, e: Event)
    requires Consistent(c, orders, cancelled, b.p, {})
    ensures Consistent(c, orders, cancelled, PairStep(c, b, e).p, {})
  {
  }

  lemma PairStepKeeps(c: Params, b: Books, e: Event)
    requires RestInv(c, b)
    ensures RestInv(c, PairStep(c, b, e))
  {
    hide Consistent, SharesOk, RepliesOk, Custody, DuesOk, FlightOk, Counted;
    RestHasNothingPending(c, b);
    PairStepConsistent(c, b.v.orders, b.v.cancelled, b, e);
    RestFrom(c, PairStep(c, b, e));
  }

  // ---- Every step, every run ----

  lemma StepKeeps(c: Params, w: World, e: Event)
    requires c.Valid() && WorldInv(c, w)
    ensures WorldInv(c, Step(c, w, e))
  {
    hide Inv, RestInv, Handle, Execute, Reply, PairStep, Opens;
    match e
    case Start(call) =>
      if w.AtRest() {
        RestIsInv(c, w.now);
        HandlerKeeps(c, w.now, call);
        StartKeeps(c, w, call);
      }
    case RunSub(outcome) =>
      if w.queue != [] && w.flight == Landed {
        SubKeeps(c, w.now, w.queue, outcome);
      }
    case Deliver =>
      if w.flight != Landed {
        if Reply(c, w.now.v, w.now.p, w.flight.reply, w.flight.result).Ok? {
          DeliveryKeeps(c, w.now, w.queue, w.flight);
        } else {
          RestIsInv(c, w.saved);
        }
      }
    case _ =>
      if w.AtRest() {
        RestIsInv(c, w.now);
        PairStepKeeps(c, w.now, e);
        RestIsInv(c, PairStep(c, w.now, e));
      }
  }

  lemma RestIsInv(c: Params, b: Books)
    ensures RestInv(c, b) <==> Inv(c, b, [], Landed)
  {
  }

  lemma StartKeeps(c: Params, w: World, call: Call)
    requires c.Valid() && WorldInv(c, w) && w.AtRest() && RestInv(c, w.now) && Opens(c, w.now, call)
    ensures WorldInv(c, Step(c, w, Start(call)))
  {
    hide Inv, RestInv, Handle;
  }

  /** The limit-grid invariant over every run of calls, submessages, replies and pair steps. */
  lemma {:induction false} RunKeeps(c: Params, w: World, events: seq<Event>)
    requires c.Valid() && WorldInv(c, w)
    ensures WorldInv(c, Run(c, w, events))
    decreases |events|
  {
    if events != [] {
      hide WorldInv, Step;
      StepKeeps(c, w, events[0]);
      RunKeeps(c, Step(c, w, events[0]), events[1..]);
    }
  }
}
