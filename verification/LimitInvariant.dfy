/** Every event of the limit-grid world keeps its invariant: custody, counting, disjoint pages, agreement
    with the pair, and share conservation. */
module LimitInvariant {
  import opened Arithmetic
  import opened Tokens
  import opened Ledger
  import opened LimitGrid
  import opened LimitChain
  import NavShares

  // ---- Folds over replies ----

  lemma {:induction false} DuesAppend(pages: map<ReplyId, PendingPage>, a: seq<ReplyId>, b: seq<ReplyId>)
    ensures Dues(pages, a + b) == Dues(pages, a) + Dues(pages, b)
  {
    if a == [] {
      assert a + b == b;
    } else {
      DuesAppend(pages, a[1..], b);
      assert (a + b)[1..] == a[1..] + b;
      var head := if a[0] in pages then Tagged(pages[a[0]].kind, pages[a[0]].entries) else [];
      assert head + (Dues(pages, a[1..]) + Dues(pages, b)) == (head + Dues(pages, a[1..])) + Dues(pages, b);
    }
  }

  lemma {:induction false} PlacementsAppend(placements: map<ReplyId, PlacementPlan>, a: seq<ReplyId>, b: seq<ReplyId>)
    ensures forall t :: Gross(placements, a + b, t) == Gross(placements, a, t) + Gross(placements, b, t)
    ensures RungsAwaiting(placements, a + b) == RungsAwaiting(placements, a) + RungsAwaiting(placements, b)
  {
    if a == [] {
      assert a + b == b;
    } else {
      PlacementsAppend(placements, a[1..], b);
      assert (a + b)[1..] == a[1..] + b;
    }
  }

  ghost predicate SamePages(pages: map<ReplyId, PendingPage>, pages': map<ReplyId, PendingPage>, replies: seq<ReplyId>)
  {
    forall r :: r in replies ==> (r in pages <==> r in pages') && (r in pages ==> pages[r] == pages'[r])
  }

  ghost predicate SamePlacements(
    placements: map<ReplyId, PlacementPlan>, placements': map<ReplyId, PlacementPlan>, replies: seq<ReplyId>)
  {
    forall r :: r in replies ==>
      (r in placements <==> r in placements') && (r in placements ==> placements[r] == placements'[r])
  }

  lemma {:induction false} DuesFrame(
    pages: map<ReplyId, PendingPage>, pages': map<ReplyId, PendingPage>, replies: seq<ReplyId>)
    requires SamePages(pages, pages', replies)
    ensures Dues(pages, replies) == Dues(pages', replies)
  {
    if replies != [] {
      assert replies[0] in replies;
      DuesFrame(pages, pages', replies[1..]);
    }
  }

  lemma {:induction false} PlacementsFrame(
    placements: map<ReplyId, PlacementPlan>, placements': map<ReplyId, PlacementPlan>, replies: seq<ReplyId>)
    requires SamePlacements(placements, placements', replies)
    ensures forall t :: Gross(placements, replies, t) == Gross(placements', replies, t)
    ensures RungsAwaiting(placements, replies) == RungsAwaiting(placements', replies)
  {
    if replies != [] {
      assert replies[0] in replies;
      PlacementsFrame(placements, placements', replies[1..]);
    }
  }

  lemma RestHasNothingPending(c: Params, b: Books)
    requires RestInv(c, b)
    ensures b.v.pages == map[] && b.v.placements == map[]
    ensures forall t: Token :: b.bal.Get(t) == b.v.free.Get(t) + b.credits.Get(t)
    ensures b.v.activeOrders == |b.v.orders|
  {
    assert forall r :: r !in b.v.pages && r !in b.v.placements;
  }

  /** Opening a transaction on books at rest: nothing pending, custody exact. */
  lemma RestFrom(c: Params, b: Books)
    requires Consistent(c, b.v.orders, b.v.cancelled, b.p, {}) && SharesOk(c, b.v.shares, b.v.total)
    requires b.v.pages == map[] && b.v.placements == map[]
    requires forall t: Token :: b.bal.Get(t) == b.v.free.Get(t) + b.credits.Get(t)
    requires b.v.activeOrders == |b.v.orders|
    ensures RestInv(c, b)
  {
  }

  // ---- Opening placements ----

  lemma {:induction false} NoPages(replies: seq<ReplyId>)
    ensures Dues(map[], replies) == []
  {
    if replies != [] {
      NoPages(replies[1..]);
    }
  }

  lemma PlacementOpens(c: Params, b: Books, subs: seq<ReplyId>, side: Side, rungs: seq<nat>, each: nat)
    requires Inv(c, b, subs, Landed) && b.v.pages == map[]
    requires each * |rungs| <= b.v.free.Get(side.Input())
    ensures var r := AddPlacement(c, b.v, side, rungs, each);
            Inv(c, b.(v := r.vault), subs + r.subs, Landed) && r.vault.pages == map[] && r.paid == Nothing()
  {
    hide Inv;
    var r := AddPlacement(c, b.v, side, rungs, each);
    if r.subs == [] {
      assert subs + r.subs == subs && b.(v := r.vault) == b;
    } else {
      PlacementQueued(c, b, subs, side, rungs, each);
    }
  }

  lemma NoDues(orders: map<OrderId, GridOrder>, p: Pair, replies: seq<ReplyId>)
    ensures DuesOk(map[], orders, p, replies, replies)
  {
    NoPages(replies);
  }

  lemma PlacementQueued(c: Params, b: Books, subs: seq<ReplyId>, side: Side, rungs: seq<nat>, each: nat)
    requires Inv(c, b, subs, Landed) && b.v.pages == map[]
    requires each * |rungs| <= b.v.free.Get(side.Input())
    requires AddPlacement(c, b.v, side, rungs, each).subs != []
    ensures var r := AddPlacement(c, b.v, side, rungs, each);
            Inv(c, b.(v := r.vault), subs + r.subs, Landed)
  {
    hide Consistent, SharesOk, Custody, Counted, RepliesOk, DuesOk;
    var r := AddPlacement(c, b.v, side, rungs, each);
    PlacementMoney(c, b, subs, side, rungs, each);
    NoDues(b.v.orders, b.p, subs + r.subs);
    RepliesExtend(b.v.pages, b.v.placements, b.v.nextReply, r.vault.pages, r.vault.placements, subs, r.subs);
  }

  /** Handing out the next reply ids keeps the outstanding ones the last ones handed out. */
  lemma RepliesExtend(
    pages: map<ReplyId, PendingPage>, placements: map<ReplyId, PlacementPlan>, nextReply: ReplyId,
    pages': map<ReplyId, PendingPage>, placements': map<ReplyId, PlacementPlan>, subs: seq<ReplyId>, more: seq<ReplyId>)
    requires RepliesOk(pages, placements, nextReply, subs)
    requires forall i :: 0 <= i < |more| ==> more[i] == nextReply + i
    requires forall r :: r in pages' ==> r !in placements'
    requires forall r :: r in pages' || r in placements'
                         <==> r in pages || r in placements || nextReply <= r < nextReply + |more|
    ensures RepliesOk(pages', placements', nextReply + |more|, subs + more)
  {
  }

  /** The gross moves from the free balance to the queued placement, its rungs from nowhere to awaiting. */
  lemma PlacementMoney(c: Params, b: Books, subs: seq<ReplyId>, side: Side, rungs: seq<nat>, each: nat)
    requires RepliesOk(b.v.pages, b.v.placements, b.v.nextReply, subs) && Custody(b, subs, Landed) && Counted(b.v, subs)
    requires each * |rungs| <= b.v.free.Get(side.Input())
    requires AddPlacement(c, b.v, side, rungs, each).subs != []
    ensures var r := AddPlacement(c, b.v, side, rungs, each);
            Custody(b.(v := r.vault), subs + r.subs, Landed) && Counted(r.vault, subs + r.subs)
  {
    var r := AddPlacement(c, b.v, side, rungs, each);
    var w := r.vault;
    PlacementsFrame(b.v.placements, w.placements, subs);
    PlacementsAppend(w.placements, subs, r.subs);
    var plan := PlacementPlan(side, rungs, each);
    assert w.placements[b.v.nextReply] == plan;
    forall t: Token
      ensures Gross(w.placements, r.subs, t) == In(t, side, plan.Gross())
    {
      assert Gross(w.placements, r.subs[1..], t) == 0;
    }
    assert RungsAwaiting(w.placements, r.subs) == |rungs|;
  }

  lemma AllocateSideOpens(c: Params, b: Books, subs: seq<ReplyId>, side: Side)
    requires Inv(c, b, subs, Landed) && b.v.pages == map[] && AllocateSide(c, b.v, side).Ok?
    ensures var r := AllocateSide(c, b.v, side).value;
            Inv(c, b.(v := r.vault), subs + r.subs, Landed) && r.vault.pages == map[] && r.paid == Nothing()
  {
    var rungs := SideRungs(c.rungs, side);
    PlacementOpens(c, b, subs, side, rungs, Floor(b.v.free.Get(side.Input()), |rungs|));
  }

  // ---- Opening pages ----

  /** The pages `r` adds to `v`: the next reply ids, and nothing else changed. */
  ghost predicate AddsPages(v: Vault, r: Response)
  {
    r.vault == v.(pages := r.vault.pages, nextReply := v.nextReply + |r.subs|)
    && (forall i :: 0 <= i < |r.subs| ==> r.subs[i] == v.nextReply + i)
    && (forall k :: k in r.vault.pages <==> k in v.pages || v.nextReply <= k < v.nextReply + |r.subs|)
    && (forall k :: k in v.pages ==> k in r.vault.pages && r.vault.pages[k] == v.pages[k])
  }

  lemma {:induction false} AddPagesFacts(v: Vault, kind: PageKind, entries: seq<PageEntry>, limit: nat)
    requires limit > 0 && forall k :: k in v.pages ==> k < v.nextReply
    ensures var r := AddPages(v, kind, entries, limit);
            AddsPages(v, r) && Dues(r.vault.pages, r.subs) == Tagged(kind, entries)
    decreases |entries|
  {
    hide AddsPages, Dues, Tagged;
    if entries == [] {
      EmptyPagesFacts(v, kind);
    } else {
      var n := Min(limit, |entries|);
      var page := PendingPage(kind, entries[..n]);
      var v1 := v.(pages := v.pages[v.nextReply := page], nextReply := v.nextReply + 1);
      AddPagesFacts(v1, kind, entries[n..], limit);
      var rest := AddPages(v1, kind, entries[n..], limit);
      var r := AddPages(v, kind, entries, limit);
      FirstPage(v, v1, rest, r, page);
      TaggedSplit(kind, entries, n);
    }
  }

  lemma EmptyPagesFacts(v: Vault, kind: PageKind)
    ensures AddsPages(v, Response(v, [], Nothing())) && Dues(v.pages, []) == Tagged(kind, [])
  {
  }

  lemma TaggedSplit(kind: PageKind, entries: seq<PageEntry>, n: nat)
    requires n <= |entries|
    ensures Tagged(kind, entries[..n]) + Tagged(kind, entries[n..]) == Tagged(kind, entries)
  {
  }

  lemma FirstPage(v: Vault, v1: Vault, rest: Response, r: Response, page: PendingPage)
    requires v1 == v.(pages := v.pages[v.nextReply := page], nextReply := v.nextReply + 1)
    requires forall k :: k in v.pages ==> k < v.nextReply
    requires AddsPages(v1, rest) && r == Response(rest.vault, [v.nextReply] + rest.subs, Nothing())
    ensures AddsPages(v, r)
    ensures Dues(r.vault.pages, r.subs) == Tagged(page.kind, page.entries) + Dues(r.vault.pages, rest.subs)
  {
    assert r.subs[1..] == rest.subs;
    assert v.nextReply in v1.pages;
  }

  /** Cancel pages first, then claim pages: their dues are the two entry lists, tagged. */
  lemma ConfirmablePagesFacts(v: Vault, cancels: seq<PageEntry>, claims: seq<PageEntry>, limit: nat)
    requires v.pages == map[]
    ensures var r := AddConfirmablePages(v, cancels, claims, limit);
            AddsPages(v, r) && Dues(r.vault.pages, r.subs) == Tagged(Cancel, cancels) + Tagged(Claim, claims)
  {
    var first := AddPages(v, Cancel, cancels, Max(limit, 1));
    AddPagesFacts(v, Cancel, cancels, Max(limit, 1));
    var second := AddPages(first.vault, Claim, claims, Max(limit, 1));
    AddPagesFacts(first.vault, Claim, claims, Max(limit, 1));
    DuesFrame(first.vault.pages, second.vault.pages, first.subs);
    DuesAppend(second.vault.pages, first.subs, second.subs);
  }

  lemma PagesOpen(c: Params, b: Books, cancels: seq<PageEntry>, claims: seq<PageEntry>, limit: nat)
    requires RestInv(c, b)
    requires var dues := Tagged(Cancel, cancels) + Tagged(Claim, claims);
             Distinct(dues) && forall d :: d in dues ==> Tracked(b.v.orders, d) && Payable(b.p, d)
    ensures var r := AddConfirmablePages(b.v, cancels, claims, limit);
            Inv(c, b.(v := r.vault), r.subs, Landed) && r.paid == Nothing()
  {
    RestHasNothingPending(c, b);
    ConfirmablePagesFacts(b.v, cancels, claims, limit);
    AddedPagesOpen(c, b, AddConfirmablePages(b.v, cancels, claims, limit));
  }

  lemma AddedPagesOpen(c: Params, b: Books, r: Response)
    requires RestInv(c, b) && AddsPages(b.v, r)
    requires var dues := Dues(r.vault.pages, r.subs);
             Distinct(dues) && forall d :: d in dues ==> Tracked(b.v.orders, d) && Payable(b.p, d)
    ensures Inv(c, b.(v := r.vault), r.subs, Landed)
  {
    hide Consistent, Distinct, Tracked, Payable, SharesOk;
    RestHasNothingPending(c, b);
    RepliesExtend(b.v.pages, b.v.placements, b.v.nextReply, r.vault.pages, r.vault.placements, [], r.subs);
    assert [] + r.subs == r.subs;
    NoPlacements(r.subs);
  }

  lemma {:induction false} NoPlacements(replies: seq<ReplyId>)
    ensures RungsAwaiting(map[], replies) == 0 && forall t :: Gross(map[], replies, t) == 0
  {
    if replies != [] {
      NoPlacements(replies[1..]);
    }
  }

  // ---- Reconcile ----

  /** The pair's view and the vault's record coincide, or a claim is on its way. */
  ghost predicate SettledBy(orders: map<OrderId, GridOrder>, p: Pair, claims: seq<PageEntry>, id: OrderId)
  {
    id in orders ==>
      (id in p.active && orders[id].remaining == p.active[id].remaining) || id in EntryIds(claims)
  }

  ghost predicate DistinctEntries(entries: seq<PageEntry>)
  {
    forall i, j :: 0 <= i < j < |entries| ==> entries[i].id != entries[j].id
  }

  /** What the scan may have done to the tracked orders so far. */
  ghost predicate TracksOk(
    c: Params, before: map<OrderId, GridOrder>, p: Pair, ids: seq<OrderId>, orders: map<OrderId, GridOrder>)
  {
    (forall id :: id in orders ==> id in before && orders[id].side == before[id].side)
    && (forall id :: id in before && id !in ids ==> id in orders && orders[id] == before[id])
    && Agrees(c, orders, p, {})
  }

  /** Claims are distinct, for scanned orders, and payable. */
  ghost predicate ClaimsOk(p: Pair, ids: seq<OrderId>, orders: map<OrderId, GridOrder>, claims: seq<PageEntry>)
  {
    (forall e :: e in claims ==> e.id in ids && Tracked(orders, Due(Claim, e)) && Payable(p, Due(Claim, e)))
    && DistinctEntries(claims)
  }

  ghost predicate AllSettled(p: Pair, ids: seq<OrderId>, orders: map<OrderId, GridOrder>, claims: seq<PageEntry>)
  {
    forall id :: id in ids ==> SettledBy(orders, p, claims, id)
  }

  ghost predicate ScanOk(c: Params, v: Vault, p: Pair, ids: seq<OrderId>, s: Scan)
  {
    TracksOk(c, v.orders, p, ids, s.orders)
    && ClaimsOk(p, ids, s.orders, s.claims)
    && AllSettled(p, ids, s.orders, s.claims)
    && s.activeOrders == |s.orders|
    && s.cancelledSeen == 0
    && (s.changed == 0 ==> s.orders == v.orders && s.claims == [])
  }

  /** In reach of the invariant the scan fails only on a repeated or untracked id: every tracked order
      validates, no count underflows, and the cancelled branch is never taken. */
  lemma {:induction false} ScanFacts(c: Params, v: Vault, p: Pair, ids: seq<OrderId>)
    requires Consistent(c, v.orders, v.cancelled, p, {}) && v.activeOrders == |v.orders|
    ensures var r := ScanOrders(c, v, p, ids);
            (r.Ok? ==> ScanOk(c, v, p, ids, r.value))
            && (r.Err? ==> r.error == InvalidFillReport || r.error == NotFound)
  {
    if ids != [] {
      var last := |ids| - 1;
      ScanFacts(c, v, p, ids[..last]);
      hide Agrees, ScanOrder, Inspect, ScanOk;
      var earlier := ScanOrders(c, v, p, ids[..last]);
      if earlier.Ok? && ids[last] !in ids[..last] {
        if ids[last] in earlier.value.orders {
          ScanOneFacts(c, v, p, ids[..last], earlier.value, ids[last]);
          assert ids == ids[..last] + [ids[last]];
        } else {
          ScanUntracked(c, v, earlier.value, p, ids[last]);
        }
      }
    }
  }

  lemma ScanUntracked(c: Params, v: Vault, s: Scan, p: Pair, id: OrderId)
    requires id !in s.orders
    ensures ScanOrder(c, v, s, p, id) == Err(NotFound)
  {
  }

  lemma ScanOneFacts(c: Params, v: Vault, p: Pair, ids: seq<OrderId>, s: Scan, id: OrderId)
    requires PairOk(p) && CancelledGone(v.orders, v.cancelled, p) && ScanOk(c, v, p, ids, s) && id !in ids
             && id in s.orders
    ensures var r := ScanOrder(c, v, s, p, id);
            r.Ok? && ScanOk(c, v, p, ids + [id], r.value)
  {
    InspectSucceeds(c, v, p, s.orders, id);
    var seen := Inspect(c, v, s.orders[id], p, id);
    hide PairOk, TracksOk, ClaimsOk, AllSettled, Inspect;
    if !seen.value.terminal {
      ScanUpdates(c, v.orders, p, ids, s.orders, s.claims, id);
    } else if seen.value.parked > 0 {
      ScanClaims(c, v.orders, p, ids, s.orders, s.claims, id);
    } else {
      ScanRetires(c, v.orders, p, ids, s.orders, s.claims, id);
      assert s.activeOrders > 0;
    }
  }

  /** A tracked order is never found cancelled, and what the pair says of it always validates. */
  lemma InspectSucceeds(c: Params, v: Vault, p: Pair, orders: map<OrderId, GridOrder>, id: OrderId)
    requires PairOk(p) && Agrees(c, orders, p, {}) && CancelledGone(v.orders, v.cancelled, p)
    requires id in orders && id in v.orders
    ensures var seen := Inspect(c, v, orders[id], p, id);
            seen.Some? && seen.value.found != Cancelled
            && (seen.value.found == Executed ==> id in p.executed)
            && (!seen.value.terminal ==> id in p.active && seen.value.current == p.active[id].remaining)
            && (seen.value.parked > 0 ==> id in p.parked && seen.value.parked == p.parked[id].remaining)
            && (seen.value.current < orders[id].remaining || seen.value.terminal
                || (id in p.active && p.active[id].remaining == orders[id].remaining))
            && (id in p.active && p.active[id].remaining > 0 ==> !seen.value.terminal)
  {
  }

  lemma ScanUpdates(
    c: Params, before: map<OrderId, GridOrder>, p: Pair, ids: seq<OrderId>, orders: map<OrderId, GridOrder>,
    claims: seq<PageEntry>, id: OrderId)
    requires TracksOk(c, before, p, ids, orders) && ClaimsOk(p, ids, orders, claims)
             && AllSettled(p, ids, orders, claims)
    requires PairOk(p) && id in orders && id !in ids && id in p.active
    ensures var after := orders[id := orders[id].(remaining := p.active[id].remaining)];
            TracksOk(c, before, p, ids + [id], after) && ClaimsOk(p, ids + [id], after, claims)
            && AllSettled(p, ids + [id], after, claims) && |after| == |orders|
  {
    assert orders.Keys == orders[id := orders[id].(remaining := p.active[id].remaining)].Keys;
  }

  lemma ScanClaims(
    c: Params, before: map<OrderId, GridOrder>, p: Pair, ids: seq<OrderId>, orders: map<OrderId, GridOrder>,
    claims: seq<PageEntry>, id: OrderId)
    requires TracksOk(c, before, p, ids, orders) && ClaimsOk(p, ids, orders, claims)
             && AllSettled(p, ids, orders, claims)
    requires id in orders && id !in ids && id in p.parked
    ensures var after := claims + [PageEntry(id, orders[id].side.Input(), p.parked[id].remaining)];
            TracksOk(c, before, p, ids + [id], orders) && ClaimsOk(p, ids + [id], orders, after)
            && AllSettled(p, ids + [id], orders, after)
  {
    var after := claims + [PageEntry(id, orders[id].side.Input(), p.parked[id].remaining)];
    assert after[|claims|].id == id;
    forall other | other in EntryIds(claims) ensures other in EntryIds(after) {
      var i :| 0 <= i < |claims| && claims[i].id == other;
      assert after[i].id == other;
    }
  }

  lemma ScanRetires(
    c: Params, before: map<OrderId, GridOrder>, p: Pair, ids: seq<OrderId>, orders: map<OrderId, GridOrder>,
    claims: seq<PageEntry>, id: OrderId)
    requires TracksOk(c, before, p, ids, orders) && ClaimsOk(p, ids, orders, claims)
             && AllSettled(p, ids, orders, claims)
    requires id in orders && id !in ids
    ensures var after := orders - {id};
            TracksOk(c, before, p, ids + [id], after) && ClaimsOk(p, ids + [id], after, claims)
            && AllSettled(p, ids + [id], after, claims) && |after| == |orders| - 1
  {
    assert (orders - {id}).Keys == orders.Keys - {id};
  }

  lemma ChargeFeeShares(c: Params, v: Vault, credited: Amounts, feeBps: nat)
    requires c.Valid() && SharesOk(c, v.shares, v.total) && ChargeFee(c, v, credited, feeBps).Ok?
    ensures var w := ChargeFee(c, v, credited, feeBps).value;
            w == v.(shares := w.shares, total := w.total) && SharesOk(c, w.shares, w.total)
  {
    var w := ChargeFee(c, v, credited, feeBps).value;
    if w != v {
      var collector := c.collector.value;
      SumOfUpdate(v.shares, collector, Balance(v.shares, collector) + (w.total - v.total));
    }
  }

  lemma ChargeFeeKeeps(c: Params, b: Books, credited: Amounts, feeBps: nat)
    requires c.Valid() && RestInv(c, b) && ChargeFee(c, b.v, credited, feeBps).Ok?
    ensures RestInv(c, b.(v := ChargeFee(c, b.v, credited, feeBps).value))
    ensures ChargeFee(c, b.v, credited, feeBps).value.orders == b.v.orders
  {
    ChargeFeeShares(c, b.v, credited, feeBps);
    hide ChargeFee, Consistent, RepliesOk, DuesOk, FlightOk, Custody, Counted;
    var w := ChargeFee(c, b.v, credited, feeBps).value;
    NewSharesRest(c, b, w.shares, w.total);
  }

  lemma NewSharesRest(c: Params, b: Books, shares: Shares, total: nat)
    requires RestInv(c, b) && SharesOk(c, shares, total)
    ensures RestInv(c, b.(v := b.v.(shares := shares, total := total)))
  {
    RestHasNothingPending(c, b);
    RestFrom(c, b.(v := b.v.(shares := shares, total := total)));
  }

  /** Books after reconcile has synchronised and scanned, before the fee and the claim pages. */
  function Scanned(b: Books, s: Scan): Books
  {
    Books(b.v.(free := b.bal, orders := s.orders, activeOrders := s.activeOrders), b.p, b.bal, Nothing())
  }

  lemma ScannedRests(c: Params, b: Books, ids: seq<OrderId>)
    requires RestInv(c, b) && ScanOrders(c, b.v.(free := b.bal), b.p, ids).Ok?
    ensures var s := ScanOrders(c, b.v.(free := b.bal), b.p, ids).value;
            ScanOk(c, b.v, b.p, ids, s) && RestInv(c, Scanned(b, s))
  {
    RestHasNothingPending(c, b);
    ScanFacts(c, b.v.(free := b.bal), b.p, ids);
    RestFrom(c, Scanned(b, ScanOrders(c, b.v.(free := b.bal), b.p, ids).value));
  }

  lemma ReconcileKeeps(c: Params, b: Books, ids: seq<OrderId>, feeBps: nat, limit: nat)
    requires c.Valid() && RestInv(c, b) && Reconcile(c, b.v, b.p, b.bal, ids, feeBps, limit).Ok?
    ensures var r := Reconcile(c, b.v, b.p, b.bal, ids, feeBps, limit).value;
            Inv(c, Books(r.vault, b.p, b.bal, Nothing()), r.subs, Landed) && r.paid == Nothing()
  {
    ScannedRests(c, b, ids);
    var s := ScanOrders(c, b.v.(free := b.bal), b.p, ids).value;
    ScannedDues(c, b.v, b.p, ids, s);
    hide Consistent, RepliesOk, DuesOk, FlightOk, Custody, Counted, SharesOk, ScanOk, ScanOrders, ChargeFee, Tracked,
      Payable, Distinct;
    var credited := b.bal.Minus(b.v.free);
    ChargeFeeKeeps(c, Scanned(b, s), credited, feeBps);
    var charged := ChargeFee(c, Scanned(b, s).v, credited, feeBps).value;
    PagesOpen(c, Scanned(b, s).(v := charged), [], s.claims, limit);
  }

  lemma ScannedDues(c: Params, v: Vault, p: Pair, ids: seq<OrderId>, s: Scan)
    requires ScanOk(c, v, p, ids, s)
    ensures var dues := Tagged(Cancel, []) + Tagged(Claim, s.claims);
            Distinct(dues) && forall d :: d in dues ==> Tracked(s.orders, d) && Payable(p, d)
  {
  }

  // ---- Recovery and cancellation ----

  lemma RecoverKeeps(c: Params, b: Books, sender: Address, id: OrderId, rung: nat, limit: nat)
    requires RestInv(c, b) && RecoverOrder(c, b.v, b.p, sender, id, rung, limit).Ok?
    ensures var r := RecoverOrder(c, b.v, b.p, sender, id, rung, limit).value;
            Inv(c, b.(v := r.vault), r.subs, Landed) && r.paid == Nothing()
  {
    hide Inv, RestInv, MatchesActive;
    var side, price := c.rungs[rung].side.value, c.rungs[rung].price;
    if id in b.p.active {
      RecoveredRests(c, b, id, GridOrder(rung, side, price, b.p.active[id].remaining));
      RestIsOpen(c, b.(v := Track(b.v, id, GridOrder(rung, side, price, b.p.active[id].remaining))));
    } else {
      var refund := b.p.parked[id].remaining;
      var tracked := b.(v := Track(b.v, id, GridOrder(rung, side, price, refund)));
      RecoveredRests(c, b, id, GridOrder(rung, side, price, refund));
      PagesOpen(c, tracked, [], [PageEntry(id, side.Input(), refund)], limit);
    }
  }

  lemma RecoveredRests(c: Params, b: Books, id: OrderId, o: GridOrder)
    requires RestInv(c, b) && id !in b.v.orders && id !in b.v.cancelled
    requires if id in b.p.active then MatchesActive(c.self, o, b.p.active[id])
             else id in b.p.parked && MatchesParked(c.self, o, b.p.parked[id])
    ensures RestInv(c, b.(v := Track(b.v, id, o)))
  {
    RestHasNothingPending(c, b);
    var tracked := b.v.orders[id := o];
    assert Agrees(c, tracked, b.p, {});
    assert tracked.Keys == b.v.orders.Keys + {id};
    hide Agrees, MatchesActive, MatchesParked, SharesOk, PairOk;
    RestFrom(c, b.(v := Track(b.v, id, o)));
  }

  ghost predicate EntriesOk(v: Vault, p: Pair, listed: seq<OrderId>, cancels: seq<PageEntry>, claims: seq<PageEntry>)
  {
    (forall e :: e in cancels ==> e.id in listed && Tracked(v.orders, Due(Cancel, e)) && Payable(p, Due(Cancel, e)))
    && (forall e :: e in claims ==> e.id in listed && Tracked(v.orders, Due(Claim, e)) && Payable(p, Due(Claim, e)))
    && DistinctEntries(cancels) && DistinctEntries(claims)
    && (forall e, f :: e in cancels && f in claims ==> e.id != f.id)
  }

  lemma {:induction false} CancelEntriesFacts(c: Params, v: Vault, p: Pair, listed: seq<OrderId>, settledOnly: bool)
    requires forall id :: id in listed ==> id in v.orders
    requires forall i, j :: 0 <= i < j < |listed| ==> listed[i] != listed[j]
    requires CancelEntries(c, v, p, listed, settledOnly).Ok?
    ensures var (cancels, claims) := CancelEntries(c, v, p, listed, settledOnly).value;
            EntriesOk(v, p, listed, cancels, claims)
  {
    if listed != [] {
      var last := |listed| - 1;
      CancelEntriesFacts(c, v, p, listed[..last], settledOnly);
      var (cancels, claims) := CancelEntries(c, v, p, listed[..last], settledOnly).value;
      assert listed[last] !in listed[..last];
    }
  }

  lemma CancelsOpen(c: Params, b: Books, listed: seq<OrderId>, settledOnly: bool, limit: nat)
    requires RestInv(c, b)
    requires forall id :: id in listed ==> id in b.v.orders
    requires forall i, j :: 0 <= i < j < |listed| ==> listed[i] != listed[j]
    requires CancelEntries(c, b.v, b.p, listed, settledOnly).Ok?
    ensures var (cancels, claims) := CancelEntries(c, b.v, b.p, listed, settledOnly).value;
            var r := AddConfirmablePages(b.v, cancels, claims, limit);
            Inv(c, b.(v := r.vault), r.subs, Landed) && r.paid == Nothing()
  {
    hide Inv, RestInv, CancelEntries, AddConfirmablePages, Tracked, Payable;
    CancelEntriesFacts(c, b.v, b.p, listed, settledOnly);
    var (cancels, claims) := CancelEntries(c, b.v, b.p, listed, settledOnly).value;
    EntriesMakeDues(b.v, b.p, listed, cancels, claims);
    PagesOpen(c, b, cancels, claims, limit);
  }

  lemma EntriesMakeDues(v: Vault, p: Pair, listed: seq<OrderId>, cancels: seq<PageEntry>, claims: seq<PageEntry>)
    requires EntriesOk(v, p, listed, cancels, claims)
    ensures var dues := Tagged(Cancel, cancels) + Tagged(Claim, claims);
            Distinct(dues) && forall d :: d in dues ==> Tracked(v.orders, d) && Payable(p, d)
  {
    hide Tracked, Payable;
    var dues := Tagged(Cancel, cancels) + Tagged(Claim, claims);
    forall i, j | 0 <= i < j < |dues| ensures dues[i].entry.id != dues[j].entry.id {
      if i < |cancels| <= j {
        assert cancels[i] in cancels && claims[j - |cancels|] in claims;
      }
    }
  }

  /** `execute_cancel_all` collects no claims: it stops at the first order that is not resting. */
  lemma {:induction false} CancelAllHasNoClaims(c: Params, v: Vault, p: Pair, listed: seq<OrderId>)
    requires forall id :: id in listed ==> id in v.orders
    requires CancelEntries(c, v, p, listed, true).Ok?
    ensures CancelEntries(c, v, p, listed, true).value.1 == []
  {
    if listed != [] {
      CancelAllHasNoClaims(c, v, p, listed[..|listed| - 1]);
    }
  }

  // ---- Payouts ----

  lemma PayOutKeeps(c: Params, b: Books, balances: Amounts, credits: Amounts, holder: Address, burned: nat)
    requires RestInv(c, b) && 0 < burned <= b.v.total && burned <= Balance(b.v.shares, holder)
    requires forall t: Token :: b.bal.Get(t) == balances.Get(t) + credits.Get(t)
    ensures var r := PayOut(b.v, balances, holder, burned);
            b.bal.Covers(r.paid) && r.subs == []
            && RestInv(c, Books(r.vault, b.p, b.bal.Minus(r.paid), credits))
  {
    hide Consistent, RepliesOk, DuesOk, FlightOk, Custody, Counted, SharesOk, NavShares.Payout;
    var paid := NavShares.Payout(balances, burned, b.v.total);
    NavShares.PayoutCovered(balances, burned, b.v.total);
    BurnKeepsShares(c, b.v.shares, b.v.total, holder, burned);
    PaidRest(c, b, balances, credits, paid, b.v.shares[holder := Balance(b.v.shares, holder) - burned],
      b.v.total - burned);
  }

  lemma BurnKeepsShares(c: Params, shares: Shares, total: nat, holder: Address, burned: nat)
    requires SharesOk(c, shares, total) && 0 < burned <= total && burned <= Balance(shares, holder)
    ensures SharesOk(c, shares[holder := Balance(shares, holder) - burned], total - burned)
  {
    SumOfUpdate(shares, holder, Balance(shares, holder) - burned);
    assert holder in shares;
  }

  lemma PaidRest(c: Params, b: Books, balances: Amounts, credits: Amounts, paid: Amounts, shares: Shares, total: nat)
    requires RestInv(c, b) && SharesOk(c, shares, total) && balances.Covers(paid)
    requires forall t: Token :: b.bal.Get(t) == balances.Get(t) + credits.Get(t)
    ensures b.bal.Covers(paid)
    ensures RestInv(c, Books(b.v.(free := balances.Minus(paid), total := total, shares := shares), b.p,
            b.bal.Minus(paid), credits))
  {
    assert b.bal.t0 == b.bal.Get(Token0) && b.bal.t1 == b.bal.Get(Token1);
    RestHasNothingPending(c, b);
    RestFrom(c, Books(b.v.(free := balances.Minus(paid), total := total, shares := shares), b.p, b.bal.Minus(paid),
      credits));
  }

  // ---- The handler step ----

  lemma ReceiveKeeps(c: Params, b: Books, sender: Address, token: Token, amount: nat)
    requires c.Valid() && RestInv(c, b)
    requires Receive(c, b.v, b.bal.Get(token) + amount, sender, token, amount).Ok?
    ensures var r := Receive(c, b.v, b.bal.Get(token) + amount, sender, token, amount).value;
            Inv(c, Books(r.vault, b.p, b.bal.Plus(Just(token, amount)), b.credits), r.subs, Landed)
              && r.paid == Nothing()
  {
    hide Inv, RestInv, DepositShares, AllocateSide;
    var minted := DepositShares(amount, token, c.referencePrice).value;
    BalanceAtRest(c, b, token);
    ReceivedRests(c, b, sender, token, amount, minted);
    var b1 := Received(b, sender, token, amount, minted);
    RestIsOpen(c, b1);
    var side := if token == Token0 then Ask else Bid;
    AllocateSideOpens(c, b1, [], side);
    assert [] + AllocateSide(c, b1.v, side).value.subs == AllocateSide(c, b1.v, side).value.subs;
  }

  lemma BalanceAtRest(c: Params, b: Books, token: Token)
    requires RestInv(c, b)
    ensures b.bal.Get(token) == b.v.free.Get(token) + b.credits.Get(token)
  {
    RestHasNothingPending(c, b);
  }

  lemma RestIsOpen(c: Params, b: Books)
    requires RestInv(c, b)
    ensures Inv(c, b, [], Landed) && b.v.pages == map[]
  {
    RestHasNothingPending(c, b);
    hide Inv;
  }

  /** Books with the deposit credited, before its side is allocated. */
  function Received(b: Books, sender: Address, token: Token, amount: nat, minted: nat): Books
  {
    Books(b.v.(free := b.v.free.Put(token, b.bal.Get(token) + amount), total := b.v.total + minted,
               shares := Credit(b.v.shares, sender, minted)),
          b.p, b.bal.Plus(Just(token, amount)), b.credits)
  }

  lemma ReceivedRests(c: Params, b: Books, sender: Address, token: Token, amount: nat, minted: nat)
    requires RestInv(c, b) && sender == c.owner && b.bal.Get(token) == b.v.free.Get(token)
    ensures RestInv(c, Received(b, sender, token, amount, minted))
  {
    hide RepliesOk, DuesOk, FlightOk, Custody, Counted, SharesOk, Consistent, Credit;
    CreditKeepsShares(c, b.v.shares, b.v.total, sender, minted);
    RestHasNothingPending(c, b);
    RestFrom(c, Received(b, sender, token, amount, minted));
  }

  lemma CreditKeepsShares(c: Params, shares: Shares, total: nat, holder: Address, minted: nat)
    requires SharesOk(c, shares, total) && (holder == c.owner || c.collector == Some(holder))
    ensures SharesOk(c, Credit(shares, holder, minted), total + minted)
  {
    SumOfUpdate(shares, holder, Balance(shares, holder) + minted);
  }

  lemma AllocateKeeps(c: Params, b: Books, sender: Address)
    requires RestInv(c, b) && Allocate(c, b.v, sender).Ok?
    ensures var r := Allocate(c, b.v, sender).value;
            Inv(c, b.(v := r.vault), r.subs, Landed) && r.paid == Nothing()
  {
    RestHasNothingPending(c, b);
    AllocateSideOpens(c, b, [], Bid);
    var bids := AllocateSide(c, b.v, Bid).value;
    assert [] + bids.subs == bids.subs;
    AllocateSideOpens(c, b.(v := bids.vault), bids.subs, Ask);
  }

  /** A call that succeeds can pay what it transfers and leaves the invariant with its submessages queued. */
  ghost predicate Opens(c: Params, b: Books, call: Call)
    requires c.Valid()
  {
    Handle(c, b, call).Ok? ==>
      var r := Handle(c, b, call).value;
      b.bal.Plus(Brought(call)).Covers(r.paid) && Inv(c, AfterHandler(b, call, r), r.subs, Landed)
  }

  /** Carries a handler lemma over to the call it is about. */
  lemma OpensFrom(c: Params, b: Books, call: Call, r: Response)
    requires c.Valid() && Handle(c, b, call) == Ok(r) && r.paid == Nothing()
    requires var credits := if Synchronises(call) then Nothing() else b.credits;
             Inv(c, Books(r.vault, b.p, b.bal.Plus(Brought(call)), credits), r.subs, Landed)
    ensures Opens(c, b, call)
  {
    hide Handle, Consistent, RepliesOk, DuesOk, FlightOk, Custody, Counted, SharesOk;
    assert b.bal.Plus(Brought(call)).Minus(Nothing()) == b.bal.Plus(Brought(call));
  }

  lemma FailedCallOpens(c: Params, b: Books, call: Call)
    requires c.Valid() && Handle(c, b, call).Err?
    ensures Opens(c, b, call)
  {
    hide Handle, Inv;
  }

  lemma CancelAllOpens(c: Params, b: Books, sender: Address, limit: nat)
    requires c.Valid() && RestInv(c, b) && CancelAll(c, b.v, b.p, sender, limit).Ok?
    ensures Opens(c, b, CallCancelAll(sender, limit))
  {
    hide Inv, RestInv, CancelEntries, AddConfirmablePages, Opens, FirstTracked;
    var listed := FirstTracked(b.v, c.maxPerReconcile);
    var r := CancelAll(c, b.v, b.p, sender, limit).value;
    CancelsOpen(c, b, listed, true, limit);
    CancelAllHasNoClaims(c, b.v, b.p, listed);
    NothingBrought(b.bal);
    OpensFrom(c, b, CallCancelAll(sender, limit), r);
  }

  lemma EmergencyCancelOpens(c: Params, b: Books, sender: Address, limit: nat)
    requires c.Valid() && RestInv(c, b) && EmergencyCancel(c, b.v, b.p, sender, limit).Ok?
    ensures Opens(c, b, CallEmergencyCancel(sender, limit))
  {
    hide Inv, RestInv, CancelEntries, AddConfirmablePages, Opens, FirstTracked;
    var listed := FirstTracked(b.v, c.maxPerReconcile);
    var r := EmergencyCancel(c, b.v, b.p, sender, limit).value;
    CancelsOpen(c, b, listed, false, limit);
    NothingBrought(b.bal);
    OpensFrom(c, b, CallEmergencyCancel(sender, limit), r);
  }

  lemma NothingBrought(bal: Amounts)
    ensures bal.Plus(Nothing()) == bal && bal.Minus(Nothing()) == bal
  {
  }

  lemma ReceiveOpens(c: Params, b: Books, sender: Address, token: Token, amount: nat)
    requires c.Valid() && RestInv(c, b) && Receive(c, b.v, b.bal.Get(token) + amount, sender, token, amount).Ok?
    ensures Opens(c, b, CallReceive(sender, token, amount))
  {
    hide Inv, RestInv, Receive, Opens;
    ReceiveKeeps(c, b, sender, token, amount);
    OpensFrom(c, b, CallReceive(sender, token, amount),
      Receive(c, b.v, b.bal.Get(token) + amount, sender, token, amount).value);
  }

  lemma AllocateOpens(c: Params, b: Books, sender: Address)
    requires c.Valid() && RestInv(c, b) && Allocate(c, b.v, sender).Ok?
    ensures Opens(c, b, CallAllocate(sender))
  {
    hide Inv, RestInv, Allocate, Opens;
    AllocateKeeps(c, b, sender);
    NothingBrought(b.bal);
    OpensFrom(c, b, CallAllocate(sender), Allocate(c, b.v, sender).value);
  }

  lemma ReconcileOpens(c: Params, b: Books, ids: seq<OrderId>, feeBps: nat, limit: nat)
    requires c.Valid() && RestInv(c, b) && Reconcile(c, b.v, b.p, b.bal, ids, feeBps, limit).Ok?
    ensures Opens(c, b, CallReconcile(ids, feeBps, limit))
  {
    hide Inv, RestInv, Reconcile, Opens;
    ReconcileKeeps(c, b, ids, feeBps, limit);
    NothingBrought(b.bal);
    OpensFrom(c, b, CallReconcile(ids, feeBps, limit), Reconcile(c, b.v, b.p, b.bal, ids, feeBps, limit).value);
  }

  lemma RecoverOpens(c: Params, b: Books, sender: Address, id: OrderId, rung: nat, limit: nat)
    requires c.Valid() && RestInv(c, b) && RecoverOrder(c, b.v, b.p, sender, id, rung, limit).Ok?
    ensures Opens(c, b, CallRecover(sender, id, rung, limit))
  {
    hide Inv, RestInv, RecoverOrder, Opens;
    RecoverKeeps(c, b, sender, id, rung, limit);
    NothingBrought(b.bal);
    OpensFrom(c, b, CallRecover(sender, id, rung, limit), RecoverOrder(c, b.v, b.p, sender, id, rung, limit).value);
  }

  lemma WithdrawOpens(c: Params, b: Books, sender: Address, burned: nat)
    requires c.Valid() && RestInv(c, b) && Withdraw(c, b.v, sender, burned).Ok?
    ensures Opens(c, b, CallWithdraw(sender, burned))
  {
    RestHasNothingPending(c, b);
    hide Inv, RestInv, PayOut;
    PayOutKeeps(c, b, b.v.free, b.credits, sender, burned);
    NothingBrought(b.bal);
  }

  lemma RedeemOpens(c: Params, b: Books, sender: Address)
    requires c.Valid() && RestInv(c, b) && RedeemShares(c, b.v, sender).Ok?
    ensures Opens(c, b, CallRedeem(sender))
  {
    RestHasNothingPending(c, b);
    hide Inv, RestInv, PayOut;
    PayOutKeeps(c, b, b.v.free, b.credits, sender, Balance(b.v.shares, sender));
    NothingBrought(b.bal);
  }

  lemma EmergencyWithdrawOpens(c: Params, b: Books, sender: Address)
    requires c.Valid() && RestInv(c, b) && EmergencyWithdraw(c, b.v, b.bal, sender).Ok?
    ensures Opens(c, b, CallEmergencyWithdraw(sender))
  {
    RestHasNothingPending(c, b);
    var burned := Balance(b.v.shares, c.owner);
    PayOutTouchesFundsOnly(b.v, b.bal, c.owner, burned);
    PayOutKeeps(c, b, b.bal, Nothing(), c.owner, burned);
    var r := PayOut(b.v, b.bal, c.owner, burned);
    hide Inv, RestInv, PayOut;
    NothingBrought(b.bal);
    assert r.vault.(activeOrders := 0) == r.vault;
    assert r.(vault := r.vault.(activeOrders := 0)) == r;
  }

  lemma PayOutTouchesFundsOnly(v: Vault, balances: Amounts, holder: Address, burned: nat)
    requires 0 < burned <= v.total && burned <= Balance(v.shares, holder)
    ensures var w := PayOut(v, balances, holder, burned).vault;
            w.activeOrders == v.activeOrders && w.orders == v.orders && w.placements == v.placements
              && w.pages == v.pages
  {
  }

  lemma SyncOpens(c: Params, b: Books, sender: Address)
    requires c.Valid() && RestInv(c, b) && SyncBalances(c, b.v, b.bal, sender).Ok?
    ensures Opens(c, b, CallSync(sender))
  {
    var synced := Books(b.v.(free := b.bal), b.p, b.bal, Nothing());
    RestHasNothingPending(c, b);
    RestFrom(c, synced);
    NothingBrought(b.bal);
    hide Inv, Opens;
    OpensFrom(c, b, CallSync(sender), Response(synced.v, [], Nothing()));
  }

  lemma SetModeOpens(c: Params, b: Books, sender: Address, mode: Mode)
    requires c.Valid() && RestInv(c, b) && SetMode(c, b.v, sender, mode).Ok?
    ensures Opens(c, b, CallSetMode(sender, mode))
  {
    var moved := b.(v := b.v.(mode := mode));
    RestHasNothingPending(c, b);
    RestFrom(c, moved);
    NothingBrought(b.bal);
    hide Inv, Opens;
    OpensFrom(c, b, CallSetMode(sender, mode), Response(moved.v, [], Nothing()));
  }

  lemma HandlerKeeps(c: Params, b: Books, call: Call)
    requires c.Valid() && RestInv(c, b)
    ensures Opens(c, b, call)
  {
    if Handle(c, b, call).Ok? {
      hide Opens, RestInv, Receive, Allocate, Reconcile, SyncBalances, RecoverOrder, CancelAll, EmergencyCancel,
        Withdraw,
           RedeemShares, EmergencyWithdraw, SetMode;
      match call
      case CallReceive(sender, token, amount) => ReceiveOpens(c, b, sender, token, amount);
      case CallAllocate(sender) => AllocateOpens(c, b, sender);
      case CallReconcile(ids, feeBps, limit) => ReconcileOpens(c, b, ids, feeBps, limit);
      case CallSync(sender) => SyncOpens(c, b, sender);
      case CallRecover(sender, id, rung, limit) => RecoverOpens(c, b, sender, id, rung, limit);
      case CallCancelAll(sender, limit) => CancelAllOpens(c, b, sender, limit);
      case CallEmergencyCancel(sender, limit) => EmergencyCancelOpens(c, b, sender, limit);
      case CallWithdraw(sender, burned) => WithdrawOpens(c, b, sender, burned);
      case CallRedeem(sender) => RedeemOpens(c, b, sender);
      case CallEmergencyWithdraw(sender) => EmergencyWithdrawOpens(c, b, sender);
      case CallSetMode(sender, mode) => SetModeOpens(c, b, sender, mode);
    } else {
      hide Opens;
      FailedCallOpens(c, b, call);
    }
  }
}
