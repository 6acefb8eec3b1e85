/** Cancel and claim pages run to the end: with no pair step in between, every page a handler queues
    succeeds, so reconcile, cancellation and emergency cancellation achieve what they announce. */
module LimitPages {
  import opened LimitGrid
  import opened LimitChain
  import opened LimitInvariant
  import opened LimitSteps

  /** The pair does its part. */
  function Obliged(): Event { RunSub(Succeeds([], 0)) }

  /** Runs the queued submessages and their replies, one after the other. */
  function Drain(c: Params, w: World): World
    requires c.Valid() && w.flight == Landed
    decreases |w.queue|
  {
    if w.queue == [] then w else Drain(c, Step(c, Step(c, w, Obliged()), Deliver))
  }

  function DueIds(dues: seq<Due>): (ids: set<OrderId>)
    ensures forall id :: id in ids <==> exists i :: 0 <= i < |dues| && dues[i].entry.id == id
  {
    set i | 0 <= i < |dues| :: dues[i].entry.id
  }

  lemma DueIdsOfFirst(entries: seq<PageEntry>, kind: PageKind, rest: seq<Due>)
    ensures DueIds(Tagged(kind, entries) + rest) == EntryIds(entries) + DueIds(rest)
  {
    var all := Tagged(kind, entries) + rest;
    forall id ensures id in DueIds(all) <==> id in EntryIds(entries) + DueIds(rest) {
      if id in DueIds(all) {
        var i :| 0 <= i < |all| && all[i].entry.id == id;
        if i < |entries| {
          assert entries[i].id == id;
        } else {
          assert rest[i - |entries|].entry.id == id;
        }
      }
      if id in EntryIds(entries) {
        var i :| 0 <= i < |entries| && entries[i].id == id;
        assert all[i].entry.id == id;
      }
      if id in DueIds(rest) {
        var i :| 0 <= i < |rest| && rest[i].entry.id == id;
        assert all[|entries| + i].entry.id == id;
      }
    }
  }

  /** Orders and pair without the given ids, everything else as it was. */
  ghost predicate Removes(b: Books, after: Books, ids: set<OrderId>)
  {
    after.v.orders == b.v.orders - ids
    && after.p == b.p.(active := b.p.active - ids, parked := b.p.parked - ids)
    && after.credits == b.credits
    && after.v.mode == b.v.mode && after.v.shares == b.v.shares && after.v.total == b.v.total
  }

  lemma RemovesNothing(b: Books)
    ensures Removes(b, b, {})
  {
    assert b.v.orders - {} == b.v.orders && b.p.active - {} == b.p.active && b.p.parked - {} == b.p.parked;
  }

  lemma RemovesBoth(b: Books, mid: Books, after: Books, first: set<OrderId>, rest: set<OrderId>)
    requires Removes(b, mid, first) && Removes(mid, after, rest)
    ensures Removes(b, after, first + rest)
  {
    assert b.v.orders - first - rest == b.v.orders - (first + rest);
    assert b.p.active - first - rest == b.p.active - (first + rest);
    assert b.p.parked - first - rest == b.p.parked - (first + rest);
  }

  /** A page in the queue finds every order it names, owned by the vault. */
  lemma PageExecutable(c: Params, b: Books, queue: seq<ReplyId>)
    requires Inv(c, b, queue, Landed) && queue != [] && queue[0] in b.v.pages
    ensures Execute(c, b, queue[0], Succeeds([], 0)).1 == PageDone
    ensures var page := b.v.pages[queue[0]];
            if page.kind == Cancel then EntryIds(page.entries) <= b.p.active.Keys
              && EntryIds(page.entries) !! b.p.parked.Keys
            else EntryIds(page.entries) <= b.p.parked.Keys && EntryIds(page.entries) !! b.p.active.Keys
  {
    QueuedParts(c, b, queue);
    hide Inv, RepliesOk, Custody, Counted, SharesOk, Distinct, FlightOk;
    var page := b.v.pages[queue[0]];
    DuesOfFirst(b.v.pages, b.v.orders, b.p, queue);
    forall id | id in EntryIds(page.entries)
      ensures if page.kind == Cancel then id in b.p.active && b.p.active[id].owner == c.self
              else id in b.p.parked && b.p.parked[id].owner == c.self
    {
      var i :| 0 <= i < |page.entries| && page.entries[i].id == id;
      assert page.entries[i] in page.entries;
    }
  }

  /** The books when the first page has run and its reply has been delivered. */
  lemma PageSettles(c: Params, w: World)
    requires c.Valid() && WorldInv(c, w) && w.flight == Landed && w.queue != [] && w.queue[0] in w.now.v.pages
    ensures var after := Step(c, Step(c, w, Obliged()), Deliver);
            var page := w.now.v.pages[w.queue[0]];
            WorldInv(c, after) && after.queue == w.queue[1..] && after.flight == Landed && after.saved == w.saved
            && Removes(w.now, after.now, EntryIds(page.entries))
            && after.now.v.pages == w.now.v.pages - {w.queue[0]}
            && after.now.v.free == ConfirmEntries(w.now.v, page.kind, page.entries).free
            && after.now.v.orders == ConfirmEntries(w.now.v, page.kind, page.entries).orders
  {
    hide Inv, RestInv, Execute, Reply, EntryIds, Removes;
    var run := Step(c, w, Obliged());
    var page := w.now.v.pages[w.queue[0]];
    PageExecutable(c, w.now, w.queue);
    StepKeeps(c, w, Obliged());
    assert run.flight == Awaiting(w.queue[0], PageDone);
    PageExecutes(c, w.now, w.queue, Succeeds([], 0));
    assert run.now.v == w.now.v;
    StepKeeps(c, run, Deliver);
    PageInFlightFacts(c, run.now, run.queue, run.flight);
    ConfirmEntriesFacts(w.now.v, page.kind, page.entries);
    ReplySettlesPage(c, w.now.v, run.now.p, w.queue[0]);
    SettledRemoves(w.now, run.now, page, w.queue[0]);
  }

  lemma SettledRemoves(b: Books, run: Books, page: PendingPage, reply: ReplyId)
    requires run.v == b.v && run.credits == b.credits && |page.entries| <= b.v.activeOrders
    requires run.p == WithoutIds(b.p, page.kind, EntryIds(page.entries))
    requires if page.kind == Cancel then EntryIds(page.entries) !! b.p.parked.Keys
             else EntryIds(page.entries) !! b.p.active.Keys
    requires Confirms(b.v, ConfirmEntries(b.v, page.kind, page.entries), page.kind, page.entries)
    ensures Removes(b, run.(v := Settled(b.v, ConfirmEntries(b.v, page.kind, page.entries), |page.entries|, reply)),
            EntryIds(page.entries))
  {
    hide EntryIds, ConfirmEntries;
    var ids := EntryIds(page.entries);
    if page.kind == Cancel {
      assert b.p.parked - ids == b.p.parked;
    } else {
      assert b.p.active - ids == b.p.active;
    }
  }

  /** Every queued page succeeds: the orders they name leave vault and pair, and nothing else does. */
  lemma {:induction false} PagesSucceed(c: Params, w: World)
    requires c.Valid() && WorldInv(c, w) && w.flight == Landed && forall r :: r in w.queue ==> r in w.now.v.pages
    ensures var after := Drain(c, w);
            after.AtRest() && WorldInv(c, after) && after.saved == w.saved
            && Removes(w.now, after.now, DueIds(Dues(w.now.v.pages, w.queue)))
    decreases |w.queue|
  {
    hide WorldInv, Inv, Removes, Step, EntryIds;
    if w.queue == [] {
      assert DueIds(Dues(w.now.v.pages, [])) == {};
      RemovesNothing(w.now);
    } else {
      var mid := Step(c, Step(c, w, Obliged()), Deliver);
      var page := w.now.v.pages[w.queue[0]];
      PageSettles(c, w);
      QueueDistinct(c, w);
      PagesSucceed(c, mid);
      DuesFrame(w.now.v.pages, mid.now.v.pages, mid.queue);
      DueIdsOfFirst(page.entries, page.kind, Dues(w.now.v.pages, mid.queue));
      RemovesBoth(w.now, mid.now, Drain(c, mid).now, EntryIds(page.entries), DueIds(Dues(w.now.v.pages, mid.queue)));
    }
  }

  lemma QueueDistinct(c: Params, w: World)
    requires WorldInv(c, w) && w.flight == Landed && w.queue != []
    ensures forall r :: r in w.queue[1..] ==> r != w.queue[0]
  {
    hide Consistent, DuesOk, FlightOk, Custody, Counted, SharesOk, RestInv;
    FirstIsPending(w.now.v.pages, w.now.v.placements, w.now.v.nextReply, w.queue);
  }
}
