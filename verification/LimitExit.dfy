/** Leaving the limit-grid vault: who gets what in which order, when emergency cancellation can finish,
    and the one case in which it never does. */
module LimitExit {
  import opened Arithmetic
  import opened Tokens
  import opened Ledger
  import opened LimitGrid
  import opened LimitChain
  import opened LimitInvariant
  import opened LimitSteps
  import opened LimitTheorems
  import opened LimitPages
  import NavShares

  // ---- The last payouts ----

  /** What the collector holds beside the owner. */
  function CollectorPart(c: Params, shares: Shares): nat
  {
    if c.collector.Some? && c.collector.value != c.owner then Balance(shares, c.collector.value) else 0
  }

  /** Owner and collector hold everything between them. */
  lemma HoldersTotal(c: Params, shares: Shares, total: nat)
    requires SharesOk(c, shares, total)
    ensures total == Balance(shares, c.owner) + CollectorPart(c, shares)
  {
    var rest := shares - {c.owner};
    if c.owner in shares {
      SumWithout(shares, c.owner);
    } else {
      assert rest == shares;
    }
    if c.collector.Some? && c.collector.value in rest {
      SumWithout(rest, c.collector.value);
      assert rest - {c.collector.value} == map[];
    } else {
      assert rest == map[];
    }
  }

  /** The vault is empty: nothing held, nothing owed. */
  ghost predicate PaidOut(w: World)
  {
    w.AtRest() && w.now.bal == Nothing() && w.now.v.free == Nothing() && w.now.v.total == 0
  }

  ghost predicate ReadyToLeave(c: Params, b: Books, collector: Address)
  {
    b.v.mode == Exit && b.v.orders == map[] && c.collector == Some(collector) && collector != c.owner
    && Balance(b.v.shares, c.owner) > 0 && Balance(b.v.shares, collector) > 0
  }

  /** Books after an emergency withdrawal paid the owner. */
  lemma OwnerLeaves(c: Params, w: World)
    requires c.Valid() && WorldInv(c, w) && w.AtRest() && w.now.v.mode == Exit && w.now.v.orders == map[]
    requires Balance(w.now.v.shares, c.owner) > 0
    ensures 0 < w.now.v.total && Balance(w.now.v.shares, c.owner) <= w.now.v.total
    ensures var after := Step(c, w, Start(CallEmergencyWithdraw(c.owner)));
            var burned := Balance(w.now.v.shares, c.owner);
            var paid := NavShares.Payout(w.now.bal, burned, w.now.v.total);
            w.now.bal.Covers(paid) && after.AtRest()
            && after.now.bal == w.now.bal.Minus(paid) && after.now.v.free == after.now.bal
            && after.now.v.total == w.now.v.total - burned && after.now.v.mode == Exit && after.now.v.orders == map[]
            && after.now.v.shares == w.now.v.shares[c.owner := 0]
  {
    hide Inv, RestInv, NavShares.Payout;
    RestOfWorld(c, w);
    RestParts(c, w.now);
    var burned := Balance(w.now.v.shares, c.owner);
    BalanceWithinSum(w.now.v.shares, c.owner);
    NavShares.PayoutCovered(w.now.bal, burned, w.now.v.total);
    NothingBrought(w.now.bal);
  }

  lemma CollectorLeaves(c: Params, w: World, collector: Address)
    requires c.Valid() && WorldInv(c, w) && w.AtRest() && w.now.v.orders == map[]
    requires c.collector == Some(collector) && Balance(w.now.v.shares, collector) > 0
    ensures 0 < w.now.v.total && Balance(w.now.v.shares, collector) <= w.now.v.total
    ensures var after := Step(c, w, Start(CallRedeem(collector)));
            var burned := Balance(w.now.v.shares, collector);
            var paid := NavShares.Payout(w.now.v.free, burned, w.now.v.total);
            w.now.bal.Covers(paid) && w.now.v.free.Covers(paid) && after.AtRest()
            && after.now.bal == w.now.bal.Minus(paid) && after.now.v.free == w.now.v.free.Minus(paid)
            && after.now.v.total == w.now.v.total - burned && after.now.v.mode == w.now.v.mode
               && after.now.v.orders == map[]
            && after.now.v.shares == w.now.v.shares[collector := 0]
  {
    hide Inv, RestInv, NavShares.Payout;
    RestOfWorld(c, w);
    RestParts(c, w.now);
    var burned := Balance(w.now.v.shares, collector);
    BalanceWithinSum(w.now.v.shares, collector);
    NavShares.PayoutCovered(w.now.v.free, burned, w.now.v.total);
    assert w.now.bal.t0 == w.now.bal.Get(Token0) && w.now.bal.t1 == w.now.bal.Get(Token1);
    NothingBrought(w.now.bal);
  }

  /** Owner first, collector second, or the other way round: with no orders left both tokens are paid out
      to the last unit, whatever was never synchronised included. */
  lemma LeavingPaysEverything(c: Params, w: World, collector: Address)
    requires c.Valid() && WorldInv(c, w) && w.AtRest() && ReadyToLeave(c, w.now, collector)
    ensures PaidOut(Step(c, Step(c, w, Start(CallEmergencyWithdraw(c.owner))), Start(CallRedeem(collector))))
    ensures PaidOut(Step(c, Step(c, w, Start(CallRedeem(collector))), Start(CallEmergencyWithdraw(c.owner))))
  {
    hide Inv, WorldInv, RestInv, Step, NavShares.Payout;
    RestOfWorld(c, w);
    RestParts(c, w.now);
    HoldersTotal(c, w.now.v.shares, w.now.v.total);
    OwnerThenCollector(c, w, collector);
    CollectorThenOwner(c, w, collector);
  }

  lemma OwnerThenCollector(c: Params, w: World, collector: Address)
    requires c.Valid() && WorldInv(c, w) && w.AtRest() && ReadyToLeave(c, w.now, collector)
    requires w.now.v.total == Balance(w.now.v.shares, c.owner) + Balance(w.now.v.shares, collector)
    ensures PaidOut(Step(c, Step(c, w, Start(CallEmergencyWithdraw(c.owner))), Start(CallRedeem(collector))))
  {
    hide Inv, WorldInv, RestInv, Step, NavShares.Payout;
    var mid := Step(c, w, Start(CallEmergencyWithdraw(c.owner)));
    OwnerLeaves(c, w);
    StepKeeps(c, w, Start(CallEmergencyWithdraw(c.owner)));
    CollectorLeaves(c, mid, collector);
    NavShares.PayoutCovered(mid.now.v.free, mid.now.v.total, mid.now.v.total);
  }

  lemma CollectorThenOwner(c: Params, w: World, collector: Address)
    requires c.Valid() && WorldInv(c, w) && w.AtRest() && ReadyToLeave(c, w.now, collector)
    requires w.now.v.total == Balance(w.now.v.shares, c.owner) + Balance(w.now.v.shares, collector)
    ensures PaidOut(Step(c, Step(c, w, Start(CallRedeem(collector))), Start(CallEmergencyWithdraw(c.owner))))
  {
    hide Inv, WorldInv, RestInv, Step, NavShares.Payout;
    var mid := Step(c, w, Start(CallRedeem(collector)));
    CollectorLeaves(c, w, collector);
    StepKeeps(c, w, Start(CallRedeem(collector)));
    OwnerLeaves(c, mid);
    NavShares.PayoutCovered(mid.now.bal, mid.now.v.total, mid.now.v.total);
  }

  /** The owner's emergency withdrawal, and the collector's redemption if it holds anything. An owner
      without shares synchronises instead, so that the collector is paid what was never synchronised too. */
  function LeavingCalls(c: Params, v: Vault): seq<Call>
  {
    if Balance(v.shares, c.owner) == 0 && c.collector.Some? then [CallSync(c.owner), CallRedeem(c.collector.value)]
    else if CollectorPart(c, v.shares) == 0 then [CallEmergencyWithdraw(c.owner)]
    else [CallEmergencyWithdraw(c.owner), CallRedeem(c.collector.value)]
  }

  function RunCalls(c: Params, w: World, calls: seq<Call>): World
    requires c.Valid()
    decreases |calls|
  {
    if calls == [] then w else RunCalls(c, Step(c, w, Start(calls[0])), calls[1..])
  }

  lemma RunOneOrTwo(c: Params, w: World, first: Call, second: Call)
    requires c.Valid()
    ensures RunCalls(c, w, [first]) == Step(c, w, Start(first))
    ensures RunCalls(c, w, [first, second]) == Step(c, Step(c, w, Start(first)), Start(second))
  {
    hide Step;
    assert [first, second][1..] == [second] && [second][1..] == [] && [first][1..] == [];
    assert RunCalls(c, Step(c, Step(c, w, Start(first)), Start(second)), [])
      == Step(c, Step(c, w, Start(first)), Start(second));
    assert RunCalls(c, Step(c, w, Start(first)), []) == Step(c, w, Start(first));
  }

  /** Whoever holds the shares, as long as there are any: with no orders left in exit mode at most two calls
      empty the vault to the last unit. */
  lemma LeavingEmptiesVault(c: Params, w: World)
    requires c.Valid() && WorldInv(c, w) && w.AtRest() && w.now.v.mode == Exit && w.now.v.orders == map[]
    requires w.now.v.total > 0
    ensures PaidOut(RunCalls(c, w, LeavingCalls(c, w.now.v)))
  {
    hide Inv, WorldInv, RestInv, Step, NavShares.Payout, RunCalls, PaidOut;
    RestOfWorld(c, w);
    RestParts(c, w.now);
    HoldersTotal(c, w.now.v.shares, w.now.v.total);
    if Balance(w.now.v.shares, c.owner) == 0 {
      RunOneOrTwo(c, w, CallSync(c.owner), CallRedeem(c.collector.value));
      CollectorAlone(c, w, c.collector.value);
    } else if CollectorPart(c, w.now.v.shares) == 0 {
      RunOneOrTwo(c, w, CallEmergencyWithdraw(c.owner), CallEmergencyWithdraw(c.owner));
      OwnerAlone(c, w);
    } else {
      RunOneOrTwo(c, w, CallEmergencyWithdraw(c.owner), CallRedeem(c.collector.value));
      OwnerThenCollector(c, w, c.collector.value);
    }
  }

  lemma OwnerAlone(c: Params, w: World)
    requires c.Valid() && WorldInv(c, w) && w.AtRest() && w.now.v.mode == Exit && w.now.v.orders == map[]
    requires 0 < w.now.v.total == Balance(w.now.v.shares, c.owner)
    ensures PaidOut(Step(c, w, Start(CallEmergencyWithdraw(c.owner))))
  {
    hide Inv, WorldInv, RestInv, Step, NavShares.Payout;
    OwnerLeaves(c, w);
    NavShares.PayoutCovered(w.now.bal, w.now.v.total, w.now.v.total);
  }

  lemma CollectorAlone(c: Params, w: World, collector: Address)
    requires c.Valid() && WorldInv(c, w) && w.AtRest() && w.now.v.orders == map[] && c.collector == Some(collector)
    requires 0 < w.now.v.total == Balance(w.now.v.shares, collector)
    ensures PaidOut(Step(c, Step(c, w, Start(CallSync(c.owner))), Start(CallRedeem(collector))))
  {
    hide Inv, WorldInv, RestInv, Step, NavShares.Payout;
    var mid := Step(c, w, Start(CallSync(c.owner)));
    OwnerSyncs(c, w);
    StepKeeps(c, w, Start(CallSync(c.owner)));
    CollectorLeaves(c, mid, collector);
    NavShares.PayoutCovered(mid.now.v.free, mid.now.v.total, mid.now.v.total);
  }

  lemma OwnerSyncs(c: Params, w: World)
    requires c.Valid() && WorldInv(c, w) && w.AtRest()
    ensures var after := Step(c, w, Start(CallSync(c.owner)));
            after.AtRest() && after.now == Books(w.now.v.(free := w.now.bal), w.now.p, w.now.bal, Nothing())
  {
    hide Inv, RestInv;
    RestOfWorld(c, w);
    RestParts(c, w.now);
    assert w.now.bal.t0 == w.now.bal.Get(Token0) && w.now.bal.t1 == w.now.bal.Get(Token1);
    NothingBrought(w.now.bal);
  }

  // ---- Emergency cancellation ----

  lemma EntryAppended(entries: seq<PageEntry>, e: PageEntry)
    ensures EntryIds(entries + [e]) == EntryIds(entries) + {e.id}
  {
    var all := entries + [e];
    forall id ensures id in EntryIds(all) <==> id in EntryIds(entries) + {e.id} {
      if id in EntryIds(entries) {
        var i :| 0 <= i < |entries| && entries[i].id == id;
        assert all[i].id == id;
      }
      assert all[|entries|].id == e.id;
    }
  }

  /** What collecting over `listed` comes to: refused exactly when one of them was executed, else one entry
      for each. */
  ghost predicate CollectsAll(p: Pair, listed: seq<OrderId>, r: Result<(seq<PageEntry>, seq<PageEntry>), Error>)
  {
    (r.Err? <==> exists id :: id in listed && id in p.executed)
    && (r.Err? ==> r.error == OrderStatusUnverifiable)
    && (r.Ok? ==> forall id :: id in listed <==> id in EntryIds(r.value.0) + EntryIds(r.value.1))
  }

  lemma {:induction false} CancelEntriesBlockedIff(c: Params, v: Vault, p: Pair, listed: seq<OrderId>)
    requires Consistent(c, v.orders, v.cancelled, p, {}) && forall id :: id in listed ==> id in v.orders
    ensures CollectsAll(p, listed, CancelEntries(c, v, p, listed, false))
  {
    if listed != [] {
      var last := |listed| - 1;
      var id := listed[last];
      CancelEntriesBlockedIff(c, v, p, listed[..last]);
      var earlier := CancelEntries(c, v, p, listed[..last], false);
      assert id in listed && listed == listed[..last] + [id];
      StatusSettles(c, v, p, id);
      hide Consistent, EntryIds;
      if earlier.Ok? && id !in p.executed {
        var (cancels, claims) := earlier.value;
        if id in p.active {
          EntryAppended(cancels, PageEntry(id, v.orders[id].side.Input(), p.active[id].remaining));
        } else {
          EntryAppended(claims, PageEntry(id, v.orders[id].side.Input(), p.parked[id].remaining));
        }
      }
    }
  }

  lemma StatusSettles(c: Params, v: Vault, p: Pair, id: OrderId)
    requires Consistent(c, v.orders, v.cancelled, p, {}) && id in v.orders
    ensures match StatusOf(p, id)
            case OnBook(o) =>
              id in p.active && o == p.active[id] && MatchesActive(c.self, v.orders[id], o) && id !in p.executed
            case ParkedRefund(r) =>
              id in p.parked && r == p.parked[id] && MatchesParked(c.self, v.orders[id], r) && id !in p.executed
            case Gone => id in p.executed && id !in p.active && id !in p.parked
  {
  }

  /** In exit mode the owner's emergency cancellation is refused exactly when one of the orders it takes up
      was executed. */
  lemma EmergencyCancelBlockedIff(c: Params, p: Pair, events: seq<Event>, limit: nat)
    requires c.Valid() && PairOk(p) && Reached(c, p, events).AtRest() && Reached(c, p, events).now.v.mode == Exit
    ensures var b := Reached(c, p, events).now;
            EmergencyCancel(c, b.v, b.p, c.owner, limit).Err?
            <==> exists id :: id in FirstTracked(b.v, c.maxPerReconcile) && id in b.p.executed
  {
    ReachedInv(c, p, events);
    var b := Reached(c, p, events).now;
    hide Reached, Inv, RestInv, FirstTracked, Consistent, AddConfirmablePages, CancelEntries;
    RestParts(c, b);
    CancelEntriesBlockedIff(c, b.v, b.p, FirstTracked(b.v, c.maxPerReconcile));
  }

  function ToSet(listed: seq<OrderId>): (ids: set<OrderId>)
    ensures forall id :: id in ids <==> id in listed
  {
    set id | id in listed
  }

  /** One emergency cancellation with its pages, no pair step in between. */
  function EmergencyCancelTx(c: Params, w: World, limit: nat): World
    requires c.Valid() && w.AtRest()
  {
    Drain(c, Step(c, w, Start(CallEmergencyCancel(c.owner, limit))))
  }

  lemma SeveralIds(dues: seq<Due>, cancels: seq<PageEntry>, claims: seq<PageEntry>)
    requires dues == Tagged(Cancel, cancels) + Tagged(Claim, claims)
    ensures DueIds(dues) == EntryIds(cancels) + EntryIds(claims)
  {
    DueIdsOfFirst(cancels, Cancel, Tagged(Claim, claims));
    DueIdsOfFirst(claims, Claim, []);
    assert Tagged(Claim, claims) + [] == Tagged(Claim, claims);
  }

  /** With no tracked order executed, one emergency cancellation returns the first batch and leaves the rest
      as it was. */
  lemma EmergencyCancelReturns(c: Params, w: World, limit: nat)
    requires c.Valid() && WorldInv(c, w) && w.AtRest() && w.now.v.mode == Exit
    requires forall id :: id in w.now.v.orders ==> id !in w.now.p.executed
    ensures var after := EmergencyCancelTx(c, w, limit);
            after.AtRest() && WorldInv(c, after)
            && Removes(w.now, after.now, ToSet(FirstTracked(w.now.v, c.maxPerReconcile)))
  {
    hide Inv, RestInv, FirstTracked, CancelEntries, AddConfirmablePages, Consistent, Removes, EntryIds, Drain, StatusOf;
    var b := w.now;
    RestOfWorld(c, w);
    RestParts(c, b);
    var listed := FirstTracked(b.v, c.maxPerReconcile);
    CancelEntriesBlockedIff(c, b.v, b.p, listed);
    var (cancels, claims) := CancelEntries(c, b.v, b.p, listed, false).value;
    var r := AddConfirmablePages(b.v, cancels, claims, limit);
    ConfirmablePagesFacts(b.v, cancels, claims, limit);
    ConfirmablePagesTouch(b.v, cancels, claims, limit);
    NothingBrought(b.bal);
    var mid := Step(c, w, Start(CallEmergencyCancel(c.owner, limit)));
    StepKeeps(c, w, Start(CallEmergencyCancel(c.owner, limit)));
    assert mid == World(b.(v := r.vault), b, r.subs, Landed);
    PagesSucceed(c, mid);
    SeveralIds(Dues(r.vault.pages, r.subs), cancels, claims);
    var gone := ToSet(listed);
    assert EntryIds(cancels) + EntryIds(claims) == gone;
    RemovesOf(b, mid.now, Drain(c, mid).now, gone);
  }

  lemma RemovesOf(b: Books, mid: Books, after: Books, ids: set<OrderId>)
    requires OnlyPages(b.v, mid.v) && mid.p == b.p && mid.credits == b.credits && Removes(mid, after, ids)
    ensures Removes(b, after, ids)
  {
  }

  function EmergencyCancelAll(c: Params, w: World, limit: nat, times: nat): World
    requires c.Valid() && w.AtRest()
    decreases times
  {
    if times == 0 then w
    else
      var after := EmergencyCancelTx(c, w, limit);
      if after.AtRest() then EmergencyCancelAll(c, after, limit, times - 1) else after
  }

  lemma FirstTrackedCount(v: Vault, limit: nat)
    ensures var ids := ToSet(FirstTracked(v, limit));
            ids <= v.orders.Keys && |v.orders - ids| == |v.orders| - Min(limit, |v.orders|)
  {
    AscendingCount(v.orders.Keys);
    var listed := FirstTracked(v, limit);
    assert |listed| == Min(limit, |v.orders|);
    hide FirstTracked, ToSet;
    IdsCount(listed);
    KeysLess(v.orders, ToSet(listed));
  }

  lemma KeysLess(orders: map<OrderId, GridOrder>, ids: set<OrderId>)
    requires ids <= orders.Keys
    ensures |orders - ids| == |orders| - |ids|
  {
    assert (orders - ids).Keys == orders.Keys - ids;
  }

  lemma {:induction false} AscendingCount(ids: set<OrderId>)
    ensures |Ascending(ids)| == |ids|
  {
    if ids != {} {
      AscendingCount(ids - {Least(ids)});
    }
  }

  lemma {:induction false} IdsCount(listed: seq<OrderId>)
    requires forall i, j :: 0 <= i < j < |listed| ==> listed[i] != listed[j]
    ensures |ToSet(listed)| == |listed|
  {
    if listed != [] {
      var last := |listed| - 1;
      IdsCount(listed[..last]);
      assert listed == listed[..last] + [listed[last]];
      assert ToSet(listed) == ToSet(listed[..last]) + {listed[last]};
    }
  }

  /** With no tracked order executed, enough emergency cancellations leave none: the exit completes. */
  lemma {:induction false} EmergencyCancelCompletes(c: Params, w: World, limit: nat, times: nat)
    requires c.Valid() && WorldInv(c, w) && w.AtRest() && w.now.v.mode == Exit
    requires forall id :: id in w.now.v.orders ==> id !in w.now.p.executed
    requires times * c.maxPerReconcile >= |w.now.v.orders|
    ensures var after := EmergencyCancelAll(c, w, limit, times);
            after.AtRest() && WorldInv(c, after) && after.now.v.mode == Exit && after.now.v.orders == map[]
            && after.now.v.shares == w.now.v.shares && after.now.v.total == w.now.v.total
    decreases times
  {
    hide WorldInv, EmergencyCancelTx, FirstTracked, ToSet, Removes;
    if times == 0 {
      assert |w.now.v.orders| == 0;
    } else {
      var mid := EmergencyCancelTx(c, w, limit);
      EmergencyCancelReturns(c, w, limit);
      FirstBatchGone(c, w.now, mid.now);
      FewerBatches(times, c.maxPerReconcile, |w.now.v.orders|);
      EmergencyCancelCompletes(c, mid, limit, times - 1);
    }
  }

  /** From exit mode to an empty vault, whoever holds the shares: emergency cancellations, then the last
      payouts. */
  lemma ExitPaysEverything(c: Params, w: World, limit: nat, times: nat)
    requires c.Valid() && WorldInv(c, w) && w.AtRest() && w.now.v.mode == Exit && w.now.v.total > 0
    requires forall id :: id in w.now.v.orders ==> id !in w.now.p.executed
    requires times * c.maxPerReconcile >= |w.now.v.orders|
    ensures var cleared := EmergencyCancelAll(c, w, limit, times);
            cleared.AtRest() && PaidOut(RunCalls(c, cleared, LeavingCalls(c, w.now.v)))
  {
    hide WorldInv, EmergencyCancelAll, RunCalls, PaidOut;
    EmergencyCancelCompletes(c, w, limit, times);
    LeavingEmptiesVault(c, EmergencyCancelAll(c, w, limit, times));
  }

  lemma FirstBatchGone(c: Params, before: Books, after: Books)
    requires Removes(before, after, ToSet(FirstTracked(before.v, c.maxPerReconcile)))
    requires forall id :: id in before.v.orders ==> id !in before.p.executed
    ensures |after.v.orders| == |before.v.orders| - Min(c.maxPerReconcile, |before.v.orders|)
    ensures forall id :: id in after.v.orders ==> id !in after.p.executed
    ensures after.v.mode == before.v.mode && after.v.shares == before.v.shares && after.v.total == before.v.total
  {
    FirstTrackedCount(before.v, c.maxPerReconcile);
  }

  lemma FewerBatches(times: nat, each: nat, left: nat)
    requires times > 0 && times * each >= left
    ensures (times - 1) * each >= left - Min(each, left)
  {
    assert times * each == (times - 1) * each + each;
    assert (times - 1) * each >= 0;
  }

  // ---- The exit that never completes ----

  /** Exit mode with an executed order still tracked. */
  ghost predicate Stranded(b: Books, id: OrderId)
  {
    b.v.mode == Exit && id in b.v.orders && id in b.p.executed
  }

  ghost predicate StrandedWorld(w: World, id: OrderId)
  {
    Stranded(w.now, id) && Stranded(w.saved, id)
    && id !in DueIds(Dues(w.now.v.pages, Outstanding(w.queue, w.flight)))
  }

  /** In exit mode no handler stops tracking an order or leaves the mode. */
  lemma ExitHandlersKeepOrders(c: Params, b: Books, call: Call, id: OrderId)
    requires c.Valid() && RestInv(c, b) && Stranded(b, id) && Handle(c, b, call).Ok?
    ensures var r := Handle(c, b, call).value;
            r.vault.mode == Exit && id in r.vault.orders && r.paid == Nothing()
  {
    hide Inv, RestInv, CancelEntries, AddConfirmablePages, PayOut, FirstTracked, StatusOf, MatchesActive, Consistent;
    StrandedCounted(c, b, id);
    match call
    case CallRecover(sender, other, rung, limit) =>
      RecoveryKeepsOrders(c, b, sender, other, rung, limit);
    case CallCancelAll(sender, limit) =>
      var entries := CancelEntries(c, b.v, b.p, FirstTracked(b.v, c.maxPerReconcile), true).value;
      ConfirmablePagesTouch(b.v, entries.0, [], limit);
    case CallEmergencyCancel(sender, limit) =>
      var entries := CancelEntries(c, b.v, b.p, FirstTracked(b.v, c.maxPerReconcile), false).value;
      ConfirmablePagesTouch(b.v, entries.0, entries.1, limit);
    case _ =>
  }

  lemma StrandedCounted(c: Params, b: Books, id: OrderId)
    requires RestInv(c, b) && Stranded(b, id)
    ensures b.v.activeOrders > 0
  {
    RestParts(c, b);
    assert b.v.orders.Keys != {};
  }

  lemma RecoveryKeepsOrders(c: Params, b: Books, sender: Address, other: OrderId, rung: nat, limit: nat)
    requires RecoverOrder(c, b.v, b.p, sender, other, rung, limit).Ok?
    ensures var r := RecoverOrder(c, b.v, b.p, sender, other, rung, limit).value;
            r.vault.mode == b.v.mode && r.vault.orders.Keys >= b.v.orders.Keys && r.paid == Nothing()
  {
    hide AddConfirmablePages, MatchesActive;
    var side, price := c.rungs[rung].side.value, c.rungs[rung].price;
    if other !in b.p.active {
      var refund := b.p.parked[other].remaining;
      ConfirmablePagesTouch(Track(b.v, other, GridOrder(rung, side, price, refund)), [],
        [PageEntry(other, side.Input(), refund)], limit);
    }
  }

  /** Orders the pages still to come can name: resting or parked ones, never an executed one. */
  lemma QueuedNeverExecuted(c: Params, b: Books, queue: seq<ReplyId>, id: OrderId)
    requires Inv(c, b, queue, Landed) && id in b.p.executed
    ensures id !in DueIds(Dues(b.v.pages, queue))
  {
    var dues := Dues(b.v.pages, queue);
    hide RepliesOk, FlightOk, Custody, Counted, SharesOk, Agrees, CancelledGone, Distinct;
    forall i | 0 <= i < |dues| ensures dues[i].entry.id != id {
      assert dues[i] in dues && Payable(b.p, dues[i]);
    }
  }

  lemma ReplyKeepsOthers(c: Params, b: Books, queue: seq<ReplyId>, flight: Flight, id: OrderId)
    requires Inv(c, b, queue, flight) && flight != Landed && Reply(c, b.v, b.p, flight.reply, flight.result).Ok?
    requires Stranded(b, id) && id !in DueIds(Dues(b.v.pages, Outstanding(queue, flight)))
    ensures Stranded(b.(v := Reply(c, b.v, b.p, flight.reply, flight.result).value.vault), id)
  {
    hide Inv, ConfirmEntries, RecordOrders, EntryIds, Confirms, ConfirmTouches, DistinctEntries;
    Parts(c, b, queue, flight);
    var outs := Outstanding(queue, flight);
    if flight.reply in b.v.pages {
      var page := b.v.pages[flight.reply];
      PageInFlightFacts(c, b, queue, flight);
      ConfirmEntriesFacts(b.v, page.kind, page.entries);
      DueIdsOfFirst(page.entries, page.kind, Dues(b.v.pages, queue));
      assert Dues(b.v.pages, outs) == Tagged(page.kind, page.entries) + Dues(b.v.pages, queue);
      ConfirmedKeepsOthers(b.v, ConfirmEntries(b.v, page.kind, page.entries), page, id);
    } else {
      var ids := if flight.result.Placed? then flight.result.ids else [];
      if |ids| == |b.v.placements[flight.reply].rungs|
         && RecordOrders(c, b.v.orders, b.p, b.v.placements[flight.reply], ids).Ok?
      {
        RecordOrdersFacts(c, b.v.orders, b.p, b.v.placements[flight.reply], ids);
      }
    }
  }

  lemma ConfirmedKeepsOthers(v: Vault, confirmed: Vault, page: PendingPage, id: OrderId)
    requires Confirms(v, confirmed, page.kind, page.entries) && ConfirmTouches(v, confirmed)
    requires id in v.orders && id !in EntryIds(page.entries)
    ensures id in confirmed.orders && confirmed.mode == v.mode
  {
  }

  lemma StepKeepsStranded(c: Params, w: World, e: Event, id: OrderId)
    requires c.Valid() && WorldInv(c, w) && StrandedWorld(w, id)
    ensures StrandedWorld(Step(c, w, e), id)
  {
    hide Inv, RestInv, Handle, Execute, Reply, PairStep, Dues, DueIds, Outstanding;
    RestOfWorld(c, w);
    StepKeeps(c, w, e);
    match e
    case Start(call) =>
      if w.AtRest() && Handle(c, w.now, call).Ok? {
        ExitHandlersKeepOrders(c, w.now, call, id);
        QueueIsOutstanding(Step(c, w, e));
        if Step(c, w, e) != w {
          QueuedNeverExecuted(c, Step(c, w, e).now, Step(c, w, e).queue, id);
        }
      }
    case RunSub(outcome) =>
      if w.queue != [] && w.flight == Landed {
        SubKeepsExecuted(c, w.now, w.queue[0], outcome);
        OutstandingKept(w.queue, Execute(c, w.now, w.queue[0], outcome).1);
      }
    case Deliver =>
      if w.flight != Landed {
        if Reply(c, w.now.v, w.now.p, w.flight.reply, w.flight.result).Ok? {
          ReplyKeepsOthers(c, w.now, w.queue, w.flight, id);
          QueueIsOutstanding(Step(c, w, e));
          QueuedNeverExecuted(c, Step(c, w, e).now, Step(c, w, e).queue, id);
        } else {
          QueueIsOutstanding(Step(c, w, e));
          NothingQueued(w.saved.v.pages);
        }
      }
    case _ =>
      if w.AtRest() {
        PairStepKeepsExecuted(c, w.now, e);
      }
  }

  lemma QueueIsOutstanding(w: World)
    requires w.flight == Landed
    ensures Outstanding(w.queue, w.flight) == w.queue
  {
  }

  lemma NothingQueued(pages: map<ReplyId, PendingPage>)
    ensures DueIds(Dues(pages, [])) == {}
  {
  }

  lemma SubKeepsExecuted(c: Params, b: Books, reply: ReplyId, outcome: PairOutcome)
    ensures var after := Execute(c, b, reply, outcome).0; after.v == b.v && after.p.executed == b.p.executed
  {
    if outcome.Succeeds? {
      PlaceAllFacts(b.p, outcome.placed);
    }
  }

  lemma PairStepKeepsExecuted(c: Params, b: Books, e: Event)
    ensures var after := PairStep(c, b, e); after.v == b.v && b.p.executed <= after.p.executed
  {
  }

  lemma {:induction false} RunKeepsStranded(c: Params, w: World, events: seq<Event>, id: OrderId)
    requires c.Valid() && WorldInv(c, w) && StrandedWorld(w, id)
    ensures StrandedWorld(Run(c, w, events), id) && WorldInv(c, Run(c, w, events))
    decreases |events|
  {
    if events != [] {
      hide WorldInv, Step, StrandedWorld;
      StepKeeps(c, w, events[0]);
      StepKeepsStranded(c, w, events[0], id);
      RunKeepsStranded(c, Step(c, w, events[0]), events[1..], id);
    }
  }

  /** Once exit mode is entered with an executed order not yet reconciled, no later run of calls and pair
      steps ever makes a handler pay anything out: only reconcile retires such an order, and it needs the
      active mode that exit never returns to. Reconciling first is what a caller must check. */
  lemma ExitWithExecutedOrderNeverPays(c: Params, w: World, events: seq<Event>, id: OrderId, call: Call)
    requires c.Valid() && WorldInv(c, w) && w.AtRest() && Stranded(w.now, id)
    requires Run(c, World(w.now, w.now, [], Landed), events).AtRest()
    ensures var b := Run(c, World(w.now, w.now, [], Landed), events).now;
            Handle(c, b, call).Ok? ==> Handle(c, b, call).value.paid == Nothing()
  {
    hide Inv, RestInv, Handle, Run, Step;
    var start := World(w.now, w.now, [], Landed);
    RestOfWorld(c, w);
    RestIsInv(c, w.now);
    NothingQueued(w.now.v.pages);
    QueueIsOutstanding(start);
    RunKeepsStranded(c, start, events, id);
    var after := Run(c, start, events);
    RestOfWorld(c, after);
    if Handle(c, after.now, call).Ok? {
      ExitHandlersKeepOrders(c, after.now, call, id);
    }
  }

  // ---- Nobody left to pay ----

  /** Exit mode without a share outstanding. */
  ghost predicate Ownerless(b: Books) { b.v.mode == Exit && b.v.total == 0 }

  lemma ExitHandlersPayNobody(c: Params, b: Books, call: Call)
    requires c.Valid() && Ownerless(b) && Handle(c, b, call).Ok?
    ensures var r := Handle(c, b, call).value;
            r.vault.mode == Exit && r.vault.total == 0 && r.paid == Nothing()
  {
    hide CancelEntries, AddConfirmablePages, PayOut, FirstTracked, StatusOf, MatchesActive;
    match call
    case CallRecover(sender, other, rung, limit) =>
      RecoveryKeepsTotal(c, b, sender, other, rung, limit);
    case CallCancelAll(sender, limit) =>
      var entries := CancelEntries(c, b.v, b.p, FirstTracked(b.v, c.maxPerReconcile), true).value;
      ConfirmablePagesTouch(b.v, entries.0, [], limit);
    case CallEmergencyCancel(sender, limit) =>
      var entries := CancelEntries(c, b.v, b.p, FirstTracked(b.v, c.maxPerReconcile), false).value;
      ConfirmablePagesTouch(b.v, entries.0, entries.1, limit);
    case _ =>
  }

  lemma RecoveryKeepsTotal(c: Params, b: Books, sender: Address, other: OrderId, rung: nat, limit: nat)
    requires RecoverOrder(c, b.v, b.p, sender, other, rung, limit).Ok?
    ensures var r := RecoverOrder(c, b.v, b.p, sender, other, rung, limit).value;
            r.vault.mode == b.v.mode && r.vault.total == b.v.total && r.paid == Nothing()
  {
    hide AddConfirmablePages, MatchesActive;
    var side, price := c.rungs[rung].side.value, c.rungs[rung].price;
    if other !in b.p.active {
      var refund := b.p.parked[other].remaining;
      ConfirmablePagesTouch(
        Track(b.v, other, GridOrder(rung, side, price, refund)), [], [PageEntry(other, side.Input(), refund)], limit);
    }
  }

  lemma {:induction false} ConfirmingKeepsTotal(v: Vault, kind: PageKind, entries: seq<PageEntry>)
    ensures var w := ConfirmEntries(v, kind, entries); w.mode == v.mode && w.total == v.total
  {
    if entries != [] {
      ConfirmingKeepsTotal(v, kind, entries[..|entries| - 1]);
    }
  }

  lemma ReplyKeepsTotal(c: Params, v: Vault, p: Pair, reply: ReplyId, result: SubResult)
    requires Reply(c, v, p, reply, result).Ok?
    ensures var w := Reply(c, v, p, reply, result).value.vault; w.mode == v.mode && w.total == v.total
  {
    if reply in v.pages {
      ConfirmingKeepsTotal(v, v.pages[reply].kind, v.pages[reply].entries);
    }
    hide ConfirmEntries, RecordOrders;
  }

  lemma StepKeepsOwnerless(c: Params, w: World, e: Event)
    requires c.Valid() && Ownerless(w.now) && Ownerless(w.saved)
    ensures Ownerless(Step(c, w, e).now) && Ownerless(Step(c, w, e).saved)
  {
    hide Handle, Execute, Reply, PairStep;
    match e
    case Start(call) =>
      if w.AtRest() && Handle(c, w.now, call).Ok? {
        ExitHandlersPayNobody(c, w.now, call);
      }
    case RunSub(outcome) =>
      if w.queue != [] && w.flight == Landed {
        SubKeepsExecuted(c, w.now, w.queue[0], outcome);
      }
    case Deliver =>
      if w.flight != Landed && Reply(c, w.now.v, w.now.p, w.flight.reply, w.flight.result).Ok? {
        ReplyKeepsTotal(c, w.now.v, w.now.p, w.flight.reply, w.flight.result);
      }
    case _ =>
      if w.AtRest() {
        PairStepKeepsExecuted(c, w.now, e);
      }
  }

  /** Without a share outstanding in exit mode nothing is ever paid out again either: what such a vault
      holds stays. */
  lemma {:induction false} ExitWithoutSharesNeverPays(c: Params, w: World, events: seq<Event>, call: Call)
    requires c.Valid() && Ownerless(w.now) && Ownerless(w.saved)
    ensures var b := Run(c, w, events).now;
            Ownerless(b) && (Handle(c, b, call).Ok? ==> Handle(c, b, call).value.paid == Nothing())
    decreases |events|
  {
    hide Handle, Step, Ownerless;
    if events == [] {
      if Handle(c, w.now, call).Ok? {
        ExitHandlersPayNobody(c, w.now, call);
      }
    } else {
      StepKeepsOwnerless(c, w, events[0]);
      ExitWithoutSharesNeverPays(c, Step(c, w, events[0]), events[1..], call);
    }
  }
}
