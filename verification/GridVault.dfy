/** The limit-grid vault as the contract runs it: storage updated in place by handlers that loop over
    orders, pages and reported ids. Every handler is proved equal to its function in LimitGrid, and a
    failed message leaves the storage as it was. */
module GridVault {
  import opened Arithmetic
  import opened Tokens
  import opened Ledger
  import opened LimitGrid
  import LimitChain
  import FeeMint
  import NavShares

  /** What a handler hands to the chain: submessages by reply id, and tokens transferred out. */
  datatype Sent = Sent(subs: seq<ReplyId>, paid: Amounts)

  class Contract {
    const c: Params
    var mode: Mode
    var free: Amounts
    var activeOrders: nat
    var totalShares: nat
    var shares: Shares
    var orders: map<OrderId, GridOrder>
    var cancelled: map<OrderId, CancelledOrder>
    var placements: map<ReplyId, PlacementPlan>
    var pages: map<ReplyId, PendingPage>
    var nextReply: ReplyId

    function State(): Vault
      reads this
    {
      Vault(mode, free, activeOrders, totalShares, shares, orders, cancelled, placements, pages, nextReply)
    }

    /** The handler did what `outcome` says; after an error the storage is whatever it had reached. */
    ghost predicate Follows(outcome: Outcome, r: Result<Sent, Error>)
      reads this
    {
      match outcome
      case Ok(response) => r == Ok(Sent(response.subs, response.paid)) && State() == response.vault
      case Err(error) => r == Err(error)
    }

    constructor (c: Params)
      requires c.Valid()
      ensures this.c == c && State() == Vault(Active, Nothing(), 0, 0, map[], map[], map[], map[], map[], 1)
    {
      this.c, mode, free, activeOrders, totalShares, shares := c, Active, Nothing(), 0, 0, map[];
      orders, cancelled, placements, pages, nextReply := map[], map[], map[], map[], 1;
    }

    // ---- Placement ----

    method AddPlacement(side: Side, rungs: seq<nat>, each: nat) returns (subs: seq<ReplyId>)
      requires each * |rungs| <= free.Get(side.Input())
      modifies this`free, this`activeOrders, this`placements, this`nextReply
      ensures var r := LimitGrid.AddPlacement(c, old(State()), side, rungs, each); State() == r.vault && subs == r.subs
    {
      if each == 0 || rungs == [] { return []; }
      if activeOrders + |rungs| > c.maxActive { return []; }
      free := free.Put(side.Input(), free.Get(side.Input()) - each * |rungs|);
      activeOrders := activeOrders + |rungs|;
      var reply := nextReply;
      nextReply := nextReply + 1;
      placements := placements[reply := PlacementPlan(side, rungs, each)];
      return [reply];
    }

    method AllocateSide(side: Side) returns (r: Result<Sent, Error>)
      modifies this`free, this`activeOrders, this`placements, this`nextReply
      ensures Follows(LimitGrid.AllocateSide(c, old(State()), side), r)
    {
      var rungs := SideRungs(c.rungs, side);
      if rungs == [] { return Err(EmptySide); }
      var each := Floor(free.Get(side.Input()), |rungs|);
      var subs := AddPlacement(side, rungs, each);
      return Ok(Sent(subs, Nothing()));
    }

    method ExecuteReceive(actual: nat, sender: Address, token: Token, amount: nat) returns (r: Result<Sent, Error>)
      modifies this
      ensures Follows(Receive(c, old(State()), actual, sender, token, amount), r)
    {
      hide LimitGrid.AllocateSide, DepositShares, Credit;
      if mode != Active { return Err(InvalidMode); }
      if amount == 0 { return Err(ZeroAmount); }
      if sender != c.owner { return Err(Unauthorized); }
      if actual != free.Get(token) + amount { return Err(UnsupportedTokenBehavior); }
      var minted := DepositShares(amount, token, c.referencePrice);
      if minted.None? { return Err(ArithmeticOutOfRange); }
      if minted.value == 0 { return Err(ZeroAmount); }
      free := free.Put(token, actual);
      totalShares := totalShares + minted.value;
      shares := Credit(shares, sender, minted.value);
      r := AllocateSide(if token == Token0 then Ask else Bid);
    }

    method ExecuteAllocate(sender: Address) returns (r: Result<Sent, Error>)
      modifies this
      ensures Follows(Allocate(c, old(State()), sender), r)
    {
      if mode != Active { return Err(InvalidMode); }
      if sender != c.owner { return Err(Unauthorized); }
      var bids := AllocateSide(Bid);
      if bids.Err? { return bids; }
      var asks := AllocateSide(Ask);
      if asks.Err? { return asks; }
      var subs := bids.value.subs + asks.value.subs;
      if subs == [] { return Err(NothingToAllocate); }
      return Ok(Sent(subs, Nothing()));
    }

    // ---- Pages ----

    method AddPages(kind: PageKind, entries: seq<PageEntry>, limit: nat) returns (subs: seq<ReplyId>)
      requires limit > 0
      modifies this`pages, this`nextReply
      ensures var r := LimitGrid.AddPages(old(State()), kind, entries, limit); State() == r.vault && subs == r.subs
    {
      subs := [];
      var rest := entries;
      while rest != []
        invariant var whole := LimitGrid.AddPages(old(State()), kind, entries, limit);
                  var todo := LimitGrid.AddPages(State(), kind, rest, limit);
                  whole.vault == todo.vault && whole.subs == subs + todo.subs
        decreases |rest|
      {
        var n := Min(limit, |rest|);
        var reply := nextReply;
        nextReply := nextReply + 1;
        pages := pages[reply := PendingPage(kind, rest[..n])];
        subs, rest := subs + [reply], rest[n..];
      }
    }

    method AddConfirmablePages(cancels: seq<PageEntry>, claims: seq<PageEntry>, limit: nat) returns (subs: seq<ReplyId>)
      modifies this`pages, this`nextReply
      ensures var r := LimitGrid.AddConfirmablePages(old(State()), cancels, claims, limit);
              State() == r.vault && subs == r.subs && r.paid == Nothing()
    {
      var first := AddPages(Cancel, cancels, Max(limit, 1));
      var second := AddPages(Claim, claims, Max(limit, 1));
      return first + second;
    }

    method HandlePendingPage(reply: ReplyId, succeeded: bool) returns (r: Result<Sent, Error>)
      requires reply in pages
      modifies this`free, this`cancelled, this`orders, this`activeOrders, this`pages
      ensures Follows(HandlePage(old(State()), reply, succeeded), r)
    {
      hide ConfirmEntries;
      var page := pages[reply];
      if succeeded {
        ConfirmNothing(State(), page.kind);
        var i := 0;
        while i < |page.entries|
          invariant i <= |page.entries|
          invariant State() == ConfirmEntries(old(State()), page.kind, page.entries[..i])
          invariant activeOrders == old(activeOrders) && pages == old(pages)
        {
          var e := page.entries[i];
          ConfirmPrefix(old(State()), page.kind, page.entries, i);
          free := free.Put(e.token, free.Get(e.token) + e.refund);
          if page.kind == Cancel && e.id in orders {
            var o := orders[e.id];
            cancelled := cancelled[e.id := CancelledOrder(o.rung, o.side, o.price, e.refund)];
          }
          orders := orders - {e.id};
          i := i + 1;
        }
        assert page.entries[..i] == page.entries;
        if |page.entries| > activeOrders { return Err(InvalidOrder); }
        activeOrders := activeOrders - |page.entries|;
      }
      pages := pages - {reply};
      return Ok(Sent([], Nothing()));
    }

    // ---- Placement replies ----

    method RestoreSinglePlacement(reply: ReplyId) returns (r: Result<Sent, Error>)
      requires reply in placements
      modifies this`free, this`activeOrders, this`placements
      ensures Follows(RestorePlacement(old(State()), reply), r)
    {
      var plan := placements[reply];
      if activeOrders == 0 { return Err(InvalidOrder); }
      free := free.Put(plan.side.Input(), free.Get(plan.side.Input()) + plan.each);
      activeOrders := activeOrders - 1;
      placements := placements - {reply};
      return Ok(Sent([], Nothing()));
    }

    method RecordReported(p: Pair, plan: PlacementPlan, ids: seq<OrderId>) returns (r: Result<(), Error>)
      requires |ids| == |plan.rungs|
      modifies this`orders
      ensures match RecordOrders(c, old(orders), p, plan, ids)
              case Ok(recorded) => r == Ok(()) && orders == recorded
              case Err(error) => r == Err(error)
    {
      var i := 0;
      while i < |ids|
        invariant i <= |ids| && RecordOrders(c, old(orders), p, plan, ids[..i]) == Ok(orders)
      {
        var id, rung := ids[i], plan.rungs[i];
        RecordsPrefix(c, old(orders), p, plan, ids, i);
        assert ids[..i + 1][..i] == ids[..i];
        if id in orders { return Err(InvalidPlacementReply); }
        if id !in p.active || rung >= |c.rungs| { return Err(NotFound); }
        var onChain := p.active[id];
        if onChain.owner != c.self || onChain.side != plan.side || onChain.price != c.rungs[rung].price
           || onChain.remaining > plan.each
        {
          return Err(InvalidOrder);
        }
        orders := orders[id := GridOrder(rung, plan.side, onChain.price, onChain.remaining)];
        i := i + 1;
      }
      assert ids[..i] == ids;
      return Ok(());
    }

    method Reply(p: Pair, reply: ReplyId, result: SubResult) returns (r: Result<Sent, Error>)
      modifies this
      ensures Follows(LimitGrid.Reply(c, old(State()), p, reply, result), r)
    {
      if reply in pages {
        r := HandlePendingPage(reply, result != Failed);
        return;
      }
      if reply !in placements { return Err(UnknownReply); }
      var plan := placements[reply];
      if result == Failed {
        if |plan.rungs| != 1 { return Err(PlacementFailed); }
        r := RestoreSinglePlacement(reply);
        return;
      }
      var ids := if result.Placed? then result.ids else [];
      if ids == [] && |plan.rungs| == 1 {
        r := RestoreSinglePlacement(reply);
        return;
      }
      if |ids| != |plan.rungs| { return Err(InvalidPlacementReply); }
      var recorded := RecordReported(p, plan, ids);
      if recorded.Err? { return Err(recorded.error); }
      placements := placements - {reply};
      return Ok(Sent([], Nothing()));
    }

    // ---- Reconcile ----

    method SyncFreeBalances(actual: Amounts) returns (credited: Option<Amounts>)
      modifies this`free
      ensures match Sync(old(State()), actual)
              case Some(synced) => State() == synced.0 && credited == Some(synced.1)
              case None => credited == None
    {
      if actual.t0 < free.t0 { return None; }
      var credited0 := actual.t0 - free.t0;
      if actual.t1 < free.t1 { return None; }
      var credited1 := actual.t1 - free.t1;
      free := actual;
      return Some(Amounts(credited0, credited1));
    }

    /** Free and escrowed assets, looping over the tracked orders in storage order. */
    method AssetTotals() returns (holdings: Amounts)
      ensures holdings == free.Plus(Escrow(orders, Ascending(orders.Keys)))
    {
      var listed := Ascending(orders.Keys);
      holdings := free;
      var i := 0;
      while i < |listed|
        invariant i <= |listed| && holdings == free.Plus(Escrow(orders, listed[..i]))
      {
        var o := orders[listed[i]];
        assert listed[..i + 1][..i] == listed[..i];
        holdings := holdings.Plus(Just(o.side.Input(), o.remaining));
        i := i + 1;
      }
      assert listed[..i] == listed;
    }

    method ChargeFee(credited: Amounts, feeBps: nat) returns (r: Result<(), Error>)
      requires c.Valid()
      modifies this`shares, this`totalShares
      ensures match LimitGrid.ChargeFee(c, old(State()), credited, feeBps)
              case Ok(charged) => r == Ok(()) && State() == charged
              case Err(error) => r == Err(error)
    {
      hide CheckedRatio, Escrow, FeeMint.FeeShares, Floor, Credit;
      if c.collector.None? || feeBps == 0 { return Ok(()); }
      var holdings := AssetTotals();
      var credited1 := CheckedRatio(credited.t1, ONE, c.referencePrice);
      var holdings1 := CheckedRatio(holdings.t1, ONE, c.referencePrice);
      if credited1.None? || holdings1.None? { return Err(ArithmeticOutOfRange); }
      var fee := Floor((credited.t0 + credited1.value) * feeBps, BPS);
      var minted := FeeMint.FeeShares(fee, holdings.t0 + holdings1.value, totalShares);
      if minted == 0 { return Ok(()); }
      shares := Credit(shares, c.collector.value, minted);
      totalShares := totalShares + minted;
      return Ok(());
    }

    /** Asks the pair about one tracked order. */
    method LookUp(p: Pair, o: GridOrder, id: OrderId) returns (seen: Option<Inspection>)
      ensures forall v: Vault :: v.cancelled == cancelled ==> seen == Inspect(c, v, o, p, id)
    {
      if id in p.active {
        if !MatchesActive(c.self, o, p.active[id]) { return None; }
        return Some(Inspection(Resting, p.active[id].remaining, p.active[id].remaining == 0, 0));
      }
      if id in p.parked {
        if !MatchesParked(c.self, o, p.parked[id]) { return None; }
        return Some(Inspection(Parked, p.parked[id].remaining, true, p.parked[id].remaining));
      }
      return Some(Inspection(if id in cancelled then Cancelled else Executed, 0, true, 0));
    }

    /** The loop of `execute_reconcile` over the requested ids. */
    method ScanRequested(p: Pair, ids: seq<OrderId>) returns (r: Result<(seq<PageEntry>, nat), Error>)
      modifies this`orders, this`activeOrders
      ensures match ScanOrders(c, old(State()), p, ids)
              case Ok(s) => r == Ok((s.claims, s.changed)) && orders == s.orders && activeOrders == s.activeOrders
              case Err(error) => r == Err(error)
    {
      hide Inspect, ScanOrders;
      var v := State();
      ScanNothing(c, v, p);
      var claims, changed, executedSeen, cancelledSeen := [], 0, 0, 0;
      var i := 0;
      while i < |ids|
        invariant i <= |ids| && cancelled == v.cancelled
        invariant ScanOrders(c, v, p, ids[..i])
                  == Ok(Scan(orders, activeOrders, claims, changed, executedSeen, cancelledSeen))
      {
        var id := ids[i];
        ScanPrefix(c, v, p, ids, i);
        if id in ids[..i] { return Err(InvalidFillReport); }
        if id !in orders { return Err(NotFound); }
        var o := orders[id];
        var seen := LookUp(p, o, id);
        if seen.None? { return Err(InvalidOrder); }
        var Inspection(found, current, terminal, parked) := seen.value;
        if found == Cancelled { cancelledSeen := cancelledSeen + 1; }
        if found == Executed { executedSeen := executedSeen + 1; }
        if current < o.remaining || terminal { changed := changed + 1; }
        if terminal {
          if parked > 0 {
            claims := claims + [PageEntry(id, o.side.Input(), parked)];
          } else {
            if activeOrders == 0 { return Err(InvalidOrder); }
            orders := orders - {id};
            activeOrders := activeOrders - 1;
          }
        } else {
          orders := orders[id := o.(remaining := current)];
        }
        i := i + 1;
      }
      assert ids[..i] == ids;
      return Ok((claims, changed));
    }

    method ExecuteReconcile(p: Pair, actual: Amounts, ids: seq<OrderId>, feeBps: nat, limit: nat)
      returns (r: Result<Sent, Error>)
      requires c.Valid()
      modifies this
      ensures Follows(Reconcile(c, old(State()), p, actual, ids, feeBps, limit), r)
    {
      if mode != Active { return Err(InvalidMode); }
      if ids == [] || |ids| > c.maxPerReconcile { return Err(InvalidFillReport); }
      var credited := SyncFreeBalances(actual);
      if credited.None? { return Err(UnsupportedTokenBehavior); }
      var scanned := ScanRequested(p, ids);
      if scanned.Err? { return Err(scanned.error); }
      var (claims, changed) := scanned.value;
      if changed == 0 && credited.value == Nothing() { return Err(NothingToReconcile); }
      var charged := ChargeFee(credited.value, feeBps);
      if charged.Err? { return Err(charged.error); }
      var subs := AddConfirmablePages([], claims, limit);
      return Ok(Sent(subs, Nothing()));
    }

    method ExecuteSyncBalances(actual: Amounts, sender: Address) returns (r: Result<Sent, Error>)
      modifies this`free
      ensures Follows(SyncBalances(c, old(State()), actual, sender), r)
    {
      if sender != c.owner { return Err(Unauthorized); }
      var credited := SyncFreeBalances(actual);
      return if credited.None? then Err(UnsupportedTokenBehavior) else Ok(Sent([], Nothing()));
    }

    method ExecuteRecoverOrder(
      p: Pair, sender: Address, id: OrderId, rung: nat, limit: nat) returns (r: Result<Sent, Error>)
      modifies this`orders, this`activeOrders, this`pages, this`nextReply
      ensures Follows(RecoverOrder(c, old(State()), p, sender, id, rung, limit), r)
    {
      if sender != c.owner { return Err(Unauthorized); }
      if id in orders || id in cancelled { return Err(InvalidOrder); }
      if rung >= |c.rungs| { return Err(NotFound); }
      if c.rungs[rung].side.None? { return Err(InvalidOrder); }
      var side, price := c.rungs[rung].side.value, c.rungs[rung].price;
      var claims, remaining := [], 0;
      if id in p.active {
        remaining := p.active[id].remaining;
        if !MatchesActive(c.self, GridOrder(rung, side, price, remaining), p.active[id]) || remaining == 0 {
          return Err(InvalidOrder);
        }
      } else if id in p.parked {
        var refund := p.parked[id];
        remaining := refund.remaining;
        if refund.owner != c.self || refund.side != side || remaining == 0 { return Err(InvalidOrder); }
        claims := [PageEntry(id, side.Input(), remaining)];
      } else {
        return Err(OrderStatusUnverifiable);
      }
      orders := orders[id := GridOrder(rung, side, price, remaining)];
      activeOrders := activeOrders + 1;
      var subs := AddConfirmablePages([], claims, limit);
      return Ok(Sent(subs, Nothing()));
    }

    // ---- Cancellation ----

    /** The loop shared by the two cancellations. */
    method CollectEntries(p: Pair, listed: seq<OrderId>, settledOnly: bool)
      returns (r: Result<(seq<PageEntry>, seq<PageEntry>), Error>)
      requires forall id :: id in listed ==> id in orders
      ensures r == CancelEntries(c, State(), p, listed, settledOnly)
    {
      var cancels, claims := [], [];
      var i := 0;
      while i < |listed|
        invariant i <= |listed| && CancelEntries(c, State(), p, listed[..i], settledOnly) == Ok((cancels, claims))
      {
        var id := listed[i];
        var o := orders[id];
        CancelPrefix(c, State(), p, listed, settledOnly, i);
        if id in p.active {
          if !MatchesActive(c.self, o, p.active[id]) { return Err(InvalidOrder); }
          if settledOnly && p.active[id].remaining != o.remaining { return Err(UnsettledOrder); }
          cancels := cancels + [PageEntry(id, o.side.Input(), p.active[id].remaining)];
        } else if id in p.parked {
          if settledOnly { return Err(UnsettledOrder); }
          if !MatchesParked(c.self, o, p.parked[id]) { return Err(InvalidOrder); }
          claims := claims + [PageEntry(id, o.side.Input(), p.parked[id].remaining)];
        } else {
          return Err(if settledOnly then UnsettledOrder else OrderStatusUnverifiable);
        }
        i := i + 1;
      }
      assert listed[..i] == listed;
      return Ok((cancels, claims));
    }

    method ExecuteCancelAll(p: Pair, sender: Address, limit: nat) returns (r: Result<Sent, Error>)
      modifies this`pages, this`nextReply
      ensures Follows(CancelAll(c, old(State()), p, sender, limit), r)
    {
      if sender != c.owner { return Err(Unauthorized); }
      var entries := CollectEntries(p, FirstTracked(State(), c.maxPerReconcile), true);
      if entries.Err? { return Err(entries.error); }
      var subs := AddConfirmablePages(entries.value.0, [], limit);
      return Ok(Sent(subs, Nothing()));
    }

    method ExecuteEmergencyCancel(p: Pair, sender: Address, limit: nat) returns (r: Result<Sent, Error>)
      modifies this`pages, this`nextReply
      ensures Follows(EmergencyCancel(c, old(State()), p, sender, limit), r)
    {
      if mode != Exit { return Err(InvalidMode); }
      if sender != c.owner { return Err(Unauthorized); }
      var entries := CollectEntries(p, FirstTracked(State(), c.maxPerReconcile), false);
      if entries.Err? { return Err(entries.error); }
      var subs := AddConfirmablePages(entries.value.0, entries.value.1, limit);
      return Ok(Sent(subs, Nothing()));
    }

    // ---- Payouts and modes ----

    method ExecuteWithdraw(sender: Address, burned: nat) returns (r: Result<Sent, Error>)
      modifies this`free, this`totalShares, this`shares
      ensures Follows(Withdraw(c, old(State()), sender, burned), r)
    {
      if mode == Exit { return Err(InvalidMode); }
      if sender != c.owner { return Err(Unauthorized); }
      if activeOrders != 0 { return Err(ActiveOrders); }
      if burned == 0 { return Err(ZeroAmount); }
      if burned > Balance(shares, sender) || burned > totalShares { return Err(InsufficientShares); }
      var paid := PayFromFree(sender, burned);
      return Ok(Sent([], paid));
    }

    method PayFromFree(holder: Address, burned: nat) returns (paid: Amounts)
      requires 0 < burned <= totalShares && burned <= Balance(shares, holder)
      modifies this`free, this`totalShares, this`shares
      ensures var r := PayOut(old(State()), old(free), holder, burned); State() == r.vault && paid == r.paid
    {
      NavShares.PayoutCovered(free, burned, totalShares);
      hide Floor;
      paid := Amounts(Floor(free.t0 * burned, totalShares), Floor(free.t1 * burned, totalShares));
      if paid.t0 > 0 { free := free.Put(Token0, free.t0 - paid.t0); }
      if paid.t1 > 0 { free := free.Put(Token1, free.t1 - paid.t1); }
      totalShares := totalShares - burned;
      shares := shares[holder := Balance(shares, holder) - burned];
    }

    method ExecuteRedeemShares(sender: Address) returns (r: Result<Sent, Error>)
      modifies this`free, this`totalShares, this`shares
      ensures Follows(RedeemShares(c, old(State()), sender), r)
    {
      if c.collector != Some(sender) { return Err(Unauthorized); }
      var burned := Balance(shares, sender);
      if burned == 0 { return Err(InsufficientShares); }
      if activeOrders != 0 { return Err(ActiveOrders); }
      if burned > totalShares { return Err(ArithmeticOutOfRange); }
      var paid := PayFromFree(sender, burned);
      return Ok(Sent([], paid));
    }

    method ExecuteEmergencyWithdraw(actual: Amounts, sender: Address) returns (r: Result<Sent, Error>)
      modifies this`free, this`totalShares, this`shares, this`activeOrders
      ensures Follows(EmergencyWithdraw(c, old(State()), actual, sender), r)
    {
      if mode != Exit { return Err(InvalidMode); }
      if sender != c.owner { return Err(Unauthorized); }
      if orders != map[] { return Err(ExitOrdersRemain); }
      var burned := Balance(shares, c.owner);
      if burned == 0 || burned > totalShares { return Err(InsufficientShares); }
      NavShares.PayoutCovered(actual, burned, totalShares);
      var paid := Amounts(Floor(actual.t0 * burned, totalShares), Floor(actual.t1 * burned, totalShares));
      free := Amounts(actual.t0 - paid.t0, actual.t1 - paid.t1);
      shares := shares[c.owner := 0];
      totalShares := totalShares - burned;
      activeOrders := 0;
      return Ok(Sent([], paid));
    }

    method ExecuteSetMode(sender: Address, target: Mode) returns (r: Result<Sent, Error>)
      modifies this`mode
      ensures Follows(SetMode(c, old(State()), sender, target), r)
    {
      match target {
        case Exit =>
          if sender != c.owner { return Err(Unauthorized); }
          if mode == Exit { return Err(InvalidMode); }
        case Paused =>
          if sender != c.admin { return Err(Unauthorized); }
          if mode != Active { return Err(InvalidMode); }
        case Active =>
          if sender != c.admin { return Err(Unauthorized); }
          if mode != Paused { return Err(InvalidMode); }
      }
      mode := target;
      return Ok(Sent([], Nothing()));
    }

    // ---- Solvency query ----

    method CountOrder(p: Pair, s: Solvency, id: OrderId) returns (r: Solvency)
      requires id in orders
      ensures r == SolvencyWith(c, State(), p, s, id)
    {
      var o := orders[id];
      r := s.(expected := s.expected.Plus(Just(o.side.Input(), o.remaining)));
      if id in p.active {
        if MatchesActive(c.self, o, p.active[id]) {
          r := r.(actual := s.actual.Plus(Just(o.side.Input(), p.active[id].remaining)), active := s.active + 1);
        } else {
          r := r.(unverifiable := s.unverifiable + 1);
        }
      } else if id in p.parked {
        if MatchesParked(c.self, o, p.parked[id]) {
          r := r.(actual := s.actual.Plus(Just(o.side.Input(), p.parked[id].remaining)), parked := s.parked + 1);
        } else {
          r := r.(unverifiable := s.unverifiable + 1);
        }
      } else if id in cancelled {
        r := r.(cancelled := s.cancelled + 1);
      } else {
        r := r.(executed := s.executed + 1);
      }
    }

    method QuerySolvency(p: Pair, balances: Amounts) returns (s: Solvency)
      ensures s == CheckSolvency(c, State(), p, balances)
    {
      var listed := Ascending(orders.Keys);
      s := Solvency(free, balances, 0, 0, 0, 0, 0);
      ghost var start := s;
      var i := 0;
      while i < |listed|
        invariant i <= |listed| && s == SolvencyOver(c, State(), p, start, listed[..i])
      {
        assert listed[..i + 1][..i] == listed[..i];
        s := CountOrder(p, s, listed[i]);
        i := i + 1;
      }
      assert listed[..i] == listed;
    }

    // ---- A whole message ----

    method Dispatch(call: LimitChain.Call, p: Pair, bal: Amounts) returns (r: Result<Sent, Error>)
      requires c.Valid()
      modifies this
      ensures Follows(LimitChain.Handle(c, LimitChain.Books(old(State()), p, bal, Nothing()), call), r)
    {
      match call
      case CallReceive(sender, token, amount) => r := ExecuteReceive(bal.Get(token) + amount, sender, token, amount);
      case CallAllocate(sender) => r := ExecuteAllocate(sender);
      case CallReconcile(ids, feeBps, limit) => r := ExecuteReconcile(p, bal, ids, feeBps, limit);
      case CallSync(sender) => r := ExecuteSyncBalances(bal, sender);
      case CallRecover(sender, id, rung, limit) => r := ExecuteRecoverOrder(p, sender, id, rung, limit);
      case CallCancelAll(sender, limit) => r := ExecuteCancelAll(p, sender, limit);
      case CallEmergencyCancel(sender, limit) => r := ExecuteEmergencyCancel(p, sender, limit);
      case CallWithdraw(sender, burned) => r := ExecuteWithdraw(sender, burned);
      case CallRedeem(sender) => r := ExecuteRedeemShares(sender);
      case CallEmergencyWithdraw(sender) => r := ExecuteEmergencyWithdraw(bal, sender);
      case CallSetMode(sender, target) => r := ExecuteSetMode(sender, target);
    }

    /** The chain undoes everything a failed message did. */
    method Execute(call: LimitChain.Call, p: Pair, bal: Amounts) returns (r: Result<Sent, Error>)
      requires c.Valid()
      modifies this
      ensures var outcome := LimitChain.Handle(c, LimitChain.Books(old(State()), p, bal, Nothing()), call);
              Follows(outcome, r) && (outcome.Err? ==> State() == old(State()))
    {
      var before := State();
      r := Dispatch(call, p, bal);
      if r.Err? {
        mode, free, activeOrders, totalShares, shares := before.mode, before.free, before.activeOrders, before.total,
          before.shares;
        orders, cancelled, placements, pages, nextReply
          := before.orders, before.cancelled, before.placements, before.pages, before.nextReply;
      }
    }
  }

  // ---- One more element of a scan that fails fails the whole ----

  lemma ConfirmNothing(v: Vault, kind: PageKind)
    ensures ConfirmEntries(v, kind, []) == v
  {
  }

  lemma ConfirmPrefix(v: Vault, kind: PageKind, entries: seq<PageEntry>, i: nat)
    requires i < |entries|
    ensures ConfirmEntries(v, kind, entries[..i + 1])
            == ConfirmEntry(ConfirmEntries(v, kind, entries[..i]), kind, entries[i])
  {
    assert entries[..i + 1][..i] == entries[..i];
  }

  lemma ScanNothing(c: Params, v: Vault, p: Pair)
    ensures ScanOrders(c, v, p, []) == Ok(Scan(v.orders, v.activeOrders, [], 0, 0, 0))
  {
  }

  lemma {:induction false} ScanPrefix(c: Params, v: Vault, p: Pair, ids: seq<OrderId>, i: nat)
    requires i < |ids|
    ensures var shorter := ScanOrders(c, v, p, ids[..i + 1]);
            shorter == (var earlier := ScanOrders(c, v, p, ids[..i]);
                        if earlier.Err? then earlier
                        else if ids[i] in ids[..i] then Err(InvalidFillReport)
                        else ScanOrder(c, v, earlier.value, p, ids[i]))
    ensures ScanOrders(c, v, p, ids[..i + 1]).Err? ==> ScanOrders(c, v, p, ids) == ScanOrders(c, v, p, ids[..i + 1])
    decreases |ids|
  {
    assert ids[..i + 1][..i] == ids[..i];
    if i + 1 < |ids| {
      var last := |ids| - 1;
      ScanPrefix(c, v, p, ids[..last], i);
      assert ids[..last][..i + 1] == ids[..i + 1] && ids[..last][..i] == ids[..i];
    } else {
      assert ids[..i + 1] == ids;
    }
  }

  lemma {:induction false} RecordsPrefix(
    c: Params, orders: map<OrderId, GridOrder>, p: Pair, plan: PlacementPlan, ids: seq<OrderId>, i: nat)
    requires i < |ids| <= |plan.rungs|
    ensures RecordOrders(c, orders, p, plan, ids[..i + 1]).Err?
            ==> RecordOrders(c, orders, p, plan, ids) == RecordOrders(c, orders, p, plan, ids[..i + 1])
    decreases |ids|
  {
    if i + 1 < |ids| {
      var last := |ids| - 1;
      RecordsPrefix(c, orders, p, plan, ids[..last], i);
      assert ids[..last][..i + 1] == ids[..i + 1];
    } else {
      assert ids[..i + 1] == ids;
    }
  }

  lemma {:induction false} CancelPrefix(c: Params, v: Vault, p: Pair, listed: seq<OrderId>, settledOnly: bool, i: nat)
    requires i < |listed| && forall id :: id in listed ==> id in v.orders
    ensures CancelEntries(c, v, p, listed[..i + 1], settledOnly).Err?
            ==> CancelEntries(c, v, p, listed, settledOnly) == CancelEntries(c, v, p, listed[..i + 1], settledOnly)
    ensures listed[..i + 1][..i] == listed[..i]
    decreases |listed|
  {
    if i + 1 < |listed| {
      var last := |listed| - 1;
      CancelPrefix(c, v, p, listed[..last], settledOnly, i);
      assert listed[..last][..i + 1] == listed[..i + 1];
    } else {
      assert listed[..i + 1] == listed;
    }
  }
}
