/** The limit-grid vault `grid-vault` and the pair it trades on, as values: storage, the pair's view of
    the vault's orders, and every handler as a function from storage to storage, submessages and payouts.
    An error is a revert. Amounts are unbounded: a 128-bit overflow in the contract only adds reverts. */
module LimitGrid {
  import opened Arithmetic
  import opened Tokens
  import opened Ledger
  import FeeMint
  import NavShares

  type OrderId = nat

  type ReplyId = nat

  datatype Side = Ask | Bid {
    /** The token an order of this side escrows. */
    function Input(): Token { if this == Ask then Token0 else Token1 }
  }

  datatype Rung = Rung(price: nat, side: Option<Side>)

  datatype GridOrder = GridOrder(rung: nat, side: Side, price: nat, remaining: nat)

  datatype CancelledOrder = CancelledOrder(rung: nat, side: Side, price: nat, remaining: nat)

  /** `each` stands for `gross_amounts`, which holds one amount repeated per rung. */
  datatype PlacementPlan = PlacementPlan(side: Side, rungs: seq<nat>, each: nat) {
    function Gross(): nat { each * |rungs| }
  }

  datatype PageKind = Cancel | Claim

  datatype PageEntry = PageEntry(id: OrderId, token: Token, refund: nat)

  datatype PendingPage = PendingPage(kind: PageKind, entries: seq<PageEntry>)

  datatype Mode = Active | Paused | Exit

  /** What instantiation and bot creation fix for good. */
  datatype Params = Params(
    self: Address, owner: Address, admin: Address, collector: Option<Address>, rungs: seq<Rung>,
    referencePrice: nat, maxPerReconcile: nat, maxActive: nat)
  {
    predicate Valid() { referencePrice > 0 && maxPerReconcile > 0 }
  }

  datatype Vault = Vault(
    mode: Mode, free: Amounts, activeOrders: nat, total: nat, shares: Shares,
    orders: map<OrderId, GridOrder>, cancelled: map<OrderId, CancelledOrder>,
    placements: map<ReplyId, PlacementPlan>, pages: map<ReplyId, PendingPage>, nextReply: ReplyId)

  /** An order resting on the pair, and the refund of one that expired. */
  datatype LimitOrder = LimitOrder(owner: Address, side: Side, price: nat, remaining: nat)

  datatype Refund = Refund(owner: Address, side: Side, remaining: nat)

  /** The pair. `executed` remembers the orders that left the book because they were filled to zero. */
  datatype Pair = Pair(
    active: map<OrderId, LimitOrder>, parked: map<OrderId, Refund>, executed: set<OrderId>, nextId: OrderId)

  datatype Error =
    | InvalidMode | Unauthorized | ZeroAmount | UnsupportedTokenBehavior | ArithmeticOutOfRange | EmptySide
    | NothingToAllocate | InvalidFillReport | NotFound | InvalidOrder | NothingToReconcile
    | OrderStatusUnverifiable | UnsettledOrder | ActiveOrders | InsufficientShares | ExitOrdersRemain
    | UnknownReply | InvalidPlacementReply | PlacementFailed

  /** Storage after a handler, reply ids of the submessages it sends in order, and what it transfers out. */
  datatype Response = Response(vault: Vault, subs: seq<ReplyId>, paid: Amounts)

  type Outcome = Result<Response, Error>

  // ---- Sums and orderings over the tracked orders ----

  predicate IsLeast(ids: set<OrderId>, id: OrderId) { id in ids && forall other :: other in ids ==> id <= other }

  function Least(ids: set<OrderId>): (id: OrderId)
    requires ids != {}
    ensures IsLeast(ids, id)
  {
    LeastExists(ids);
    var id :| IsLeast(ids, id);
    id
  }

  lemma LeastExists(ids: set<OrderId>)
    requires ids != {}
    ensures exists id :: IsLeast(ids, id)
  {
    var id := FindLeast(ids);
  }

  lemma FindLeast(ids: set<OrderId>) returns (least: OrderId)
    requires ids != {}
    ensures IsLeast(ids, least)
  {
    var first :| first in ids;
    var rest := ids - {first};
    assert forall id :: id in ids ==> id == first || id in rest;
    least := first;
    if rest != {} {
      var other := FindLeast(rest);
      least := Min(first, other);
    }
  }

  /** Storage iteration in ascending key order. */
  function Ascending(ids: set<OrderId>): (listed: seq<OrderId>)
    ensures forall id :: id in listed <==> id in ids
    ensures forall i, j :: 0 <= i < j < |listed| ==> listed[i] < listed[j]
  {
    if ids == {} then []
    else
      var id := Least(ids);
      [id] + Ascending(ids - {id})
  }

  function FirstTracked(v: Vault, limit: nat): (listed: seq<OrderId>)
    ensures forall id :: id in listed ==> id in v.orders
    ensures forall i, j :: 0 <= i < j < |listed| ==> listed[i] < listed[j]
  {
    var all := Ascending(v.orders.Keys);
    all[..Min(limit, |all|)]
  }

  /** Recorded remaining of the listed orders, by the token they escrow. */
  function Escrow(orders: map<OrderId, GridOrder>, listed: seq<OrderId>): Amounts
    requires forall id :: id in listed ==> id in orders
  {
    if listed == [] then Nothing()
    else
      var last := |listed| - 1;
      var o := orders[listed[last]];
      Escrow(orders, listed[..last]).Plus(Just(o.side.Input(), o.remaining))
  }

  // ---- Queries on the pair ----

  datatype Status = OnBook(order: LimitOrder) | ParkedRefund(refund: Refund) | Gone

  /** `LimitOrder`, then `ExpiredLimitRefund` when the first finds nothing. */
  function StatusOf(p: Pair, id: OrderId): Status
  {
    if id in p.active then OnBook(p.active[id])
    else if id in p.parked then ParkedRefund(p.parked[id])
    else Gone
  }

  /** `validate_order`. */
  predicate MatchesActive(self: Address, o: GridOrder, onChain: LimitOrder)
  {
    onChain.owner == self && onChain.side == o.side && onChain.price == o.price && onChain.remaining <= o.remaining
  }

  predicate MatchesParked(self: Address, o: GridOrder, refund: Refund)
  {
    refund.owner == self && refund.side == o.side && refund.remaining <= o.remaining
  }

  // ---- Placement ----

  function SideRungs(rungs: seq<Rung>, side: Side): (indices: seq<nat>)
    ensures forall i :: i in indices ==> i < |rungs| && rungs[i].side == Some(side)
  {
    if rungs == [] then []
    else
      var last := |rungs| - 1;
      SideRungs(rungs[..last], side) + (if rungs[last].side == Some(side) then [last] else [])
  }

  /** `add_placement`: moves the gross out of the free balance and counts the rungs as active before the
      pair has seen the orders. */
  function AddPlacement(c: Params, v: Vault, side: Side, rungs: seq<nat>, each: nat): Response
    requires each * |rungs| <= v.free.Get(side.Input())
  {
    if each == 0 || rungs == [] || v.activeOrders + |rungs| > c.maxActive then Response(v, [], Nothing())
    else
      var token := side.Input();
      Response(
        v.(free := v.free.Put(token, v.free.Get(token) - each * |rungs|),
           activeOrders := v.activeOrders + |rungs|,
           placements := v.placements[v.nextReply := PlacementPlan(side, rungs, each)],
           nextReply := v.nextReply + 1),
        [v.nextReply], Nothing())
  }

  function AllocateSide(c: Params, v: Vault, side: Side): Outcome
  {
    var rungs := SideRungs(c.rungs, side);
    if rungs == [] then Err(EmptySide)
    else Ok(AddPlacement(c, v, side, rungs, Floor(v.free.Get(side.Input()), |rungs|)))
  }

  function DepositShares(amount: nat, token: Token, price: nat): Option<nat>
  {
    if token == Token0 then Some(amount) else CheckedRatio(amount, ONE, price)
  }

  /** `execute_receive`; `actual` is the vault's balance of the token, deposit included. */
  function Receive(c: Params, v: Vault, actual: nat, sender: Address, token: Token, amount: nat): Outcome
  {
    if v.mode != Active then Err(InvalidMode)
    else if amount == 0 then Err(ZeroAmount)
    else if sender != c.owner then Err(Unauthorized)
    else if actual != v.free.Get(token) + amount then Err(UnsupportedTokenBehavior)
    else
      var minted := DepositShares(amount, token, c.referencePrice);
      if minted.None? then Err(ArithmeticOutOfRange)
      else if minted.value == 0 then Err(ZeroAmount)
      else
        AllocateSide(
          c,
          v.(free := v.free.Put(token, actual), total := v.total + minted.value,
             shares := Credit(v.shares, sender, minted.value)),
          if token == Token0 then Ask else Bid)
  }

  function Allocate(c: Params, v: Vault, sender: Address): Outcome
  {
    if v.mode != Active then Err(InvalidMode)
    else if sender != c.owner then Err(Unauthorized)
    else
      var bids := AllocateSide(c, v, Bid);
      if bids.Err? then bids
      else
        var asks := AllocateSide(c, bids.value.vault, Ask);
        if asks.Err? then asks
        else if bids.value.subs + asks.value.subs == [] then Err(NothingToAllocate)
        else Ok(Response(asks.value.vault, bids.value.subs + asks.value.subs, Nothing()))
  }

  // ---- Confirmable cancel and claim pages ----

  /** `add_confirmable_pages` for one kind: chunks of at most `limit`, one reply id each. */
  function AddPages(v: Vault, kind: PageKind, entries: seq<PageEntry>, limit: nat): (r: Response)
    requires limit > 0
    ensures r.paid == Nothing()
    decreases |entries|
  {
    if entries == [] then Response(v, [], Nothing())
    else
      var n := Min(limit, |entries|);
      var v1 := v.(pages := v.pages[v.nextReply := PendingPage(kind, entries[..n])], nextReply := v.nextReply + 1);
      var rest := AddPages(v1, kind, entries[n..], limit);
      Response(rest.vault, [v.nextReply] + rest.subs, Nothing())
  }

  function AddConfirmablePages(v: Vault, cancels: seq<PageEntry>, claims: seq<PageEntry>, limit: nat): Response
  {
    var first := AddPages(v, Cancel, cancels, Max(limit, 1));
    var second := AddPages(first.vault, Claim, claims, Max(limit, 1));
    Response(second.vault, first.subs + second.subs, Nothing())
  }

  /** The success branch of `handle_pending_page`, entry by entry. */
  function ConfirmEntries(v: Vault, kind: PageKind, entries: seq<PageEntry>): Vault
  {
    if entries == [] then v
    else
      var last := |entries| - 1;
      ConfirmEntry(ConfirmEntries(v, kind, entries[..last]), kind, entries[last])
  }

  function ConfirmEntry(v: Vault, kind: PageKind, e: PageEntry): Vault
  {
    var cancelled :=
      if kind == Cancel && e.id in v.orders then
        var o := v.orders[e.id];
        v.cancelled[e.id := CancelledOrder(o.rung, o.side, o.price, e.refund)]
      else v.cancelled;
    v.(free := v.free.Put(e.token, v.free.Get(e.token) + e.refund), cancelled := cancelled, orders := v.orders - {e.id})
  }

  function HandlePage(v: Vault, reply: ReplyId, succeeded: bool): Outcome
    requires reply in v.pages
  {
    var page := v.pages[reply];
    var settled := if succeeded then ConfirmEntries(v, page.kind, page.entries) else v;
    var removed := if succeeded then |page.entries| else 0;
    if removed > v.activeOrders then Err(InvalidOrder)
    else Ok(Response(settled.(activeOrders := v.activeOrders - removed, pages := settled.pages - {reply}), [],
      Nothing()))
  }

  // ---- Placement replies ----

  /** What a submessage came back with. A successful placement reports the ids it placed. */
  datatype SubResult = Failed | PageDone | Placed(ids: seq<OrderId>)

  function RestorePlacement(v: Vault, reply: ReplyId): Outcome
    requires reply in v.placements
  {
    var plan := v.placements[reply];
    var token := plan.side.Input();
    if v.activeOrders == 0 then Err(InvalidOrder)
    else
      Ok(Response(
           v.(free := v.free.Put(token, v.free.Get(token) + plan.each), activeOrders := v.activeOrders - 1,
              placements := v.placements - {reply}),
           [], Nothing()))
  }

  /** Tracks the reported ids one by one against the rungs they were planned for. */
  function RecordOrders(c: Params, orders: map<OrderId, GridOrder>, p: Pair, plan: PlacementPlan, ids: seq<OrderId>)
    : Result<map<OrderId, GridOrder>, Error>
    requires |ids| <= |plan.rungs|
  {
    if ids == [] then Ok(orders)
    else
      var last := |ids| - 1;
      var earlier := RecordOrders(c, orders, p, plan, ids[..last]);
      if earlier.Err? then earlier else RecordOrder(c, earlier.value, p, plan, plan.rungs[last], ids[last])
  }

  function RecordOrder(c: Params, orders: map<OrderId, GridOrder>, p: Pair, plan: PlacementPlan, rung: nat, id: OrderId)
    : Result<map<OrderId, GridOrder>, Error>
  {
    if id in orders then Err(InvalidPlacementReply)
    else if id !in p.active || rung >= |c.rungs| then Err(NotFound)
    else
      var onChain := p.active[id];
      if onChain.owner != c.self || onChain.side != plan.side || onChain.price != c.rungs[rung].price
         || onChain.remaining > plan.each then Err(InvalidOrder)
      else Ok(orders[id := GridOrder(rung, plan.side, onChain.price, onChain.remaining)])
  }

  /** `reply`. */
  function Reply(c: Params, v: Vault, p: Pair, reply: ReplyId, result: SubResult): Outcome
  {
    if reply in v.pages then HandlePage(v, reply, result != Failed)
    else if reply !in v.placements then Err(UnknownReply)
    else
      var plan := v.placements[reply];
      if result == Failed then
        if |plan.rungs| == 1 then RestorePlacement(v, reply) else Err(PlacementFailed)
      else
        var ids := if result.Placed? then result.ids else [];
        if ids == [] && |plan.rungs| == 1 then RestorePlacement(v, reply)
        else if |ids| != |plan.rungs| then Err(InvalidPlacementReply)
        else
          var recorded := RecordOrders(c, v.orders, p, plan, ids);
          if recorded.Err? then Err(recorded.error)
          else Ok(Response(v.(orders := recorded.value, placements := v.placements - {reply}), [], Nothing()))
  }

  // ---- Reconcile ----

  /** `sync_free_balances`: the balances become the real ones; the surplus is returned. */
  function Sync(v: Vault, actual: Amounts): Option<(Vault, Amounts)>
  {
    if !actual.Covers(v.free) then None else Some((v.(free := actual), actual.Minus(v.free)))
  }

  /** The four ways reconcile can find a tracked order. */
  datatype Found = Resting | Parked | Cancelled | Executed

  datatype Inspection = Inspection(found: Found, current: nat, terminal: bool, parked: nat)

  /** What the pair says about one tracked order; None when its fields do not match. */
  function Inspect(c: Params, v: Vault, o: GridOrder, p: Pair, id: OrderId): Option<Inspection>
  {
    match StatusOf(p, id)
    case OnBook(onChain) =>
      if MatchesActive(c.self, o, onChain) then
        Some(Inspection(Resting, onChain.remaining, onChain.remaining == 0, 0))
      else None
    case ParkedRefund(refund) =>
      if MatchesParked(c.self, o, refund) then Some(Inspection(Parked, refund.remaining, true, refund.remaining))
        else None
    case Gone => Some(Inspection(if id in v.cancelled then Cancelled else Executed, 0, true, 0))
  }

  /** Progress of reconcile's loop over the requested ids. */
  datatype Scan = Scan(
    orders: map<OrderId, GridOrder>, activeOrders: nat, claims: seq<PageEntry>, changed: nat,
    executedSeen: nat, cancelledSeen: nat)

  function ScanOrders(c: Params, v: Vault, p: Pair, ids: seq<OrderId>): Result<Scan, Error>
  {
    if ids == [] then Ok(Scan(v.orders, v.activeOrders, [], 0, 0, 0))
    else
      var last := |ids| - 1;
      var earlier := ScanOrders(c, v, p, ids[..last]);
      if earlier.Err? then earlier
      else if ids[last] in ids[..last] then Err(InvalidFillReport)
      else ScanOrder(c, v, earlier.value, p, ids[last])
  }

  function ScanOrder(c: Params, v: Vault, s: Scan, p: Pair, id: OrderId): Result<Scan, Error>
  {
    if id !in s.orders then Err(NotFound)
    else
      var o := s.orders[id];
      var seen := Inspect(c, v, o, p, id);
      if seen.None? then Err(InvalidOrder)
      else
        var Inspection(found, current, terminal, parked) := seen.value;
        var s1 := s.(changed := s.changed + (if current < o.remaining || terminal then 1 else 0),
                     executedSeen := s.executedSeen + (if found == Executed then 1 else 0),
                     cancelledSeen := s.cancelledSeen + (if found == Cancelled then 1 else 0));
        if !terminal then Ok(s1.(orders := s.orders[id := o.(remaining := current)]))
        else if parked > 0 then Ok(s1.(claims := s.claims + [PageEntry(id, o.side.Input(), parked)]))
        else if s.activeOrders == 0 then Err(InvalidOrder)
        else Ok(s1.(orders := s.orders - {id}, activeOrders := s.activeOrders - 1))
  }

  /** `charge_fee` on the credited amounts, at the reference price, against free and escrowed assets. */
  function ChargeFee(c: Params, v: Vault, credited: Amounts, feeBps: nat): Result<Vault, Error>
    requires c.Valid()
  {
    if c.collector.None? || feeBps == 0 then Ok(v)
    else
      var holdings := v.free.Plus(Escrow(v.orders, Ascending(v.orders.Keys)));
      var credited1 := CheckedRatio(credited.t1, ONE, c.referencePrice);
      var holdings1 := CheckedRatio(holdings.t1, ONE, c.referencePrice);
      if credited1.None? || holdings1.None? then Err(ArithmeticOutOfRange)
      else
        var fee := Floor((credited.t0 + credited1.value) * feeBps, BPS);
        var minted := FeeMint.FeeShares(fee, holdings.t0 + holdings1.value, v.total);
        if minted == 0 then Ok(v)
        else Ok(v.(shares := Credit(v.shares, c.collector.value, minted), total := v.total + minted))
  }

  /** `execute_reconcile`. */
  function Reconcile(c: Params, v: Vault, p: Pair, actual: Amounts, ids: seq<OrderId>, feeBps: nat, limit: nat): Outcome
    requires c.Valid()
  {
    if v.mode != Active then Err(InvalidMode)
    else if ids == [] || |ids| > c.maxPerReconcile then Err(InvalidFillReport)
    else
      var synced := Sync(v, actual);
      if synced.None? then Err(UnsupportedTokenBehavior)
      else
        var (v1, credited) := synced.value;
        var scanned := ScanOrders(c, v1, p, ids);
        if scanned.Err? then Err(scanned.error)
        else if scanned.value.changed == 0 && credited == Nothing() then Err(NothingToReconcile)
        else
          var s := scanned.value;
          var charged := ChargeFee(c, v1.(orders := s.orders, activeOrders := s.activeOrders), credited, feeBps);
          if charged.Err? then Err(charged.error)
          else Ok(AddConfirmablePages(charged.value, [], s.claims, limit))
  }

  function SyncBalances(c: Params, v: Vault, actual: Amounts, sender: Address): Outcome
  {
    if sender != c.owner then Err(Unauthorized)
    else
      var synced := Sync(v, actual);
      if synced.None? then Err(UnsupportedTokenBehavior) else Ok(Response(synced.value.0, [], Nothing()))
  }

  /** `execute_recover_order`: adopts an untracked order of the vault's that the pair still knows. */
  function RecoverOrder(c: Params, v: Vault, p: Pair, sender: Address, id: OrderId, rung: nat, limit: nat): Outcome
  {
    if sender != c.owner then Err(Unauthorized)
    else if id in v.orders || id in v.cancelled then Err(InvalidOrder)
    else if rung >= |c.rungs| then Err(NotFound)
    else if c.rungs[rung].side.None? then Err(InvalidOrder)
    else
      var side, price := c.rungs[rung].side.value, c.rungs[rung].price;
      match StatusOf(p, id)
      case Gone => Err(OrderStatusUnverifiable)
      case OnBook(o) =>
        if !MatchesActive(c.self, GridOrder(rung, side, price, o.remaining), o)
          || o.remaining == 0 then Err(InvalidOrder)
        else Ok(Response(Track(v, id, GridOrder(rung, side, price, o.remaining)), [], Nothing()))
      case ParkedRefund(r) =>
        if r.owner != c.self || r.side != side || r.remaining == 0 then Err(InvalidOrder)
        else
          Ok(AddConfirmablePages(Track(v, id, GridOrder(rung, side, price, r.remaining)),
                                 [], [PageEntry(id, side.Input(), r.remaining)], limit))
  }

  function Track(v: Vault, id: OrderId, o: GridOrder): Vault
  {
    v.(orders := v.orders[id := o], activeOrders := v.activeOrders + 1)
  }

  // ---- Cancellation ----

  /** Cancel and claim entries for the listed orders. `settledOnly` is `execute_cancel_all`, which
      refuses anything but untouched resting orders; emergency cancel also takes partial fills and
      parked refunds. */
  function CancelEntries(c: Params, v: Vault, p: Pair, listed: seq<OrderId>, settledOnly: bool)
    : Result<(seq<PageEntry>, seq<PageEntry>), Error>
    requires forall id :: id in listed ==> id in v.orders
  {
    if listed == [] then Ok(([], []))
    else
      var last := |listed| - 1;
      var earlier := CancelEntries(c, v, p, listed[..last], settledOnly);
      if earlier.Err? then earlier
      else
        var (cancels, claims) := earlier.value;
        var id := listed[last];
        var o := v.orders[id];
        match StatusOf(p, id)
        case OnBook(onChain) =>
          if !MatchesActive(c.self, o, onChain) then Err(InvalidOrder)
          else if settledOnly && onChain.remaining != o.remaining then Err(UnsettledOrder)
          else Ok((cancels + [PageEntry(id, o.side.Input(), onChain.remaining)], claims))
        case ParkedRefund(refund) =>
          if settledOnly then Err(UnsettledOrder)
          else if !MatchesParked(c.self, o, refund) then Err(InvalidOrder)
          else Ok((cancels, claims + [PageEntry(id, o.side.Input(), refund.remaining)]))
        case Gone => Err(if settledOnly then UnsettledOrder else OrderStatusUnverifiable)
  }

  function CancelAll(c: Params, v: Vault, p: Pair, sender: Address, limit: nat): Outcome
  {
    if sender != c.owner then Err(Unauthorized)
    else
      var entries := CancelEntries(c, v, p, FirstTracked(v, c.maxPerReconcile), true);
      if entries.Err? then Err(entries.error) else Ok(AddConfirmablePages(v, entries.value.0, [], limit))
  }

  function EmergencyCancel(c: Params, v: Vault, p: Pair, sender: Address, limit: nat): Outcome
  {
    if v.mode != Exit then Err(InvalidMode)
    else if sender != c.owner then Err(Unauthorized)
    else
      var entries := CancelEntries(c, v, p, FirstTracked(v, c.maxPerReconcile), false);
      if entries.Err? then Err(entries.error) else Ok(AddConfirmablePages(v, entries.value.0, entries.value.1, limit))
  }

  // ---- Withdrawal ----

  /** Burns `burned` shares of `holder` for their claim on `balances`, which become the free balances. */
  function PayOut(v: Vault, balances: Amounts, holder: Address, burned: nat): Response
    requires 0 < burned <= v.total && burned <= Balance(v.shares, holder)
  {
    var paid := NavShares.Payout(balances, burned, v.total);
    NavShares.PayoutCovered(balances, burned, v.total);
    Response(
      v.(free := balances.Minus(paid), total := v.total - burned,
         shares := v.shares[holder := Balance(v.shares, holder) - burned]),
      [], paid)
  }

  function Withdraw(c: Params, v: Vault, sender: Address, burned: nat): Outcome
  {
    if v.mode == Exit then Err(InvalidMode)
    else if sender != c.owner then Err(Unauthorized)
    else if v.activeOrders != 0 then Err(ActiveOrders)
    else if burned == 0 then Err(ZeroAmount)
    else if burned > Balance(v.shares, sender) || burned > v.total then Err(InsufficientShares)
    else Ok(PayOut(v, v.free, sender, burned))
  }

  /** The collector burns all it holds. The contract divides by the total without comparing, so a holding
      above the total would abort as an overflow. */
  function RedeemShares(c: Params, v: Vault, sender: Address): Outcome
  {
    var burned := Balance(v.shares, sender);
    if c.collector != Some(sender) then Err(Unauthorized)
    else if burned == 0 then Err(InsufficientShares)
    else if v.activeOrders != 0 then Err(ActiveOrders)
    else if burned > v.total then Err(ArithmeticOutOfRange)
    else Ok(PayOut(v, v.free, sender, burned))
  }

  /** Pays the owner's part of the real balances, keeps the rest as free, and resets the order count. */
  function EmergencyWithdraw(c: Params, v: Vault, actual: Amounts, sender: Address): Outcome
  {
    var burned := Balance(v.shares, c.owner);
    if v.mode != Exit then Err(InvalidMode)
    else if sender != c.owner then Err(Unauthorized)
    else if v.orders != map[] then Err(ExitOrdersRemain)
    else if burned == 0 || burned > v.total then Err(InsufficientShares)
    else
      var r := PayOut(v, actual, c.owner, burned);
      Ok(r.(vault := r.vault.(activeOrders := 0)))
  }

  function SetMode(c: Params, v: Vault, sender: Address, mode: Mode): Outcome
  {
    var allowed := if mode == Exit then c.owner else c.admin;
    var from := if mode == Active then v.mode == Paused else if mode == Paused then v.mode == Active
      else v.mode != Exit;
    if sender != allowed then Err(Unauthorized)
    else if !from then Err(InvalidMode)
    else Ok(Response(v.(mode := mode), [], Nothing()))
  }

  // ---- Solvency query ----

  datatype Solvency = Solvency(
    expected: Amounts, actual: Amounts, active: nat, parked: nat, executed: nat, cancelled: nat, unverifiable: nat)

  function CheckSolvency(c: Params, v: Vault, p: Pair, balances: Amounts): Solvency
  {
    SolvencyOver(c, v, p, Solvency(v.free, balances, 0, 0, 0, 0, 0), Ascending(v.orders.Keys))
  }

  function SolvencyOver(c: Params, v: Vault, p: Pair, start: Solvency, listed: seq<OrderId>): Solvency
    requires forall id :: id in listed ==> id in v.orders
  {
    if listed == [] then start
    else
      var last := |listed| - 1;
      SolvencyWith(c, v, p, SolvencyOver(c, v, p, start, listed[..last]), listed[last])
  }

  function SolvencyWith(c: Params, v: Vault, p: Pair, s: Solvency, id: OrderId): Solvency
    requires id in v.orders
  {
    var o := v.orders[id];
    var token := o.side.Input();
    var s1 := s.(expected := s.expected.Plus(Just(token, o.remaining)));
    match StatusOf(p, id)
    case OnBook(onChain) =>
      if MatchesActive(c.self, o, onChain) then
        s1.(actual := s.actual.Plus(Just(token, onChain.remaining)), active := s.active + 1)
      else s1.(unverifiable := s.unverifiable + 1)
    case ParkedRefund(refund) =>
      if MatchesParked(c.self, o, refund) then
        s1.(actual := s.actual.Plus(Just(token, refund.remaining)), parked := s.parked + 1)
      else s1.(unverifiable := s.unverifiable + 1)
    case Gone =>
      if id in v.cancelled then s1.(cancelled := s.cancelled + 1) else s1.(executed := s.executed + 1)
  }
}
