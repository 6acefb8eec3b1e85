/** The limit-grid vault on its chain: transactions made of a handler, its submessages and their replies,
    run against a pair that fills, expires and parks orders in between. */
module LimitChain {
  import opened Arithmetic
  import opened Tokens
  import opened Ledger
  import opened LimitGrid

  /** Everything a revert restores: vault storage, the pair, the vault's real token balances, and how
      much of them arrived since the vault last synchronised (`credits`, kept by nobody on chain). */
  datatype Books = Books(v: Vault, p: Pair, bal: Amounts, credits: Amounts)

  datatype Flight = Landed | Awaiting(reply: ReplyId, result: SubResult)

  /** `queue` holds the reply ids of submessages still to run; between a submessage and its reply the
      result is in `flight`. With nothing queued and nothing in flight the transaction is over. */
  datatype World = World(now: Books, saved: Books, queue: seq<ReplyId>, flight: Flight) {
    predicate AtRest() { queue == [] && flight == Landed }
  }

  datatype Call =
    | CallReceive(sender: Address, token: Token, amount: nat)
    | CallAllocate(sender: Address)
    | CallReconcile(ids: seq<OrderId>, feeBps: nat, limit: nat)
    | CallSync(sender: Address)
    | CallRecover(sender: Address, id: OrderId, rung: nat, limit: nat)
    | CallCancelAll(sender: Address, limit: nat)
    | CallEmergencyCancel(sender: Address, limit: nat)
    | CallWithdraw(sender: Address, burned: nat)
    | CallRedeem(sender: Address)
    | CallEmergencyWithdraw(sender: Address)
    | CallSetMode(sender: Address, mode: Mode)

  function Handle(c: Params, b: Books, call: Call): Outcome
    requires c.Valid()
  {
    match call
    case CallReceive(sender, token, amount) => Receive(c, b.v, b.bal.Get(token) + amount, sender, token, amount)
    case CallAllocate(sender) => Allocate(c, b.v, sender)
    case CallReconcile(ids, feeBps, limit) => Reconcile(c, b.v, b.p, b.bal, ids, feeBps, limit)
    case CallSync(sender) => SyncBalances(c, b.v, b.bal, sender)
    case CallRecover(sender, id, rung, limit) => RecoverOrder(c, b.v, b.p, sender, id, rung, limit)
    case CallCancelAll(sender, limit) => CancelAll(c, b.v, b.p, sender, limit)
    case CallEmergencyCancel(sender, limit) => EmergencyCancel(c, b.v, b.p, sender, limit)
    case CallWithdraw(sender, burned) => Withdraw(c, b.v, sender, burned)
    case CallRedeem(sender) => RedeemShares(c, b.v, sender)
    case CallEmergencyWithdraw(sender) => EmergencyWithdraw(c, b.v, b.bal, sender)
    case CallSetMode(sender, mode) => SetMode(c, b.v, sender, mode)
  }

  /** Tokens the message itself brings in. */
  function Brought(call: Call): Amounts { if call.CallReceive? then Just(call.token, call.amount) else Nothing() }

  /** Calls after which the free balances are the real ones. */
  predicate Synchronises(call: Call) { call.CallReconcile? || call.CallSync? || call.CallEmergencyWithdraw? }

  /** The books when a handler has succeeded and its plain transfers have gone out. */
  function AfterHandler(b: Books, call: Call, r: Response): Books
    requires b.bal.Plus(Brought(call)).Covers(r.paid)
  {
    Books(r.vault, b.p, b.bal.Plus(Brought(call)).Minus(r.paid), if Synchronises(call) then Nothing() else b.credits)
  }

  /** What the pair does with a submessage. `proceeds` covers a new order filled at once. */
  datatype PairOutcome = Fails | Succeeds(placed: seq<LimitOrder>, proceeds: nat)

  datatype Event =
    | Start(call: Call)
    | RunSub(outcome: PairOutcome)
    | Deliver
    | Fill(id: OrderId, taken: nat, proceeds: nat, keep: bool)
    | Drop(dropped: OrderId)
    | Expire(expired: OrderId)
    | Place(order: LimitOrder)
    | Donate(gift: Amounts)

  // ---- The pair's side of a submessage ----

  function EntryIds(entries: seq<PageEntry>): (ids: set<OrderId>)
    ensures forall id :: id in ids <==> exists i :: 0 <= i < |entries| && entries[i].id == id
  {
    set i | 0 <= i < |entries| :: entries[i].id
  }

  /** What the pair pays out in one token: each cancelled or claimed order's own remaining, in the token
      its side escrows. */
  function PairPays(p: Pair, kind: PageKind, entries: seq<PageEntry>, t: Token): nat
    requires forall e :: e in entries ==> if kind == Cancel then e.id in p.active else e.id in p.parked
  {
    if entries == [] then 0
    else
      var last := |entries| - 1;
      var id := entries[last].id;
      assert entries[last] in entries;
      PairPays(p, kind, entries[..last], t)
      + if kind == Cancel then In(t, p.active[id].side, p.active[id].remaining)
        else In(t, p.parked[id].side, p.parked[id].remaining)
  }

  /** The part of an order's amount that is token `t`. */
  function In(t: Token, side: Side, amount: nat): nat { if side.Input() == t then amount else 0 }

  function BothTokens(p: Pair, kind: PageKind, entries: seq<PageEntry>): Amounts
    requires forall e :: e in entries ==> if kind == Cancel then e.id in p.active else e.id in p.parked
  {
    Amounts(PairPays(p, kind, entries, Token0), PairPays(p, kind, entries, Token1))
  }

  /** Ids are handed out in order and never reused. */
  function PlaceOne(p: Pair, o: LimitOrder): Pair
  {
    p.(active := p.active[p.nextId := o], nextId := p.nextId + 1)
  }

  function PlaceAll(p: Pair, placed: seq<LimitOrder>): Pair
    decreases |placed|
  {
    if placed == [] then p else PlaceAll(PlaceOne(p, placed[0]), placed[1..])
  }

  /** Runs the submessage with this reply id: the pair's new state, the balances, the credits and the
      result. Cancelling or claiming needs every id to be there and to belong to the vault. */
  function Execute(c: Params, b: Books, reply: ReplyId, outcome: PairOutcome): (Books, SubResult)
  {
    if outcome == Fails then (b, Failed)
    else if reply in b.v.pages then
      var page := b.v.pages[reply];
      var ids := EntryIds(page.entries);
      assert forall e :: e in page.entries ==> e.id in ids;
      if page.kind == Cancel then
        if ids <= b.p.active.Keys && forall id :: id in ids ==> b.p.active[id].owner == c.self then
          (b.(p := b.p.(active := b.p.active - ids), bal := b.bal.Plus(BothTokens(b.p, Cancel, page.entries))),
            PageDone)
        else (b, Failed)
      else if ids <= b.p.parked.Keys && forall id :: id in ids ==> b.p.parked[id].owner == c.self then
        (b.(p := b.p.(parked := b.p.parked - ids), bal := b.bal.Plus(BothTokens(b.p, Claim, page.entries))), PageDone)
      else (b, Failed)
    else if reply in b.v.placements then
      var plan := b.v.placements[reply];
      if outcome.placed == [] then (b, Placed([]))  // skipped, the sent tokens are refunded
      else if b.bal.Get(plan.side.Input()) < plan.Gross() then (b, Failed)
      else
        var spent := b.bal.Put(plan.side.Input(), b.bal.Get(plan.side.Input()) - plan.Gross());
        var extra := Just(plan.side.Input().Other(), outcome.proceeds);
        var ids := seq(|outcome.placed|, i => b.p.nextId + i);
        (Books(b.v, PlaceAll(b.p, outcome.placed), spent.Plus(extra), b.credits.Plus(extra)),
         Placed(ids))
    else (b, Failed)
  }

  // ---- One event ----

  function Step(c: Params, w: World, e: Event): World
    requires c.Valid()
  {
    match e
    case Start(call) =>
      if !w.AtRest() then w
      else
        var r := Handle(c, w.now, call);
        if r.Err? || !w.now.bal.Plus(Brought(call)).Covers(r.value.paid) then w
        else World(AfterHandler(w.now, call, r.value), w.now, r.value.subs, Landed)
    case RunSub(outcome) =>
      if w.queue == [] || w.flight != Landed then w
      else
        var (after, result) := Execute(c, w.now, w.queue[0], outcome);
        World(after, w.saved, w.queue[1..], Awaiting(w.queue[0], result))
    case Deliver =>
      if w.flight == Landed then w
      else
        var r := Reply(c, w.now.v, w.now.p, w.flight.reply, w.flight.result);
        if r.Err? then World(w.saved, w.saved, [], Landed)
        else World(w.now.(v := r.value.vault), w.saved, w.queue, Landed)
    case _ => if w.AtRest() then w.(now := PairStep(c, w.now, e)) else w
  }

  /** What the pair, other traders and donors do between the vault's transactions. */
  function PairStep(c: Params, b: Books, e: Event): Books
  {
    match e
    case Fill(id, taken, proceeds, keep) =>
      if id !in b.p.active || taken == 0 || taken > b.p.active[id].remaining then b
      else
        var o := b.p.active[id];
        var left := o.remaining - taken;
        var p1 := if left == 0 && !keep then b.p.(active := b.p.active - {id}, executed := b.p.executed + {id})
                  else b.p.(active := b.p.active[id := o.(remaining := left)]);
        var got := if o.owner == c.self then Just(o.side.Input().Other(), proceeds) else Nothing();
        Books(b.v, p1, b.bal.Plus(got), b.credits.Plus(got))
    case Drop(id) =>
      if id !in b.p.active || b.p.active[id].remaining != 0 then b
      else b.(p := b.p.(active := b.p.active - {id}, executed := b.p.executed + {id}))
    case Expire(id) =>
      if id !in b.p.active then b
      else
        var o := b.p.active[id];
        b.(p := b.p.(active := b.p.active - {id}, parked := b.p.parked[id := Refund(o.owner, o.side, o.remaining)]))
    case Place(o) =>
      b.(p := PlaceOne(b.p, o))
    case Donate(gift) => b.(bal := b.bal.Plus(gift), credits := b.credits.Plus(gift))
    case _ => b
  }

  function Run(c: Params, w: World, events: seq<Event>): World
    requires c.Valid()
    decreases |events|
  {
    if events == [] then w else Run(c, Step(c, w, events[0]), events[1..])
  }

  // ---- The invariant ----

  ghost predicate PairOk(p: Pair)
  {
    p.active.Keys !! p.parked.Keys
    && p.executed !! p.active.Keys && p.executed !! p.parked.Keys
    && (forall id :: id in p.active || id in p.parked || id in p.executed ==> id < p.nextId)
  }

  /** A tracked order agrees with the pair, and one the pair no longer reports was filled to zero, unless
      its cancel or claim has just succeeded and awaits its reply (`settling`). */
  ghost predicate Agrees(c: Params, orders: map<OrderId, GridOrder>, p: Pair, settling: set<OrderId>)
  {
    forall id :: id in orders ==>
      id < p.nextId
      && (id in p.active ==> MatchesActive(c.self, orders[id], p.active[id]))
      && (id in p.parked ==> MatchesParked(c.self, orders[id], p.parked[id]))
      && (id in p.active || id in p.parked || id in p.executed || id in settling)
  }

  /** Cancelled ids are off the pair for good and no longer tracked. */
  ghost predicate CancelledGone(orders: map<OrderId, GridOrder>, cancelled: map<OrderId, CancelledOrder>, p: Pair)
  {
    forall id :: id in cancelled ==> id < p.nextId && id !in p.active && id !in p.parked && id !in orders
  }

  /** A page entry together with its page's kind. */
  datatype Due = Due(kind: PageKind, entry: PageEntry)

  function Tagged(kind: PageKind, entries: seq<PageEntry>): (dues: seq<Due>)
    ensures |dues| == |entries| && forall i :: 0 <= i < |dues| ==> dues[i] == Due(kind, entries[i])
  {
    seq(|entries|, i requires 0 <= i < |entries| => Due(kind, entries[i]))
  }

  /** Entries of the pages behind the given replies, in order. */
  function Dues(pages: map<ReplyId, PendingPage>, replies: seq<ReplyId>): seq<Due>
  {
    if replies == [] then []
    else
      (if replies[0] in pages then Tagged(pages[replies[0]].kind, pages[replies[0]].entries) else [])
      + Dues(pages, replies[1..])
  }

  ghost predicate Distinct(dues: seq<Due>)
  {
    forall i, j :: 0 <= i < j < |dues| ==> dues[i].entry.id != dues[j].entry.id
  }

  ghost predicate Tracked(orders: map<OrderId, GridOrder>, d: Due)
  {
    d.entry.id in orders && d.entry.token == orders[d.entry.id].side.Input()
  }

  /** The pair still holds what the entry says it will return. */
  ghost predicate Payable(p: Pair, d: Due)
  {
    if d.kind == Cancel then d.entry.id in p.active && p.active[d.entry.id].remaining == d.entry.refund
    else d.entry.id in p.parked && p.parked[d.entry.id].remaining == d.entry.refund
  }

  /** Gross of the placements behind the given replies, in one token. */
  function Gross(placements: map<ReplyId, PlacementPlan>, replies: seq<ReplyId>, t: Token): nat
  {
    if replies == [] then 0
    else GrossOf(placements, replies[0], t) + Gross(placements, replies[1..], t)
  }

  function GrossOf(placements: map<ReplyId, PlacementPlan>, reply: ReplyId, t: Token): nat
  {
    if reply in placements then In(t, placements[reply].side, placements[reply].Gross()) else 0
  }

  function RungsAwaiting(placements: map<ReplyId, PlacementPlan>, replies: seq<ReplyId>): nat
  {
    if replies == [] then 0
    else
      (if replies[0] in placements then |placements[replies[0]].rungs| else 0) + RungsAwaiting(placements, replies[1..])
  }

  function RefundSum(entries: seq<PageEntry>, t: Token): nat
  {
    if entries == [] then 0
    else
      var last := |entries| - 1;
      RefundSum(entries[..last], t) + if entries[last].token == t then entries[last].refund else 0
  }

  /** Replies still to come: the one in flight first. */
  function Outstanding(queue: seq<ReplyId>, flight: Flight): seq<ReplyId>
  {
    if flight == Landed then queue else [flight.reply] + queue
  }

  /** The outstanding replies are the last ids handed out, in order, each a page or a placement; nothing
      else is recorded as pending. */
  ghost predicate RepliesOk(
    pages: map<ReplyId, PendingPage>, placements: map<ReplyId, PlacementPlan>, nextReply: ReplyId, outs: seq<ReplyId>)
  {
    |outs| <= nextReply
    && (forall i :: 0 <= i < |outs| ==> outs[i] == nextReply - |outs| + i)
    && (forall r :: r in pages ==> r !in placements)
    && (forall r :: r in pages || r in placements <==> nextReply - |outs| <= r < nextReply)
  }

  /** Tokens that moved with the submessage in flight but not yet in the vault's records. */
  function InFlight(
    pages: map<ReplyId, PendingPage>, placements: map<ReplyId, PlacementPlan>, flight: Flight, t: Token): nat
  {
    if flight == Landed then 0
    else if flight.reply in pages then
      if flight.result == PageDone then RefundSum(pages[flight.reply].entries, t) else 0
    else if flight.result == Failed || flight.result == Placed([]) then GrossOf(placements, flight.reply, t)
    else 0
  }

  function Settling(pages: map<ReplyId, PendingPage>, flight: Flight): set<OrderId>
  {
    if flight != Landed && flight.reply in pages && flight.result == PageDone then EntryIds(pages[flight.reply].entries)
    else {}
  }

  /** What a result in flight says about the pair: a confirmed page's orders have left it, and reported
      placements are new to the vault. */
  ghost predicate FlightOk(v: Vault, p: Pair, flight: Flight)
  {
    flight != Landed ==>
      (flight.result == PageDone ==>
         flight.reply in v.pages
         && forall id :: id in EntryIds(v.pages[flight.reply].entries) ==> id !in p.active && id !in p.parked)
      && (flight.result.Placed? ==>
            flight.reply in v.placements
            && forall id :: id in flight.result.ids ==> id < p.nextId && id !in v.orders && id !in v.cancelled)
  }

  /** Custody: every token the vault really holds is a free balance, an arrival not yet synchronised, the
      gross of a placement whose submessage has not run, or in flight. */
  ghost predicate Custody(b: Books, queue: seq<ReplyId>, flight: Flight)
  {
    forall t: Token ::
      b.bal.Get(t) == b.v.free.Get(t) + b.credits.Get(t) + Gross(b.v.placements, queue, t)
                      + InFlight(b.v.pages, b.v.placements, flight, t)
  }

  /** Counting: `active_orders` is the tracked orders plus the rungs of placements awaiting reply. */
  ghost predicate Counted(v: Vault, outs: seq<ReplyId>)
  {
    v.activeOrders == |v.orders| + RungsAwaiting(v.placements, outs)
  }

  ghost predicate SharesOk(c: Params, shares: Shares, total: nat)
  {
    total == Sum(shares) && forall a :: a in shares ==> a == c.owner || c.collector == Some(a)
  }

  /** Vault records and pair agree. */
  ghost predicate Consistent(
    c: Params, orders: map<OrderId, GridOrder>, cancelled: map<OrderId, CancelledOrder>, p: Pair,
    settling: set<OrderId>)
  {
    PairOk(p) && Agrees(c, orders, p, settling) && CancelledGone(orders, cancelled, p)
  }

  /** Pending pages are pairwise-disjoint subsets of the tracked orders, and those not yet run will pay
      exactly what they say. */
  ghost predicate DuesOk(
    pages: map<ReplyId, PendingPage>, orders: map<OrderId, GridOrder>, p: Pair, queue: seq<ReplyId>, outs: seq<ReplyId>)
  {
    Distinct(Dues(pages, outs))
    && (forall d :: d in Dues(pages, outs) ==> Tracked(orders, d))
    && (forall d :: d in Dues(pages, queue) ==> Payable(p, d))
  }

  ghost predicate Inv(c: Params, b: Books, queue: seq<ReplyId>, flight: Flight)
  {
    var outs := Outstanding(queue, flight);
    Consistent(c, b.v.orders, b.v.cancelled, b.p, Settling(b.v.pages, flight))
    && RepliesOk(b.v.pages, b.v.placements, b.v.nextReply, outs)
    && DuesOk(b.v.pages, b.v.orders, b.p, queue, outs)
    && FlightOk(b.v, b.p, flight)
    && Custody(b, queue, flight)
    && Counted(b.v, outs)
    && SharesOk(c, b.v.shares, b.v.total)
  }

  /** Between transactions. */
  ghost predicate RestInv(c: Params, b: Books) { Inv(c, b, [], Landed) }

  ghost predicate WorldInv(c: Params, w: World)
  {
    Inv(c, w.now, w.queue, w.flight) && RestInv(c, w.saved)
  }

  /** A vault just created, on a pair in any state it can be in. */
  function Fresh(p: Pair): World
  {
    var v := Vault(Active, Nothing(), 0, 0, map[], map[], map[], map[], map[], 1);
    var b := Books(v, p, Nothing(), Nothing());
    World(b, b, [], Landed)
  }

  lemma FreshInv(c: Params, p: Pair)
    requires PairOk(p)
    ensures WorldInv(c, Fresh(p))
  {
  }
}
