/** Where fill proceeds go: kept beside a run, the proceeds and gifts that arrived since the vault last
    synchronised, which are exactly what it holds beyond its free balances. */
module LimitProceeds {
  import opened Tokens
  import opened LimitGrid
  import opened LimitChain
  import opened LimitTheorems

  /** Arrivals since the last synchronisation: proceeds of the vault's orders, the part of them that came
      from fills of one order, and gifts. */
  datatype Arrivals = Arrivals(proceeds: Amounts, fromOne: Amounts, gifts: Amounts) {
    function Sum(): Amounts { proceeds.Plus(gifts) }
  }

  function NoArrivals(): Arrivals { Arrivals(Nothing(), Nothing(), Nothing()) }

  /** As a world has its present and its saved books, so has the record of arrivals. */
  datatype Record = Record(now: Arrivals, saved: Arrivals)

  /** What a placement's submessage brings at once, when the pair executes it. */
  function AtOnce(b: Books, reply: ReplyId, outcome: PairOutcome): Amounts
  {
    if outcome.Succeeds? && reply !in b.v.pages && reply in b.v.placements && outcome.placed != []
       && b.bal.Get(b.v.placements[reply].side.Input()) >= b.v.placements[reply].Gross() then
      Just(b.v.placements[reply].side.Input().Other(), outcome.proceeds)
    else Nothing()
  }

  /** What a fill brings the vault. */
  function OfFill(c: Params, b: Books, id: OrderId, taken: nat, proceeds: nat): Amounts
  {
    if id in b.p.active && 0 < taken <= b.p.active[id].remaining && b.p.active[id].owner == c.self then
      Just(b.p.active[id].side.Input().Other(), proceeds)
    else Nothing()
  }

  /** The record after an event: a synchronising call starts it afresh, a revert brings the old one back. */
  function Note(c: Params, w: World, a: Record, e: Event, one: OrderId): Record
    requires c.Valid()
  {
    match e
    case Start(call) =>
      if !w.AtRest() then a
      else
        var r := Handle(c, w.now, call);
        if r.Err? || !w.now.bal.Plus(Brought(call)).Covers(r.value.paid) then a
        else Record(if Synchronises(call) then NoArrivals() else a.now, a.now)
    case RunSub(outcome) =>
      if w.queue == [] || w.flight != Landed then a
      else a.(now := a.now.(proceeds := a.now.proceeds.Plus(AtOnce(w.now, w.queue[0], outcome))))
    case Deliver =>
      if w.flight != Landed
        && Reply(c, w.now.v, w.now.p, w.flight.reply, w.flight.result).Err? then Record(a.saved, a.saved)
      else a
    case Fill(id, taken, proceeds, keep) =>
      if !w.AtRest() then a
      else
        var got := OfFill(c, w.now, id, taken, proceeds);
        a.(now := Arrivals(a.now.proceeds.Plus(got), a.now.fromOne.Plus(if id == one then got else Nothing()),
          a.now.gifts))
    case Donate(gift) => if w.AtRest() then a.(now := a.now.(gifts := a.now.gifts.Plus(gift))) else a
    case _ => a
  }

  function NoteAll(c: Params, w: World, a: Record, events: seq<Event>, one: OrderId): Record
    requires c.Valid()
    decreases |events|
  {
    if events == [] then a else NoteAll(c, Step(c, w, events[0]), Note(c, w, a, events[0], one), events[1..], one)
  }

  ghost predicate Accounted(w: World, a: Record)
  {
    w.now.credits == a.now.Sum() && w.saved.credits == a.saved.Sum()
    && a.now.proceeds.Covers(a.now.fromOne) && a.saved.proceeds.Covers(a.saved.fromOne)
  }

  lemma SubBrings(c: Params, b: Books, reply: ReplyId, outcome: PairOutcome)
    ensures Execute(c, b, reply, outcome).0.credits == b.credits.Plus(AtOnce(b, reply, outcome))
  {
    hide PlaceAll;
  }

  lemma PairStepBrings(c: Params, b: Books, e: Event)
    ensures PairStep(c, b, e).credits
            == match e
               case Fill(id, taken, proceeds, keep) => b.credits.Plus(OfFill(c, b, id, taken, proceeds))
               case Donate(gift) => b.credits.Plus(gift)
               case _ => b.credits
  {
  }

  lemma StepAccounts(c: Params, w: World, a: Record, e: Event, one: OrderId)
    requires c.Valid() && Accounted(w, a)
    ensures Accounted(Step(c, w, e), Note(c, w, a, e, one))
  {
    hide Handle, Execute, Reply, PairStep, AtOnce, OfFill;
    match e
    case Start(call) =>
    case RunSub(outcome) =>
      if w.queue != [] {
        SubBrings(c, w.now, w.queue[0], outcome);
      }
    case Deliver =>
    case _ => PairStepBrings(c, w.now, e);
  }

  lemma {:induction false} RunAccounts(c: Params, w: World, a: Record, events: seq<Event>, one: OrderId)
    requires c.Valid() && Accounted(w, a)
    ensures Accounted(Run(c, w, events), NoteAll(c, w, a, events, one))
    decreases |events|
  {
    if events != [] {
      hide Step, Note, Accounted;
      StepAccounts(c, w, a, events[0], one);
      RunAccounts(c, Step(c, w, events[0]), Note(c, w, a, events[0], one), events[1..], one);
    }
  }

  /** The record of a run from a fresh vault. */
  function Arrived(c: Params, p: Pair, events: seq<Event>, one: OrderId): Arrivals
    requires c.Valid()
  {
    NoteAll(c, Fresh(p), Record(NoArrivals(), NoArrivals()), events, one).now
  }

  /** An absent tracked order was executed and its proceeds are in the vault: the real balance is the free
      balances, all proceeds since the last synchronisation, this order's among them, and the gifts. */
  lemma AbsentOrderIsPaid(c: Params, p: Pair, events: seq<Event>, id: OrderId)
    requires c.Valid() && PairOk(p) && Reached(c, p, events).AtRest()
    requires id in Reached(c, p, events).now.v.orders && StatusOf(Reached(c, p, events).now.p, id) == Gone
    ensures var b, a := Reached(c, p, events).now, Arrived(c, p, events, id);
            id in b.p.executed
            && b.bal == b.v.free.Plus(a.proceeds).Plus(a.gifts)
            && a.proceeds.Covers(a.fromOne)
  {
    UnknownMeansExecuted(c, p, events, id);
    CustodyAtRest(c, p, events);
    RunAccounts(c, Fresh(p), Record(NoArrivals(), NoArrivals()), events, id);
    hide Run, NoteAll, Inv;
  }
}
