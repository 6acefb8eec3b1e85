/** Runs from a fresh vault in which a plausible property of the limit-grid vault fails: a per-token
    solvency gap after a fill, an order count above the cap, and an exit that can never finish. */
module LimitWitness {
  import opened Arithmetic
  import opened Tokens
  import opened LimitGrid
  import opened LimitChain
  import opened LimitTheorems
  import opened LimitExit

  /** One ask rung, room for one order, no collector. */
  function Small(): Params { Params("vault", "owner", "admin", None, [Rung(5, Some(Ask))], 1, 1, 1) }

  function EmptyPair(): Pair { Pair(map[], map[], {}, 1) }

  function Order(): LimitOrder { LimitOrder("vault", Ask, 5, 2) }

  /** A deposit of two units, placed as one order. */
  function Opening(): seq<Event>
  {
    [Start(CallReceive("owner", Token0, 2)), RunSub(Succeeds([Order()], 0)), Deliver]
  }

  function OpenVault(orders: map<OrderId, GridOrder>, placements: map<ReplyId, PlacementPlan>): Vault
  {
    Vault(Active, Nothing(), 1, 2, map["owner" := 2], orders, map[], placements, map[], 2)
  }

  function OpenBooks(): Books
  {
    Books(OpenVault(map[1 := GridOrder(0, Ask, 5, 2)], map[]), Pair(map[1 := Order()], map[], {}, 2), Nothing(),
      Nothing())
  }

  /** The same deposit before its placement has run. */
  function Deposited(): Books
  {
    Books(OpenVault(map[], map[1 := PlacementPlan(Ask, [0], 2)]), EmptyPair(), Amounts(2, 0), Nothing())
  }

  lemma DepositQueues()
    ensures Step(Small(), Fresh(EmptyPair()), Start(CallReceive("owner", Token0, 2)))
            == World(Deposited(), Fresh(EmptyPair()).now, [1], Landed)
  {
    var c := Small();
    assert c.rungs[..0] == [];
    assert SideRungs(c.rungs, Ask) == [0];
    assert Floor(2, 1) == 2;
    var b := Fresh(EmptyPair()).now;
    var r := Handle(c, b, CallReceive("owner", Token0, 2)).value;
    assert r.vault == Deposited().v && r.subs == [1] && r.paid == Nothing();
  }

  lemma PlacementLands(saved: Books)
    ensures var mid := Step(Small(), World(Deposited(), saved, [1], Landed), RunSub(Succeeds([Order()], 0)));
            Step(Small(), mid, Deliver) == World(OpenBooks(), saved, [], Landed)
  {
    var c := Small();
    var mid := Step(c, World(Deposited(), saved, [1], Landed), RunSub(Succeeds([Order()], 0)));
    assert PlaceAll(EmptyPair(), [Order()]) == PlaceAll(PlaceOne(EmptyPair(), Order()), []);
    assert seq(1, i => EmptyPair().nextId + i) == [1];
    assert mid.now.p == OpenBooks().p && mid.now.bal == Nothing() && mid.now.credits == Nothing();
    assert mid.flight == Awaiting(1, Placed([1]));
    RecordsOne(mid.now.p);
    assert Deposited().v.placements - {1} == map[];
  }

  lemma RecordsOne(p: Pair)
    requires p == OpenBooks().p
    ensures RecordOrders(Small(), map[], p, PlacementPlan(Ask, [0], 2), [1]) == Ok(map[1 := GridOrder(0, Ask, 5, 2)])
  {
    assert [1][..0] == [];
  }

  lemma RunThree(c: Params, w: World, a: Event, b: Event, d: Event, rest: seq<Event>)
    requires c.Valid()
    ensures Run(c, w, [a, b, d] + rest) == Run(c, Step(c, Step(c, Step(c, w, a), b), d), rest)
  {
    hide Step;
    RunFirst(c, w, a, [b, d] + rest);
    RunFirst(c, Step(c, w, a), b, [d] + rest);
    RunFirst(c, Step(c, Step(c, w, a), b), d, rest);
    assert [a] + ([b, d] + rest) == [a, b, d] + rest && [b] + ([d] + rest) == [b, d] + rest;
  }

  lemma RunFirst(c: Params, w: World, e: Event, rest: seq<Event>)
    requires c.Valid()
    ensures Run(c, w, [e] + rest) == Run(c, Step(c, w, e), rest)
  {
    hide Step;
    assert ([e] + rest)[1..] == rest;
  }

  lemma RunOneOrTwo(c: Params, w: World, a: Event, b: Event)
    requires c.Valid()
    ensures Run(c, w, [a]) == Step(c, w, a) && Run(c, w, [a, b]) == Step(c, Step(c, w, a), b)
  {
    hide Step;
    RunFirst(c, w, a, []);
    RunFirst(c, w, a, [b]);
    RunFirst(c, Step(c, w, a), b, []);
    assert [a] + [] == [a] && [b] + [] == [b] && [a] + [b] == [a, b];
  }

  /** Whatever follows the opening starts from the opened books. */
  lemma Opened(rest: seq<Event>)
    ensures Reached(Small(), EmptyPair(), Opening() + rest)
            == Run(Small(), World(OpenBooks(), Fresh(EmptyPair()).now, [], Landed), rest)
  {
    hide Step;
    RunThree(Small(), Fresh(EmptyPair()), Start(CallReceive("owner", Token0, 2)), RunSub(Succeeds([Order()], 0)),
      Deliver, rest);
    DepositQueues();
    PlacementLands(Fresh(EmptyPair()).now);
  }

  /** A fill and then exit: the order is executed and still tracked, on a pair and vault that began empty. */
  lemma ExitCanBeStranded()
    ensures var w := Reached(Small(), EmptyPair(),
            Opening() + [Fill(1, 2, 3, false), Start(CallSetMode("owner", Exit))]);
            PairOk(EmptyPair()) && w.AtRest() && Stranded(w.now, 1)
  {
    hide Run, Handle, PairStep;
    var c := Small();
    var w := World(OpenBooks(), Fresh(EmptyPair()).now, [], Landed);
    Opened([Fill(1, 2, 3, false), Start(CallSetMode("owner", Exit))]);
    RunOneOrTwo(c, w, Fill(1, 2, 3, false), Start(CallSetMode("owner", Exit)));
    FilledAway();
    OwnerExits(PairStep(c, OpenBooks(), Fill(1, 2, 3, false)));
  }

  lemma FilledAway()
    ensures var b := PairStep(Small(), OpenBooks(), Fill(1, 2, 3, false)); b.v == OpenBooks().v && 1 in b.p.executed
  {
  }

  lemma OwnerExits(b: Books)
    requires b.v == OpenBooks().v
    ensures Handle(Small(), b, CallSetMode("owner", Exit)) == Ok(Response(b.v.(mode := Exit), [], Nothing()))
  {
  }

  /** A second order of the vault's, recovered at the cap: two orders are counted where one is allowed. */
  lemma RecoveryCanExceedCap()
    ensures var w := Reached(Small(), EmptyPair(), Opening() + [Place(Order()), Start(CallRecover("owner", 2, 0, 1))]);
            w.AtRest() && w.now.v.activeOrders == 2 && !WithinCap(Small(), w)
  {
    hide Run, Handle, PairStep;
    var c := Small();
    var w := World(OpenBooks(), Fresh(EmptyPair()).now, [], Landed);
    Opened([Place(Order()), Start(CallRecover("owner", 2, 0, 1))]);
    RunOneOrTwo(c, w, Place(Order()), Start(CallRecover("owner", 2, 0, 1)));
    RecoversSecond();
  }

  lemma RecoversSecond()
    ensures var b := PairStep(Small(), OpenBooks(), Place(Order()));
            var r := Handle(Small(), b, CallRecover("owner", 2, 0, 1));
            r.Ok? && r.value.paid == Nothing() && r.value.subs == [] && r.value.vault.activeOrders == 2
  {
    assert PairStep(Small(), OpenBooks(), Place(Order())).p.active[2] == Order();
  }

  /** Half of the order is filled: token 0 is expected in full and half of it is left. */
  lemma ExpectedCanExceedActual()
    ensures var w := Reached(Small(), EmptyPair(), Opening() + [Fill(1, 1, 3, true)]);
            var s := CheckSolvency(Small(), w.now.v, w.now.p, w.now.bal);
            w.AtRest() && s.expected.t0 == 2 && s.actual.t0 == 1
  {
    hide Run, Handle, PairStep, CheckSolvency;
    var c := Small();
    var w := World(OpenBooks(), Fresh(EmptyPair()).now, [], Landed);
    Opened([Fill(1, 1, 3, true)]);
    RunOneOrTwo(c, w, Fill(1, 1, 3, true), Deliver);
    HalfFilled();
    SolvencyOfOne(c, PairStep(c, OpenBooks(), Fill(1, 1, 3, true)));
  }

  lemma HalfFilled()
    ensures var b := PairStep(Small(), OpenBooks(), Fill(1, 1, 3, true));
            b.v == OpenBooks().v && b.p.active == map[1 := Order().(remaining := 1)] && b.bal == Amounts(0, 3)
  {
    var b, o := OpenBooks(), Order();
    assert 1 in b.p.active && b.p.active[1] == o && o.remaining - 1 == 1;
    assert b.p.active[1 := o.(remaining := 1)] == map[1 := o.(remaining := 1)];
  }

  lemma OneListed()
    ensures Ascending({1}) == [1]
  {
    assert Least({1}) == 1;
    assert {1} - {1} == {};
  }

  lemma SolvencyOfOne(c: Params, b: Books)
    requires c == Small() && b.v == OpenBooks().v && b.p.active == map[1 := Order().(remaining := 1)]
             && b.bal == Amounts(0, 3)
    ensures var s := CheckSolvency(c, b.v, b.p, b.bal); s.expected.t0 == 2 && s.actual.t0 == 1
  {
    OneListed();
    assert b.v.orders.Keys == {1};
    var start := Solvency(b.v.free, b.bal, 0, 0, 0, 0, 0);
    assert [1][..0] == [];
    assert SolvencyOver(c, b.v, b.p, start, [1]) == SolvencyWith(c, b.v, b.p, start, 1);
  }
}
