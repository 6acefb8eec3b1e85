/** A run of the keeper machine, from fresh tables, in which freezing fails on the uniqueness of
    `batch_events`. */
module KeeperWitness {
  import opened Arithmetic
  import opened KeeperTables
  import opened KeeperMachine
  import opened KeeperSafety
  import opened KeeperEvents

  function FirstFill(): Fill { Fill(Source("first", 0), "vault", Key(0, 7), 1, 1) }

  function SecondFill(): Fill { Fill(Source("second", 0), "vault", Key(0, 7), 1, 1) }

  function FirstRow(): RawEvent { RowOf(FirstFill(), 10) }

  function SecondRow(): RawEvent { RowOf(SecondFill(), 11) }

  /** A vault whose only open order is `key` freezes that order. */
  lemma OnlyCandidate(db: Tables, vault: VaultId, key: Key, open: EventId)
    requires Open(db, vault, key, open)
    requires forall id: EventId, other :: Open(db, vault, other, id) ==> other == key
    ensures Select(db, vault, Candidates(db, vault), 1) == [key]
  {
    assert Candidates(db, vault) == {key};
  }

  /** One event, indexed at height 10 and frozen as the whole of a batch. */
  lemma OneEventFreezes(e: RawEvent)
    requires e == FirstRow()
    ensures Freeze(Tables([e], Totals([e]), [], [], 10, []), "vault", 1)
            == Froze(Tables([e], Totals([e]),
               [Batch("vault", 10, Ready, 0, None, None, [Item(Key(0, 7), 1, 1, 1)], [0])], [], 10, []), 0)
  {
    var db := Tables([e], Totals([e]), [], [], 10, []);
    var key := Key(0, 7);
    hide Totals, Select, Candidates;
    assert Open(db, "vault", key, 0);
    OnlyCandidate(db, "vault", key, 0);
    OneEventSnapshot(e);
    assert [] + [Batch("vault", 10, Ready, 0, None, None, [Item(key, 1, 1, 1)], [0])]
           == [Batch("vault", 10, Ready, 0, None, None, [Item(key, 1, 1, 1)], [0])];
  }

  lemma OneEventSnapshot(e: RawEvent)
    requires e == FirstRow()
    ensures TakeSnapshot([e], "vault", [Key(0, 7)]) == Snapshot([0], [Item(Key(0, 7), 1, 1, 1)], 10)
  {
    var key := Key(0, 7);
    assert [e][..0] == [] && [key][..0] == [];
    assert OrderEvents([e], "vault", key) == [0];
    assert [0][..0] == [];
    assert SumInput([e], [0]) == SumInput([e], [0][..0]) + 1;
    assert SumOutput([e], [0]) == SumOutput([e], [0][..0]) + 1;
    assert MaxHeight([e], [0]) == Max(MaxHeight([e], [0][..0]), 10);
    assert TakeSnapshot([e], "vault", [key]) == AddOrder([e], "vault", Snapshot([], [], 0), key);
  }

  /** The uniqueness of `batch_events` does fail in a run: an event at height 10 is frozen, its batch is
      confirmed by a transaction reported at height 9, and the order is filled again. */
  lemma LateConfirmationClashes()
    ensures var events := [
              Block(10, [FirstFill()]), FreezeFor("vault", 1), Begin(0, 0), MarkSending,
              Send(Answer(Some(0), Some("hash"))), Record, LookUp(Look(Some(Included(9, 0, false)), true, false), 0),
              Block(11, [SecondFill()])];
            Freeze(Run(Fresh(0), events).db, "vault", 1) == AlreadyFrozen
  {
    var key := Key(0, 7);
    var first, second := FirstRow(), SecondRow();
    hide Step, Freeze;
    RunEight(Fresh(0), Block(10, [FirstFill()]), FreezeFor("vault", 1), Begin(0, 0), MarkSending,
             Send(Answer(Some(0), Some("hash"))), Record, LookUp(Look(Some(Included(9, 0, false)), true, false), 0),
             Block(11, [SecondFill()]));
    FrozenAtTen();
    SentAtTen();
    ConfirmedAtNine();
    var w6 := World(Tables([first], Totals([first]), [OneBatch(Broadcast, Some("hash"))],
                           [Attempt(0, WasBroadcast, Some("hash"))], 10, []), Polling(0, 0, "hash"), [0]);
    var w7 := Step(w6, LookUp(Look(Some(Included(9, 0, false)), true, false), 0));
    FilledAgain(w7);
    FreezesNothingTwice(Step(w7, Block(11, [SecondFill()])).db, key, first, second);
  }

  function OneBatch(state: BatchState, hash: Option<Hash>): Batch
  {
    Batch("vault", 10, state, 0, None, hash, [Item(Key(0, 7), 1, 1, 1)], [0])
  }

  lemma FrozenAtTen()
    ensures var first := FirstRow();
            Step(Step(Fresh(0), Block(10, [FirstFill()])), FreezeFor("vault", 1))
            == World(Tables([first], Totals([first]), [OneBatch(Ready, None)], [], 10, []), Idle, [])
  {
    hide Totals, Freeze;
    var first := FirstRow();
    var w1 := Step(Fresh(0), Block(10, [FirstFill()]));
    assert w1.db.events == [first];
    OneEventFreezes(first);
  }

  lemma SentAtTen()
    ensures var first := FirstRow();
            var w2 := World(Tables([first], Totals([first]), [OneBatch(Ready, None)], [], 10, []), Idle, []);
            Step(Step(Step(Step(w2, Begin(0, 0)), MarkSending), Send(Answer(Some(0), Some("hash")))), Record)
            == World(Tables([first], Totals([first]), [OneBatch(Broadcast, Some("hash"))],
                            [Attempt(0, WasBroadcast, Some("hash"))], 10, []), Polling(0, 0, "hash"), [0])
  {
    hide Totals;
    var first := FirstRow();
    var db := Tables([first], Totals([first]), [OneBatch(Ready, None)], [], 10, []);
    var w2 := World(db, Idle, []);
    var w3 := Step(w2, Begin(0, 0));
    assert w3 == World(db.(batches := [OneBatch(Signed, None)], attempts := [Attempt(0, WasSigned, None)]),
      AfterSign(0, 0), []);
    var w4 := Step(w3, MarkSending);
    assert w4 == World(db.(batches := [OneBatch(Broadcasting, None)], attempts := [Attempt(0, WasBroadcasting, None)]),
                       AboutToSend(0, 0), []);
    var w5 := Step(w4, Send(Answer(Some(0), Some("hash"))));
    assert w5 == World(w4.db, Answered(0, 0, Answer(Some(0), Some("hash"))), [0]);
    RecordedAtTen(w5, first);
  }

  lemma RecordedAtTen(w: World, first: RawEvent)
    requires w.db == Tables([first], w.db.aggregates, [OneBatch(Broadcasting, None)],
             [Attempt(0, WasBroadcasting, None)], 10, [])
    requires w.pc == Answered(0, 0, Answer(Some(0), Some("hash")))
    ensures Step(w, Record)
            == World(w.db.(batches := [OneBatch(Broadcast, Some("hash"))],
               attempts := [Attempt(0, WasBroadcast, Some("hash"))]),
                     Polling(0, 0, "hash"), w.sent)
  {
    ReplyRewrites(w.db, 0, 0, "hash", 0);
    hide StoreReply;
  }

  lemma ConfirmedAtNine()
    ensures var first := FirstRow();
            var w6 := World(Tables([first], Totals([first]), [OneBatch(Broadcast, Some("hash"))],
                                   [Attempt(0, WasBroadcast, Some("hash"))], 10, []), Polling(0, 0, "hash"), [0]);
            var w7 := Step(w6, LookUp(Look(Some(Included(9, 0, false)), true, false), 0));
            w7.db.events == [first] && w7.db.batches == [OneBatch(Confirmed, Some("hash"))] && w7.db.scanned == 10
  {
    hide Totals;
    var first := FirstRow();
    var db := Tables([first], Totals([first]), [OneBatch(Broadcast, Some("hash"))],
      [Attempt(0, WasBroadcast, Some("hash"))], 10, []);
    ConfirmedRow(db, 0, 0, "hash", 9);
    assert MarkEvents(db.events, 0, db.batches[0], 9) == [first];
  }

  lemma FilledAgain(w: World)
    requires w.db.events == [FirstRow()] && w.db.scanned == 10
    ensures var after := Step(w, Block(11, [SecondFill()]));
            after.db.events == [FirstRow(), SecondRow()]
            && after.db.batches == w.db.batches
  {
    hide Totals;
    assert |"first"| != |"second"|;
    assert !Recorded(w.db.events, SecondRow());
    assert [SecondFill()][..0] == [] && InsertAll(w.db.events, [], 11) == w.db.events;
    assert InsertAll(w.db.events, [SecondFill()], 11) == w.db.events + [SecondRow()];
  }

  lemma FreezesNothingTwice(db: Tables, key: Key, first: RawEvent, second: RawEvent)
    requires db.events == [first, second] && |db.batches| == 1
    requires Of(first, "vault", key) && Of(second, "vault", key)
    requires db.batches[0].state == Confirmed && db.batches[0].frozen == [0]
    ensures Freeze(db, "vault", 1) == AlreadyFrozen
  {
    hide Freeze, Select, Candidates;
    assert db.batches[0].frozen[0] == 0;
    assert 0 in FrozenIds(db.batches) && 1 !in FrozenIds(db.batches);
    assert Open(db, "vault", key, 1);
    OnlyCandidate(db, "vault", key, 1);
    LeftoverBlocksFreezing(db, "vault", 1, 0, 1);
  }

  lemma RunEight(w: World, a: Event, b: Event, c: Event, d: Event, e: Event, f: Event, g: Event, h: Event)
    ensures Run(w, [a, b, c, d, e, f, g, h])
            == Step(Step(Step(Step(Step(Step(Step(Step(w, a), b), c), d), e), f), g), h)
  {
    hide Step;
    RunFour(w, a, b, c, d, [e, f, g, h]);
    assert [a, b, c, d] + [e, f, g, h] == [a, b, c, d, e, f, g, h];
    var mid := Step(Step(Step(Step(w, a), b), c), d);
    RunFour(mid, e, f, g, h, []);
    assert [e, f, g, h] + [] == [e, f, g, h];
  }

  lemma RunFour(w: World, a: Event, b: Event, c: Event, d: Event, rest: seq<Event>)
    ensures Run(w, [a, b, c, d] + rest) == Run(Step(Step(Step(Step(w, a), b), c), d), rest)
  {
    hide Step;
    RunOne(w, a, [b, c, d] + rest);
    RunOne(Step(w, a), b, [c, d] + rest);
    RunOne(Step(Step(w, a), b), c, [d] + rest);
    RunOne(Step(Step(Step(w, a), b), c), d, rest);
    assert [a] + ([b, c, d] + rest) == [a, b, c, d] + rest;
    assert [b] + ([c, d] + rest) == [b, c, d] + rest;
    assert [c] + ([d] + rest) == [c, d] + rest;
  }

  lemma RunOne(w: World, e: Event, rest: seq<Event>)
    ensures Run(w, [e] + rest) == Run(Step(w, e), rest)
  {
    hide Step;
    assert ([e] + rest)[1..] == rest;
  }
}
