/** The keeper and its database as they run: tables rewritten row by row inside transactions, a polling
    loop, and a process that may die after any commit or network call. Each method is proved to be a run
    of the keeper machine, so the machine's invariants are the class's. */
module Keeper {
  import opened Arithmetic
  import opened KeeperTables
  import opened KeeperMachine
  import opened KeeperCalls
  import KeeperSafety
  import KeeperEvents

  lemma StepKeepsBoth(w: World, e: Event)
    requires Inv(w) && KeeperEvents.Accounts(w.db)
    ensures Inv(Step(w, e)) && KeeperEvents.Accounts(Step(w, e).db)
  {
    KeeperSafety.StepKeepsInv(w, e);
    KeeperEvents.StepKeepsAccounts(w, e);
  }

  lemma {:induction false} RunAppend(w: World, first: seq<Event>, rest: seq<Event>)
    ensures Run(w, first + rest) == Run(Run(w, first), rest)
    decreases |first|
  {
    hide Step;
    if first == [] {
      assert first + rest == rest;
    } else {
      RunAppend(Step(w, first[0]), first[1..], rest);
      assert (first + rest)[1..] == first[1..] + rest;
    }
  }

  lemma RunOne(w: World, trace: seq<Event>, e: Event)
    ensures Run(w, trace + [e]) == Step(Run(w, trace), e)
  {
    hide Step;
    RunAppend(w, trace, [e]);
    assert Run(Run(w, trace), [e]) == Run(Step(Run(w, trace), e), []);
  }

  lemma RunKeepsBoth(w: World, trace: seq<Event>)
    requires Inv(w) && KeeperEvents.Accounts(w.db)
    ensures Inv(Run(w, trace)) && KeeperEvents.Accounts(Run(w, trace).db)
  {
    KeeperSafety.RunKeepsInv(w, trace);
    KeeperEvents.RunKeepsAccounts(w, trace);
  }

  class Operator {
    var events: seq<RawEvent>
    var aggregates: map<Key, Aggregate>
    var batches: seq<Batch>
    var attempts: seq<Attempt>
    var scanned: nat
    var cleared: seq<BatchId>
    const maxOrders: nat

    /** Every attempt the network was given, known to nobody. */
    ghost var sent: seq<AttemptId>

    ghost function Db(): Tables
      reads this
    {
      Tables(events, aggregates, batches, attempts, scanned, cleared)
    }

    /** The machine's world when no method is running. */
    ghost function W(): World
      reads this
    {
      World(Db(), Idle, sent)
    }

    ghost predicate Valid()
      reads this
    {
      Inv(W()) && KeeperEvents.Accounts(Db())
    }

    constructor (scanned: nat, maxOrders: nat)
      requires maxOrders > 0
      ensures Valid() && W() == Fresh(scanned) && this.maxOrders == maxOrders
    {
      events, aggregates, batches, attempts, this.scanned, cleared := [], map[], [], [], scanned, [];
      this.maxOrders, sent := maxOrders, [];
      new;
      KeeperSafety.FreshInv(scanned);
      KeeperEvents.FreshAccounts(scanned);
    }

    // ---- The indexer's side ----

    method RebuildAggregates()
      modifies this`aggregates
      ensures aggregates == Totals(events)
    {
      var totals: map<Key, Aggregate> := map[];
      var i := 0;
      while i < |events|
        invariant i <= |events| && totals == Totals(events[..i])
      {
        var row := events[i];
        assert events[..i + 1][..i] == events[..i];
        if row.reconciled == None {
          var item := if row.key in totals then totals[row.key]
            else Aggregate(row.vault, 0, 0, 0, row.height, row.height);
          item := item.(input := item.input + row.input);
          item := item.(output := item.output + row.output);
          item := item.(count := item.count + 1);
          item := item.(through := row.height);
          totals := totals[row.key := item];
        }
        i := i + 1;
      }
      assert events[..i] == events;
      aggregates := totals;
    }

    method ScanBlock(height: nat, fills: seq<Fill>)
      requires Valid() && height > scanned
      modifies this`events, this`aggregates, this`scanned
      ensures Valid() && Db() == StoreBlock(old(Db()), height, fills)
    {
      hide Inv, KeeperEvents.Accounts, Totals, Recorded;
      StepKeepsBoth(W(), Block(height, fills));
      var i := 0;
      while i < |fills|
        invariant i <= |fills| && events == InsertAll(old(events), fills[..i], height)
      {
        var row := RowOf(fills[i], height);
        assert fills[..i + 1][..i] == fills[..i];
        if !Recorded(events, row) { events := events + [row]; }
        i := i + 1;
      }
      assert fills[..i] == fills;
      scanned := height;
      RebuildAggregates();
    }

    method ClearIntervention(b: BatchId, claim: Claim) returns (done: bool)
      requires Valid()
      modifies this`batches, this`cleared
      ensures Valid() && done == Clearable(old(Db()), b, claim)
      ensures Db() == if done then StoreCleared(old(Db()), b) else old(Db())
    {
      hide Inv, KeeperEvents.Accounts, Latest;
      StepKeepsBoth(W(), Clear(b, claim));
      if b >= |batches| || batches[b].state != Intervention { return false; }
      var latest := Latest(attempts, b);
      if latest.None? { return false; }
      var at := attempts[latest.value];
      if !claim.reason.Refused() || at.state != claim.reason { return false; }
      if claim.reason in {DeliverFailed, PageReverted} {
        if !HasHash(at.hash) && !HasHash(batches[b].hash) { return false; }
        if claim.onChain.None? { return false; }
        if claim.reason == DeliverFailed && claim.onChain.value == 0 { return false; }
        if claim.reason == PageReverted && claim.onChain.value != 0 { return false; }
      }
      if !claim.backedUp { return false; }
      batches := batches[b := batches[b].(state := Ready, failures := 0, nextRetry := None)];
      cleared := cleared + [b];
      return true;
    }

    // ---- freeze_batch ----

    /** The batch to work on; None when idle; an error when an event is in some batch already, which rolls
        the transaction back. */
    method FreezeBatch(vault: VaultId) returns (r: Result<Option<BatchId>, ()>)
      requires Valid()
      modifies this`batches
      ensures Valid()
      ensures match Freeze(old(Db()), vault, maxOrders)
              case Existing(id) => r == Ok(Some(id)) && Db() == old(Db())
              case NothingToDo => r == Ok(None) && Db() == old(Db())
              case AlreadyFrozen => r == Err(()) && Db() == old(Db())
              case Froze(db, id) => r == Ok(Some(id)) && Db() == db
    {
      hide Select, Candidates, FrozenIds, FirstActive, OrderEvents, SumInput, SumOutput, MaxHeight, Inv,
        KeeperEvents.Accounts;
      StepKeepsBoth(W(), FreezeFor(vault, maxOrders));
      var active := FirstActive(batches, vault);
      if active.Some? { return Ok(active); }
      var db := Tables(events, aggregates, batches, attempts, scanned, cleared);
      var chosen := Select(db, vault, Candidates(db, vault), maxOrders);
      if chosen == [] { return Ok(None); }
      var ids, items, through := [], [], 0;
      var i := 0;
      while i < |chosen|
        invariant i <= |chosen| && Snapshot(ids, items, through) == TakeSnapshot(events, vault, chosen[..i])
      {
        var key := chosen[i];
        var rows := OrderEvents(events, vault, key);
        assert chosen[..i + 1][..i] == chosen[..i];
        ids := ids + rows;
        through := Max(through, MaxHeight(events, rows));
        items := items + [Item(key, SumInput(events, rows), SumOutput(events, rows), |rows|)];
        i := i + 1;
      }
      assert chosen[..i] == chosen;
      if exists id :: id in ids && id in FrozenIds(batches) { return Err(()); }
      batches := batches + [Batch(vault, through, Ready, 0, None, None, items, ids)];
      return Ok(Some(|batches| - 1));
    }

    // ---- The transactions of process_batch ----

    method SetStates(b: BatchId, a: AttemptId, state: BatchState, attempt: AttemptState)
      requires b < |batches| && a < |attempts|
      modifies this`batches, this`attempts
      ensures Db() == Move(old(Db()), b, a, state, attempt)
    {
      attempts := attempts[a := attempts[a].(state := attempt)];
      batches := batches[b := batches[b].(state := state)];
    }

    method RecordFailure(b: BatchId, a: AttemptId, how: AttemptState, now: nat)
      requires b < |batches| && a < |attempts|
      modifies this`batches, this`attempts
      ensures Db() == StoreFailure(old(Db()), b, a, how, now)
    {
      var failures := batches[b].failures + 1;
      var state := if failures >= MAX_FAILURES then Intervention else Ready;
      var nextRetry := if state == Intervention then None else Some(now + RETRY_BACKOFF * Doubled(failures - 1));
      attempts := attempts[a := attempts[a].(state := how)];
      batches := batches[b := batches[b].(state := state, failures := failures, nextRetry := nextRetry)];
    }

    method Confirm(b: BatchId, a: AttemptId, hash: Hash, height: nat)
      requires b < |batches| && a < |attempts|
      modifies this`events, this`aggregates, this`batches, this`attempts
      ensures Db() == StoreConfirmed(old(Db()), b, a, hash, height)
    {
      events := MarkEvents(events, b, batches[b], height);
      SetStates(b, a, Confirmed, WasConfirmed);
      batches := batches[b := batches[b].(hash := Some(hash))];
      RebuildAggregates();
    }

    // ---- Polling ----

    /** One turn of the loop; None to sleep and look again. */
    method HandleLook(b: BatchId, a: AttemptId, hash: Hash, look: Look, now: nat) returns (r: Option<Outcome>)
      requires b < |batches| && a < |attempts|
      modifies this`events, this`aggregates, this`batches, this`attempts
      ensures var after := TakeLook(World(old(Db()), Polling(b, a, hash), sent), b, a, hash, look, now);
              after == World(Db(), if r.None? then Polling(b, a, hash) else Idle, sent)
      ensures r == if Settles(look) then Some(SettledAs(look)) else None
      ensures b < |batches| && a < |attempts| && (r.Some? ==> Reported(r.value, batches[b].state))
    {
      if look.seen.Some? && look.deep {
        var tx := look.seen.value;
        if tx.code == 0 {
          if tx.reverted {
            RecordFailure(b, a, PageReverted, now);
            return Some(IsPageReverted);
          }
          Confirm(b, a, hash, tx.height);
          return Some(IsConfirmed);
        }
        RecordFailure(b, a, DeliverFailed, now);
        return Some(IsDeliverFailed);
      }
      if look.expired {
        SetStates(b, a, Timeout, WasTimeout);
        return Some(IsTimeout);
      }
      return None;
    }

    /** Looks until something settles; the process dies where `turns` ends. */
    method Poll(b: BatchId, a: AttemptId, hash: Hash, turns: seq<Turn>) returns (r: Outcome, ghost trace: seq<Event>)
      requires b < |batches| && a < |attempts|
      modifies this`events, this`aggregates, this`batches, this`attempts
      ensures Course(r, trace) == PollCourse(turns)
      ensures Run(World(old(Db()), Polling(b, a, hash), sent), trace) == W()
      ensures b < |batches| && Reported(r, batches[b].state)
    {
      hide Step, TakeLook;
      trace := [];
      ghost var start := World(Db(), Polling(b, a, hash), sent);
      var i := 0;
      while i < |turns|
        invariant i <= |turns| && b < |batches| && a < |attempts|
        invariant Run(start, trace) == World(Db(), Polling(b, a, hash), sent)
        invariant PollCourse(turns) == Then(trace, PollCourse(turns[i..]))
      {
        ghost var before := World(Db(), Polling(b, a, hash), sent);
        var turn := turns[i];
        ghost var event := LookUp(turn.look, turn.at);
        RunOne(start, trace, event);
        LookIsStep(before, turn.look, turn.at);
        TurnCourse(turns, i, trace);
        trace := trace + [event];
        var settled := HandleLook(b, a, hash, turn.look, turn.at);
        if settled.Some? { return settled.value, trace; }
        i := i + 1;
      }
      RunOne(start, trace, Crash);
      CrashIsStep(World(Db(), Polling(b, a, hash), sent));
      trace := trace + [Crash];
      return Died, trace;
    }

    // ---- process_batch ----

    /** One call on a batch: the result and the run that the outside world determines. */
    method ProcessBatch(b: BatchId, now: nat, o: Outside) returns (r: Outcome, ghost trace: seq<Event>)
      requires Valid()
      modifies this
      ensures Course(r, trace) == CallCourse(old(Db()), b, now, o)
      ensures Valid() && W() == Run(old(W()), trace)
      ensures r == NoSuchBatch <==> b >= |old(batches)|
      ensures r != NoSuchBatch ==> b < |batches| && Reported(r, batches[b].state)
      ensures b < |old(batches)| && old(batches)[b].state in {Confirmed, Intervention, Unknown} ==> W() == old(W())
      ensures sent == old(sent) || sent == old(sent) + [|old(attempts)|]
    {
      hide Inv, KeeperEvents.Accounts, Step, SendCourse, PollCourse, OnItsWay;
      ghost var start := W();
      NoSuchBatchIff(start.db, b, now, o);
      r, trace := CallOn(b, now, o);
      RunKeepsBoth(start, trace);
    }

    /** The body of `process_batch`. */
    method CallOn(b: BatchId, now: nat, o: Outside) returns (r: Outcome, ghost trace: seq<Event>)
      modifies this
      ensures Course(r, trace) == CallCourse(old(Db()), b, now, o)
      ensures W() == Run(old(W()), trace)
      ensures r != NoSuchBatch ==> b < |batches| && Reported(r, batches[b].state)
      ensures sent == old(sent) || sent == old(sent) + [|old(attempts)|]
    {
      hide Step, Latest, StoreReply, StoreFailure, StoreSigned, TakeLook, SendCourse, PollCourse;
      trace := [];
      ghost var start := W();
      if b >= |batches| { return NoSuchBatch, trace; }
      var batch := batches[b];
      if batch.state == Confirmed { return IsConfirmed, trace; }
      if batch.state == Intervention { return IsIntervention, trace; }
      if batch.state == Ready && batch.nextRetry.Some? && now < batch.nextRetry.value { return IsBackoff, trace; }
      if batch.state == Unknown { return IsUnknown, trace; }
      var attempt := Latest(attempts, b);
      BeginIsStep(start, b, now);
      RunOne(start, [], Begin(b, now));
      assert [] + [Begin(b, now)] == [Begin(b, now)];
      if batch.state == Broadcasting {
        if o.budget < 1 { return Died, trace; }
        trace := [Begin(b, now)];
        if attempt.Some? { attempts := attempts[attempt.value := attempts[attempt.value].(state := WasUnknown)]; }
        batches := batches[b := batches[b].(state := Unknown)];
        return IsUnknown, trace;
      }
      if attempt.Some? {
        var at := attempts[attempt.value];
        if at.hash.Some? && at.hash.value != "" && at.state in {WasBroadcast, WasTimeout} {
          ghost var rest;
          r, rest := Poll(b, attempt.value, at.hash.value, o.turns);
          RunAppend(start, [Begin(b, now)], rest);
          trace := [Begin(b, now)] + rest;
            return;
        }
      }
      if !o.canSign { return SignFailed, trace; }
      if o.budget < 1 { return Died, trace; }
      trace := [Begin(b, now)];
      var a := |attempts|;
      SignedRows(start.db, b);
      attempts := attempts + [Attempt(b, WasSigned, None)];
      batches := batches[b := batches[b].(state := Signed)];
      ghost var rest;
      r, rest := SendSigned(b, a, o, o.budget - 1);
      RunAppend(start, trace, rest);
      trace := trace + rest;
    }

    /** From the committed signature on: mark, send, record, and poll. */
    method SendSigned(b: BatchId, a: AttemptId, o: Outside, budget: nat) returns (r: Outcome, ghost trace: seq<Event>)
      requires b < |batches| && a < |attempts|
      modifies this
      ensures Course(r, trace) == SendCourse(o, budget)
      ensures W() == Run(World(old(Db()), AfterSign(b, a), old(sent)), trace)
      ensures b < |batches| && Reported(r, batches[b].state)
      ensures sent == old(sent) || sent == old(sent) + [a]
    {
      hide Step, Move, RecordCourse;
      ghost var start := World(Db(), AfterSign(b, a), sent);
      if budget < 1 {
        trace := [Crash];
        CrashIsStep(start);
        RunOne(start, [], Crash);
        assert [] + [Crash] == [Crash];
        return Died, trace;
      }
      SetStates(b, a, Broadcasting, WasBroadcasting);
      MarkIsStep(start);
      ghost var marked := World(Db(), AboutToSend(b, a), sent);
      if budget < 2 {
        trace := [MarkSending, Crash];
        CrashIsStep(marked);
        RunTwo(start, MarkSending, Crash);
        return Died, trace;
      }
      sent := sent + [a];
      SendIsStep(marked, o.reply);
      RunTwo(start, MarkSending, Send(o.reply));
      ghost var rest;
      r, rest := RecordAnswer(b, a, o, budget - 2);
      RunAppend(start, [MarkSending, Send(o.reply)], rest);
      trace := [MarkSending, Send(o.reply)] + rest;
    }

    /** What the network answered is stored; a refused check is a failure, an accepted one is polled. */
    method RecordAnswer(b: BatchId, a: AttemptId, o: Outside, budget: nat) returns (r: Outcome, ghost trace: seq<Event>)
      requires b < |batches| && a < |attempts|
      modifies this`events, this`aggregates, this`batches, this`attempts
      ensures Course(r, trace) == RecordCourse(o, budget)
      ensures W() == Run(World(old(Db()), Answered(b, a, o.reply), sent), trace)
      ensures b < |batches| && Reported(r, batches[b].state)
    {
      hide Step, StoreReply, StoreFailure, TakeLook, Move, PollCourse;
      ghost var start := World(Db(), Answered(b, a, o.reply), sent);
      assert [] + [Crash] == [Crash] && [] + [Record] == [Record];
      if budget < 1 {
        trace := [Crash];
        CrashIsStep(start);
        RunOne(start, [], Crash);
        return Died, trace;
      }
      trace := [Record];
      RecordIsStep(start);
      RunOne(start, [], Record);
      if !Usable(o.reply) {
        SetStates(b, a, Unknown, WasUnknown);
        StatesAfterMove(start.db, b, a, Unknown, WasUnknown);
        return IsUnknown, trace;
      }
      StoreAnswer(b, a, o.reply.hash.value, o.reply.code.value);
      if o.reply.code.value != 0 {
        ghost var refusing := World(Db(), Refusing(b, a), sent);
        if budget < 2 {
          trace := [Record, Crash];
          CrashIsStep(refusing);
          RunTwo(start, Record, Crash);
          return Died, trace;
        }
        RecordFailure(b, a, CheckFailed, o.refusedAt);
        RefuseIsStep(refusing, o.refusedAt);
        trace := [Record, Refuse(o.refusedAt)];
        RunTwo(start, Record, Refuse(o.refusedAt));
        StatesAfterFailure(refusing.db, b, a, CheckFailed, o.refusedAt);
        return IsCheckFailed, trace;
      }
      ghost var rest;
      r, rest := Poll(b, a, o.reply.hash.value, o.turns);
      RunAppend(start, trace, rest);
      trace := trace + rest;
    }

    method StoreAnswer(b: BatchId, a: AttemptId, hash: Hash, code: int)
      requires b < |batches| && a < |attempts|
      modifies this`batches, this`attempts
      ensures Db() == StoreReply(old(Db()), b, a, hash, code)
      ensures |batches| == |old(batches)| && |attempts| == |old(attempts)|
    {
      attempts := attempts[a := attempts[a].(hash := Some(hash))];
      batches := batches[b := batches[b].(hash := Some(hash))];
      if code == 0 {
        SetStates(b, a, Broadcast, WasBroadcast);
      }
    }
  }

  // ---- Single machine steps, unfolded ----

  /** One more turn of the polling course. */
  lemma TurnCourse(turns: seq<Turn>, i: nat, trace: seq<Event>)
    requires i < |turns| && PollCourse(turns) == Then(trace, PollCourse(turns[i..]))
    ensures var event := LookUp(turns[i].look, turns[i].at);
            if Settles(turns[i].look) then PollCourse(turns) == Course(SettledAs(turns[i].look), trace + [event])
            else PollCourse(turns) == Then(trace + [event], PollCourse(turns[i + 1..]))
  {
    var event := LookUp(turns[i].look, turns[i].at);
    assert turns[i..][0] == turns[i] && turns[i..][1..] == turns[i + 1..];
    if !Settles(turns[i].look) {
      assert trace + ([event] + PollCourse(turns[i + 1..]).trace) == trace + [event] + PollCourse(turns[i + 1..]).trace;
    }
  }

  lemma RunTwo(w: World, d: Event, e: Event)
    ensures Run(w, [d, e]) == Step(Step(w, d), e)
  {
    hide Step;
    RunOne(w, [], d);
    RunOne(w, [d], e);
    assert [] + [d] == [d] && [d] + [e] == [d, e];
  }

  lemma CrashIsStep(w: World)
    ensures Step(w, Crash) == World(w.db, Idle, w.sent)
  {
  }

  lemma BeginIsStep(w: World, b: BatchId, now: nat)
    requires w.pc == Idle && b < |w.db.batches|
    ensures Step(w, Begin(b, now)) == BeginBatch(w, b, now)
  {
  }

  lemma SignedRows(db: Tables, b: BatchId)
    requires b < |db.batches|
    ensures StoreSigned(db, b)
            == db.(attempts := db.attempts + [Attempt(b, WasSigned, None)],
               batches := db.batches[b := db.batches[b].(state := Signed)])
  {
  }

  lemma MarkIsStep(w: World)
    requires w.pc.AfterSign? && InRange(w.db, w.pc.b, w.pc.a)
    ensures Step(w, MarkSending)
            == World(Move(w.db, w.pc.b, w.pc.a, Broadcasting, WasBroadcasting), AboutToSend(w.pc.b, w.pc.a), w.sent)
    ensures InRange(Step(w, MarkSending).db, w.pc.b, w.pc.a)
  {
  }

  lemma SendIsStep(w: World, reply: Reply)
    requires w.pc.AboutToSend?
    ensures Step(w, Send(reply)) == World(w.db, Answered(w.pc.b, w.pc.a, reply), w.sent + [w.pc.a])
  {
  }

  lemma RecordIsStep(w: World)
    requires w.pc.Answered? && InRange(w.db, w.pc.b, w.pc.a)
    ensures Step(w, Record) == RecordReply(w, w.pc.b, w.pc.a, w.pc.reply)
  {
  }

  lemma RefuseIsStep(w: World, now: nat)
    requires w.pc.Refusing? && InRange(w.db, w.pc.b, w.pc.a)
    ensures Step(w, Refuse(now)) == World(StoreFailure(w.db, w.pc.b, w.pc.a, CheckFailed, now), Idle, w.sent)
  {
  }

  lemma LookIsStep(w: World, look: Look, now: nat)
    requires w.pc.Polling? && InRange(w.db, w.pc.b, w.pc.a)
    ensures Step(w, LookUp(look, now)) == TakeLook(w, w.pc.b, w.pc.a, w.pc.hash, look, now)
  {
  }

  lemma StatesAfterMove(db: Tables, b: BatchId, a: AttemptId, state: BatchState, attempt: AttemptState)
    requires InRange(db, b, a)
    ensures var after := Move(db, b, a, state, attempt);
            |after.batches| == |db.batches| && after.batches[b].state == state
  {
  }

  lemma StatesAfterFailure(db: Tables, b: BatchId, a: AttemptId, how: AttemptState, now: nat)
    requires InRange(db, b, a)
    ensures var after := StoreFailure(db, b, a, how, now);
            |after.batches| == |db.batches| && after.batches[b].state in {Ready, Intervention}
  {
  }
}
