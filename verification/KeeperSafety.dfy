/** Broadcasting is crash-safe: every step keeps batch states tied to their latest attempts, so an attempt
    goes out only when each earlier one was refused or never sent, and never for a batch gone unknown. */
module KeeperSafety {
  import opened Arithmetic
  import opened KeeperTables
  import opened KeeperMachine

  lemma LatestIs(attempts: seq<Attempt>, b: BatchId, a: AttemptId)
    requires a < |attempts| && attempts[a].batch == b
    requires forall later :: a < later < |attempts| ==> attempts[later].batch != b
    ensures Latest(attempts, b) == Some(a)
  {
  }

  lemma NoneIsLatest(attempts: seq<Attempt>, b: BatchId)
    requires forall a :: 0 <= a < |attempts| ==> attempts[a].batch != b
    ensures Latest(attempts, b) == None
  {
  }

  /** Rewriting an attempt in place does not change which one is latest. */
  lemma LatestAfterUpdate(attempts: seq<Attempt>, a: AttemptId, row: Attempt)
    requires a < |attempts| && row.batch == attempts[a].batch
    ensures forall b :: Latest(attempts[a := row], b) == Latest(attempts, b)
  {
    forall b ensures Latest(attempts[a := row], b) == Latest(attempts, b) {
      var latest := Latest(attempts, b);
      if latest.Some? {
        LatestIs(attempts[a := row], b, latest.value);
      } else {
        NoneIsLatest(attempts[a := row], b);
      }
    }
  }

  lemma LatestAfterAppend(attempts: seq<Attempt>, row: Attempt)
    ensures forall b :: Latest(attempts + [row], b) == if row.batch == b then Some(|attempts|) else Latest(attempts, b)
  {
    assert (attempts + [row])[..|attempts|] == attempts;
  }

  /** Rewriting a batch and its latest attempt together keeps every batch tied. */
  lemma RewriteKeepsTies(db: Tables, b: BatchId, a: AttemptId, batch: Batch, row: Attempt)
    requires AttemptsOk(db) && InRange(db, b, a) && Latest(db.attempts, b) == Some(a)
    requires row.batch == b && Tied(batch.state, Some(row))
    ensures AttemptsOk(db.(batches := db.batches[b := batch], attempts := db.attempts[a := row]))
  {
    var after := db.(batches := db.batches[b := batch], attempts := db.attempts[a := row]);
    LatestAfterUpdate(db.attempts, a, row);
    hide Tied;
    forall other | 0 <= other < |after.batches|
      ensures Tied(after.batches[other].state, LatestRow(after.attempts, other))
    {
      if other != b {
        assert LatestRow(after.attempts, other) == LatestRow(db.attempts, other);
      }
    }
  }

  lemma MoveKeepsTies(db: Tables, b: BatchId, a: AttemptId, state: BatchState, attempt: AttemptState)
    requires AttemptsOk(db) && InRange(db, b, a) && Latest(db.attempts, b) == Some(a)
    requires Tied(state, Some(db.attempts[a].(state := attempt)))
    ensures AttemptsOk(Move(db, b, a, state, attempt))
  {
    hide AttemptsOk, Tied;
    RewriteKeepsTies(db, b, a, db.batches[b].(state := state), db.attempts[a].(state := attempt));
  }

  /** A signed attempt may be added only where the previous latest one is settled for good or never left. */
  lemma SigningKeepsTies(db: Tables, b: BatchId)
    requires AttemptsOk(db) && b < |db.batches| && db.batches[b].state in {Ready, Signed}
    ensures AttemptsOk(StoreSigned(db, b)) && Latest(StoreSigned(db, b).attempts, b) == Some(|db.attempts|)
  {
    var row := Attempt(b, WasSigned, None);
    var after := StoreSigned(db, b);
    LatestAfterAppend(db.attempts, row);
    assert Tied(db.batches[b].state, LatestRow(db.attempts, b));
    forall other | 0 <= other < |after.batches|
      ensures Tied(after.batches[other].state, LatestRow(after.attempts, other))
    {
      if other != b {
        assert LatestRow(after.attempts, other) == LatestRow(db.attempts, other);
      }
    }
    forall a | 0 <= a < |after.attempts| && Latest(after.attempts, after.attempts[a].batch) != Some(a)
      ensures Superseded(after.attempts[a])
    {
      assert a < |db.attempts| && after.attempts[a] == db.attempts[a];
    }
  }

  /** A new batch starts ready, with no attempt. */
  lemma NewBatchKeepsTies(db: Tables, batch: Batch)
    requires AttemptsOk(db) && batch.state == Ready
    ensures AttemptsOk(db.(batches := db.batches + [batch]))
  {
    var after := db.(batches := db.batches + [batch]);
    forall b | 0 <= b < |after.batches| ensures Tied(after.batches[b].state, LatestRow(after.attempts, b)) {
      if b < |db.batches| {
        assert Tied(db.batches[b].state, LatestRow(db.attempts, b));
      }
    }
  }

  lemma ClearingKeepsTies(db: Tables, b: BatchId)
    requires AttemptsOk(db) && b < |db.batches| && db.batches[b].state == Intervention
    ensures AttemptsOk(StoreCleared(db, b))
  {
    assert Tied(db.batches[b].state, LatestRow(db.attempts, b));
  }

  lemma FailureKeepsTies(db: Tables, b: BatchId, a: AttemptId, how: AttemptState, now: nat)
    requires AttemptsOk(db) && InRange(db, b, a) && Latest(db.attempts, b) == Some(a) && how.Refused()
    ensures AttemptsOk(StoreFailure(db, b, a, how, now))
  {
    hide AttemptsOk;
    var after := StoreFailure(db, b, a, how, now);
    RewriteKeepsTies(db, b, a, after.batches[b], db.attempts[a].(state := how));
  }

  lemma BeginKeepsInv(w: World, b: BatchId, now: nat)
    requires Inv(w) && w.pc == Idle && b < |w.db.batches|
    ensures Inv(BeginBatch(w, b, now))
  {
    assert Tied(w.db.batches[b].state, LatestRow(w.db.attempts, b));
    if w.db.batches[b].state == Broadcasting {
      RestartKeepsInv(w, b);
    } else if w.db.batches[b].state in {Ready, Signed} && !Waiting(w.db.batches[b], now) {
      SigningKeepsTies(w.db, b);
      hide AttemptsOk;
    } else {
      hide AttemptsOk, SentOk;
    }
  }

  lemma RestartKeepsInv(w: World, b: BatchId)
    requires Inv(w) && w.pc == Idle && b < |w.db.batches| && w.db.batches[b].state == Broadcasting
    ensures Inv(w.(db := StoreRestart(w.db, b)))
  {
    assert Tied(w.db.batches[b].state, LatestRow(w.db.attempts, b));
    MoveKeepsTies(w.db, b, Latest(w.db.attempts, b).value, Unknown, WasUnknown);
    hide AttemptsOk;
  }

  /** Once an attempt has gone past being signed, rewriting it says nothing new about what was sent. */
  lemma RewriteKeepsSent(db: Tables, sent: seq<AttemptId>, b: BatchId, a: AttemptId, batch: Batch, row: Attempt)
    requires SentOk(db, sent) && InRange(db, b, a) && row.state != WasSigned
    ensures SentOk(db.(batches := db.batches[b := batch], attempts := db.attempts[a := row]), sent)
  {
  }

  /** Tables with one batch row and one attempt row rewritten. */
  function Rewrite(db: Tables, b: BatchId, a: AttemptId, batch: Batch, row: Attempt): Tables
    requires InRange(db, b, a)
  {
    db.(batches := db.batches[b := batch], attempts := db.attempts[a := row])
  }

  lemma ReplyRewrites(db: Tables, b: BatchId, a: AttemptId, hash: Hash, code: int)
    requires InRange(db, b, a)
    ensures var row := db.attempts[a].(hash := Some(hash));
            StoreReply(db, b, a, hash, code)
            == if code != 0 then Rewrite(db, b, a, db.batches[b].(hash := Some(hash)), row)
               else Rewrite(db, b, a, db.batches[b].(hash := Some(hash), state := Broadcast),
                 row.(state := WasBroadcast))
  {
  }

  lemma RecordKeepsInv(w: World, b: BatchId, a: AttemptId, reply: Reply)
    requires Inv(w) && w.pc == Answered(b, a, reply)
    ensures Inv(RecordReply(w, b, a, reply))
  {
    BusyAttempt(w, b, a);
    if Usable(reply) {
      hide Inv, RecordReply;
      UsableReplyKeepsInv(w, b, a, reply);
    } else {
      hide AttemptsOk, SentOk;
      MoveKeepsTies(w.db, b, a, Unknown, WasUnknown);
      RewriteKeepsSent(w.db, w.sent, b, a, w.db.batches[b].(state := Unknown), w.db.attempts[a].(state := WasUnknown));
    }
  }

  lemma UsableReplyKeepsInv(w: World, b: BatchId, a: AttemptId, reply: Reply)
    requires Inv(w) && w.pc == Answered(b, a, reply) && Usable(reply)
    ensures Inv(RecordReply(w, b, a, reply))
  {
    BusyAttempt(w, b, a);
    var hash := reply.hash.value;
    ReplyRewrites(w.db, b, a, hash, reply.code.value);
    hide StoreReply, AttemptsOk, SentOk;
    var stored := w.db.attempts[a].(hash := Some(hash));
    var row := if reply.code.value != 0 then stored else stored.(state := WasBroadcast);
    var batch := if reply.code.value != 0 then w.db.batches[b].(hash := Some(hash))
                 else w.db.batches[b].(hash := Some(hash), state := Broadcast);
    LatestAfterUpdate(w.db.attempts, a, row);
    RewriteKeepsTies(w.db, b, a, batch, row);
    RewriteKeepsSent(w.db, w.sent, b, a, batch, row);
  }

  /** The attempt in the process's hands belongs to its batch and is under way. */
  lemma BusyAttempt(w: World, b: BatchId, a: AttemptId)
    requires Inv(w) && w.pc != Idle && w.pc.b == b && w.pc.a == a
    ensures InRange(w.db, b, a) && w.db.attempts[a].batch == b && Latest(w.db.attempts, b) == Some(a)
    ensures !w.pc.AfterSign? && !w.pc.Polling? ==> w.db.attempts[a].state == WasBroadcasting
    ensures w.pc.Polling?
            ==> w.db.attempts[a].state in {WasBroadcast, WasTimeout} && w.db.attempts[a].hash == Some(w.pc.hash)
    ensures w.pc.Polling? ==> w.pc.hash != ""
  {
    assert Tied(w.db.batches[b].state, LatestRow(w.db.attempts, b));
  }

  lemma LookKeepsInv(w: World, b: BatchId, a: AttemptId, hash: Hash, look: Look, now: nat)
    requires Inv(w) && w.pc == Polling(b, a, hash)
    ensures Inv(TakeLook(w, b, a, hash, look, now))
  {
    BusyAttempt(w, b, a);
    var after := TakeLook(w, b, a, hash, look, now);
    hide AttemptsOk, SentOk;
    if look.seen.None? || !look.deep {
      if look.expired {
        MoveKeepsTies(w.db, b, a, Timeout, WasTimeout);
        RewriteKeepsSent(w.db, w.sent, b, a, after.db.batches[b], after.db.attempts[a]);
      }
    } else {
      if look.seen.value.code != 0 {
        FailureKeepsTies(w.db, b, a, DeliverFailed, now);
      } else if look.seen.value.reverted {
        FailureKeepsTies(w.db, b, a, PageReverted, now);
      } else {
        ConfirmKeepsTies(w.db, b, a, hash, look.seen.value.height);
      }
      RewriteKeepsSent(w.db, w.sent, b, a, after.db.batches[b], after.db.attempts[a]);
      SameAttempts(Rewrite(w.db, b, a, after.db.batches[b], after.db.attempts[a]), after.db, w.sent);
    }
  }

  /** `SentOk` looks at the attempts only. */
  lemma SameAttempts(db: Tables, after: Tables, sent: seq<AttemptId>)
    requires SentOk(db, sent) && after.attempts == db.attempts
    ensures SentOk(after, sent)
  {
  }

  lemma ConfirmKeepsTies(db: Tables, b: BatchId, a: AttemptId, hash: Hash, height: nat)
    requires AttemptsOk(db) && InRange(db, b, a) && Latest(db.attempts, b) == Some(a)
    ensures AttemptsOk(StoreConfirmed(db, b, a, hash, height))
  {
    var batch, row := db.batches[b].(state := Confirmed, hash := Some(hash)), db.attempts[a].(state := WasConfirmed);
    ConfirmationRewrites(db, b, a, hash, height);
    hide StoreConfirmed;
    RewriteKeepsTies(db, b, a, batch, row);
    SameTies(Rewrite(db, b, a, batch, row), StoreConfirmed(db, b, a, hash, height));
  }

  lemma ConfirmationRewrites(db: Tables, b: BatchId, a: AttemptId, hash: Hash, height: nat)
    requires InRange(db, b, a)
    ensures var after := StoreConfirmed(db, b, a, hash, height);
            after.batches == db.batches[b := db.batches[b].(state := Confirmed, hash := Some(hash))]
            && after.attempts == db.attempts[a := db.attempts[a].(state := WasConfirmed)]
  {
    hide Totals, MarkEvents;
  }

  /** `AttemptsOk` looks at batches and attempts only. */
  lemma SameTies(db: Tables, after: Tables)
    requires AttemptsOk(db) && after.batches == db.batches && after.attempts == db.attempts
    ensures AttemptsOk(after)
  {
  }

  lemma SendingKeepsInv(w: World)
    requires Inv(w) && w.pc.AfterSign?
    ensures Inv(Step(w, MarkSending))
  {
    var b, a := w.pc.b, w.pc.a;
    NotYetSent(w);
    BusyAttempt(w, b, a);
    hide AttemptsOk, SentOk;
    MoveKeepsTies(w.db, b, a, Broadcasting, WasBroadcasting);
    LatestAfterUpdate(w.db.attempts, a, w.db.attempts[a].(state := WasBroadcasting));
    RewriteKeepsSent(w.db, w.sent, b, a, w.db.batches[b].(state := Broadcasting),
      w.db.attempts[a].(state := WasBroadcasting));
  }

  lemma NotYetSent(w: World)
    requires Inv(w) && w.pc.AfterSign?
    ensures w.pc.a !in w.sent
  {
    assert Tied(w.db.batches[w.pc.b].state, LatestRow(w.db.attempts, w.pc.b));
  }

  lemma RefusalKeepsInv(w: World, now: nat)
    requires Inv(w) && w.pc.Refusing?
    ensures Inv(Step(w, Refuse(now)))
  {
    var b, a := w.pc.b, w.pc.a;
    BusyAttempt(w, b, a);
    hide AttemptsOk, SentOk;
    var after := StoreFailure(w.db, b, a, CheckFailed, now);
    FailureKeepsTies(w.db, b, a, CheckFailed, now);
    RewriteKeepsSent(w.db, w.sent, b, a, after.batches[b], after.attempts[a]);
  }

  lemma FreezeKeepsInv(w: World, vault: VaultId, limit: nat)
    requires Inv(w) && w.pc == Idle
    ensures Inv(Step(w, FreezeFor(vault, limit)))
  {
    hide AttemptsOk, SentOk;
    if Freeze(w.db, vault, limit).Froze? {
      var after := Freeze(w.db, vault, limit).db;
      NewBatchKeepsTies(w.db, after.batches[|w.db.batches|]);
      SameAttempts(w.db, after, w.sent);
    }
  }

  lemma ClearingKeepsInv(w: World, b: BatchId)
    requires Inv(w) && b < |w.db.batches| && w.db.batches[b].state == Intervention
    ensures Inv(w.(db := StoreCleared(w.db, b)))
  {
    ClearingKeepsTies(w.db, b);
  }

  /** Indexing a block leaves batches and attempts alone. */
  lemma BlockKeepsInv(w: World, height: nat, fills: seq<Fill>)
    requires Inv(w)
    ensures Inv(w.(db := StoreBlock(w.db, height, fills)))
  {
  }

  /** Handing the attempt over: it was never sent before, and is no longer just signed. */
  lemma SendKeepsInv(w: World, reply: Reply)
    requires Inv(w) && w.pc.AboutToSend?
    ensures Inv(Step(w, Send(reply)))
  {
    BusyAttempt(w, w.pc.b, w.pc.a);
    hide AttemptsOk;
  }

  lemma StepKeepsInv(w: World, e: Event)
    requires Inv(w)
    ensures Inv(Step(w, e))
  {
    hide Inv, BeginBatch, RecordReply, TakeLook;
    match e
    case Crash => CrashKeepsInv(w);
    case Block(height, fills) => BlockKeepsInv(w, height, fills);
    case Clear(b, claim) =>
      if Clearable(w.db, b, claim) {
        ClearingKeepsInv(w, b);
      }
    case FreezeFor(vault, limit) =>
      if w.pc == Idle {
        FreezeKeepsInv(w, vault, limit);
      }
    case Begin(b, now) =>
      if w.pc == Idle && b < |w.db.batches| {
        BeginKeepsInv(w, b, now);
      }
    case MarkSending =>
      if w.pc.AfterSign? {
        SendingKeepsInv(w);
      }
    case Send(reply) =>
      if w.pc.AboutToSend? {
        SendKeepsInv(w, reply);
      }
    case Record =>
      if w.pc.Answered? {
        RecordKeepsInv(w, w.pc.b, w.pc.a, w.pc.reply);
      }
    case Refuse(now) =>
      if w.pc.Refusing? {
        RefusalKeepsInv(w, now);
      }
    case LookUp(look, now) =>
      if w.pc.Polling? {
        LookKeepsInv(w, w.pc.b, w.pc.a, w.pc.hash, look, now);
      }
  }

  lemma CrashKeepsInv(w: World)
    requires Inv(w)
    ensures Inv(w.(pc := Idle))
  {
  }

  lemma {:induction false} RunKeepsInv(w: World, events: seq<Event>)
    requires Inv(w)
    ensures Inv(Run(w, events))
    decreases |events|
  {
    if events != [] {
      hide Inv, Step;
      StepKeepsInv(w, events[0]);
      RunKeepsInv(Step(w, events[0]), events[1..]);
    }
  }

  // ---- Broadcast safety ----

  /** The only step that reaches the network, in any reachable world: the attempt handed over was never
      handed over before and its batch is durably marked as broadcasting; every other attempt of that batch
      was refused, or only signed and never sent. */
  lemma BroadcastIsSafe(scanned: nat, events: seq<Event>, a: AttemptId)
    requires var w := Run(Fresh(scanned), events); w.pc.AboutToSend? && w.pc.a == a
    ensures var w := Run(Fresh(scanned), events);
            a !in w.sent && a < |w.db.attempts| && w.db.attempts[a].batch == w.pc.b
            && w.pc.b < |w.db.batches| && w.db.batches[w.pc.b].state == Broadcasting
            && forall other :: 0 <= other < |w.db.attempts| && other != a && w.db.attempts[other].batch == w.pc.b ==>
                 w.db.attempts[other].state.Refused()
                 || (w.db.attempts[other].state == WasSigned && other !in w.sent)
  {
    FreshInv(scanned);
    RunKeepsInv(Fresh(scanned), events);
    var w := Run(Fresh(scanned), events);
    hide Run;
    BusyAttempt(w, w.pc.b, a);
    forall other | 0 <= other < |w.db.attempts| && other != a && w.db.attempts[other].batch == w.pc.b
      ensures w.db.attempts[other].state.Refused() || (w.db.attempts[other].state == WasSigned && other !in w.sent)
    {
      assert Superseded(w.db.attempts[other]);
    }
  }

  lemma FreshInv(scanned: nat)
    ensures Inv(Fresh(scanned))
  {
  }

  /** Attempts of one batch among those sent. */
  function SentFor(db: Tables, sent: seq<AttemptId>, b: BatchId): (ids: set<AttemptId>)
  {
    set a | a in sent && a < |db.attempts| && db.attempts[a].batch == b
  }

  ghost predicate GoneUnknown(w: World, b: BatchId) { b < |w.db.batches| && w.db.batches[b].state == Unknown }

  /** Attempt rows keep their batch, new ones are for other batches than `b`, and `b` stays unknown. */
  ghost predicate LeavesAlone(db: Tables, after: Tables, b: BatchId)
  {
    b < |after.batches| && after.batches[b].state == Unknown
    && |after.attempts| >= |db.attempts|
    && forall a :: 0 <= a < |db.attempts| ==> after.attempts[a].batch == db.attempts[a].batch
  }

  lemma BeginLeavesAlone(w: World, b: BatchId, now: nat, unknown: BatchId)
    requires b < |w.db.batches| && GoneUnknown(w, unknown)
    ensures LeavesAlone(w.db, BeginBatch(w, b, now).db, unknown)
  {
  }

  lemma StepLeavesAlone(w: World, e: Event, b: BatchId)
    requires GoneUnknown(w, b) && (w.pc != Idle ==> w.pc.b != b)
    ensures LeavesAlone(w.db, Step(w, e).db, b)
  {
    match e
    case Crash =>
    case Block(height, fills) =>
    case Clear(cleared, claim) =>
    case FreezeFor(vault, limit) => hide Select, Candidates, TakeSnapshot, FrozenIds;
    case Begin(batch, now) =>
      if w.pc == Idle && batch < |w.db.batches| {
        BeginLeavesAlone(w, batch, now, b);
      }
    case MarkSending =>
    case Send(reply) =>
    case Record =>
      if w.pc.Answered? && InRange(w.db, w.pc.b, w.pc.a) {
        RecordLeavesAlone(w, w.pc.b, w.pc.a, w.pc.reply, b);
      }
    case Refuse(now) =>
    case LookUp(look, now) =>
      if w.pc.Polling? && InRange(w.db, w.pc.b, w.pc.a) {
        LookLeavesAlone(w, w.pc.b, w.pc.a, w.pc.hash, look, now, b);
      }
  }

  lemma RecordLeavesAlone(w: World, b: BatchId, a: AttemptId, reply: Reply, unknown: BatchId)
    requires InRange(w.db, b, a) && b != unknown && GoneUnknown(w, unknown)
    ensures LeavesAlone(w.db, RecordReply(w, b, a, reply).db, unknown)
  {
    if Usable(reply) {
      ReplyRewrites(w.db, b, a, reply.hash.value, reply.code.value);
      hide StoreReply;
    }
  }

  lemma LookLeavesAlone(w: World, b: BatchId, a: AttemptId, hash: Hash, look: Look, now: nat, unknown: BatchId)
    requires InRange(w.db, b, a) && b != unknown && GoneUnknown(w, unknown)
    ensures LeavesAlone(w.db, TakeLook(w, b, a, hash, look, now).db, unknown)
  {
  }

  /** A batch gone unknown stays unknown, and nothing more is sent for it. */
  lemma StepKeepsUnknown(w: World, e: Event, b: BatchId)
    requires Inv(w) && GoneUnknown(w, b)
    ensures GoneUnknown(Step(w, e), b)
    ensures SentFor(Step(w, e).db, Step(w, e).sent, b) == SentFor(w.db, w.sent, b)
  {
    OtherBatchInHand(w, b);
    StepLeavesAlone(w, e, b);
    SentBy(w, e);
    SentInRange(w);
    if w.pc.AboutToSend? {
      BusyAttempt(w, w.pc.b, w.pc.a);
    }
    var after := Step(w, e);
    hide Inv, Step;
    assert SentFor(after.db, after.sent, b) == SentFor(w.db, w.sent, b);
  }

  lemma SentInRange(w: World)
    requires Inv(w)
    ensures forall a :: a in w.sent ==> a < |w.db.attempts|
  {
  }

  lemma SentBy(w: World, e: Event)
    ensures Step(w, e).sent == w.sent || (w.pc.AboutToSend? && Step(w, e).sent == w.sent + [w.pc.a])
  {
    hide Freeze, StoreBlock, StoreFailure, StoreConfirmed, StoreReply, Move, StoreRestart, StoreSigned;
  }

  /** The process never holds an unknown batch. */
  lemma OtherBatchInHand(w: World, b: BatchId)
    requires Inv(w) && GoneUnknown(w, b)
    ensures w.pc != Idle ==> w.pc.b != b
  {
  }

  /** However a run goes on from there, through crashes and operator actions. */
  lemma {:induction false} UnknownIsNeverRebroadcast(w: World, events: seq<Event>, b: BatchId)
    requires Inv(w) && GoneUnknown(w, b)
    ensures GoneUnknown(Run(w, events), b)
    ensures SentFor(Run(w, events).db, Run(w, events).sent, b) == SentFor(w.db, w.sent, b)
    decreases |events|
  {
    if events != [] {
      hide Inv, Step, GoneUnknown, SentFor;
      StepKeepsInv(w, events[0]);
      StepKeepsUnknown(w, events[0], b);
      UnknownIsNeverRebroadcast(Step(w, events[0]), events[1..], b);
    }
  }

  // ---- The retry budget ----

  function RefusedFor(attempts: seq<Attempt>, b: BatchId): (ids: set<AttemptId>)
    ensures forall a: AttemptId :: a in ids <==> a < |attempts| && attempts[a].batch == b && attempts[a].state.Refused()
  {
    set a: AttemptId | a < |attempts| && attempts[a].batch == b && attempts[a].state.Refused()
  }

  function TimesCleared(cleared: seq<BatchId>, b: BatchId): nat
  {
    if cleared == [] then 0
    else TimesCleared(cleared[..|cleared| - 1], b) + if cleared[|cleared| - 1] == b then 1 else 0
  }

  /** The failure counter counts exactly the refused attempts since the operator last cleared the batch, and
      the third one is an intervention. */
  ghost predicate Budget(db: Tables)
  {
    forall b :: 0 <= b < |db.batches| ==>
      BudgetOf(db.batches[b], |RefusedFor(db.attempts, b)|, TimesCleared(db.cleared, b))
  }

  predicate BudgetOf(batch: Batch, refused: nat, cleared: nat)
  {
    refused == MAX_FAILURES * cleared + batch.failures
    && batch.failures <= MAX_FAILURES && (batch.state == Intervention <==> batch.failures == MAX_FAILURES)
  }

  lemma RewriteKeepsBudget(db: Tables, b: BatchId, a: AttemptId, batch: Batch, row: Attempt)
    requires InRange(db, b, a) && Budget(db) && db.attempts[a].batch == b && row.batch == b
    requires batch.failures == db.batches[b].failures && batch.state != Intervention
             && db.batches[b].state != Intervention
    requires !row.state.Refused() && !db.attempts[a].state.Refused()
    ensures Budget(Rewrite(db, b, a, batch, row))
  {
    var after := Rewrite(db, b, a, batch, row);
    forall other | 0 <= other < |after.batches|
      ensures BudgetOf(after.batches[other], |RefusedFor(after.attempts, other)|, TimesCleared(after.cleared, other))
    {
      assert RefusedFor(after.attempts, other) == RefusedFor(db.attempts, other);
    }
  }

  lemma FailureKeepsBudget(db: Tables, b: BatchId, a: AttemptId, how: AttemptState, now: nat)
    requires InRange(db, b, a) && Budget(db) && db.attempts[a].batch == b && !db.attempts[a].state.Refused()
             && how.Refused()
    requires db.batches[b].state != Intervention
    ensures Budget(StoreFailure(db, b, a, how, now))
  {
    var after := StoreFailure(db, b, a, how, now);
    assert RefusedFor(after.attempts, b) == RefusedFor(db.attempts, b) + {a};
    assert BudgetOf(db.batches[b], |RefusedFor(db.attempts, b)|, TimesCleared(db.cleared, b));
    forall other | 0 <= other < |after.batches|
      ensures BudgetOf(after.batches[other], |RefusedFor(after.attempts, other)|, TimesCleared(after.cleared, other))
    {
      if other != b {
        assert RefusedFor(after.attempts, other) == RefusedFor(db.attempts, other);
      }
    }
  }

  lemma SigningKeepsBudget(db: Tables, b: BatchId)
    requires b < |db.batches| && Budget(db) && db.batches[b].state != Intervention
    ensures Budget(StoreSigned(db, b))
  {
    var after := StoreSigned(db, b);
    forall other | 0 <= other < |after.batches|
      ensures BudgetOf(after.batches[other], |RefusedFor(after.attempts, other)|, TimesCleared(after.cleared, other))
    {
      assert RefusedFor(after.attempts, other) == RefusedFor(db.attempts, other);
    }
  }

  lemma ClearingKeepsBudget(db: Tables, b: BatchId)
    requires b < |db.batches| && Budget(db) && db.batches[b].state == Intervention
    ensures Budget(StoreCleared(db, b))
  {
    var after := StoreCleared(db, b);
    assert after.cleared[..|db.cleared|] == db.cleared;
    assert BudgetOf(db.batches[b], |RefusedFor(db.attempts, b)|, TimesCleared(db.cleared, b));
  }

  lemma NewBatchKeepsBudget(db: Tables, batch: Batch)
    requires Budget(db) && AttemptsOk(db) && batch.failures == 0 && batch.state != Intervention
    requires forall b :: b in db.cleared ==> b < |db.batches|
    ensures Budget(db.(batches := db.batches + [batch]))
  {
    var n := |db.batches|;
    assert RefusedFor(db.attempts, n) == {};
    NeverCleared(db.cleared, n);
  }

  lemma {:induction false} NeverCleared(cleared: seq<BatchId>, b: BatchId)
    requires b !in cleared
    ensures TimesCleared(cleared, b) == 0
  {
    if cleared != [] {
      NeverCleared(cleared[..|cleared| - 1], b);
    }
  }

  ghost predicate BudgetInv(w: World)
  {
    Budget(w.db) && forall b :: b in w.db.cleared ==> b < |w.db.batches|
  }

  lemma StepKeepsBudget(w: World, e: Event)
    requires Inv(w) && BudgetInv(w)
    ensures BudgetInv(Step(w, e))
  {
    hide Budget, AttemptsOk, SentOk;
    match e
    case Crash =>
    case Block(height, fills) => BlockKeepsBudget(w.db, height, fills);
    case Clear(b, claim) =>
      if Clearable(w.db, b, claim) {
        ClearingKeepsBudget(w.db, b);
      }
    case FreezeFor(vault, limit) =>
      if w.pc == Idle && Freeze(w.db, vault, limit).Froze? {
        FreezeAddsBatch(w.db, vault, limit);
        hide Freeze;
        NewBatchKeepsBudget(w.db, Freeze(w.db, vault, limit).db.batches[|w.db.batches|]);
      }
    case Begin(b, now) =>
      if w.pc == Idle && b < |w.db.batches| {
        BeginKeepsBudget(w, b, now);
      }
    case MarkSending =>
      if w.pc.AfterSign? {
        HandKeepsBudget(w, Broadcasting, WasBroadcasting);
      }
    case Send(reply) =>
    case Record =>
      if w.pc.Answered? {
        RecordKeepsBudget(w, w.pc.b, w.pc.a, w.pc.reply);
      }
    case Refuse(now) =>
      if w.pc.Refusing? {
        HandIsLive(w);
        FailureKeepsBudget(w.db, w.pc.b, w.pc.a, CheckFailed, now);
      }
    case LookUp(look, now) =>
      if w.pc.Polling? {
        LookKeepsBudget(w, w.pc.b, w.pc.a, w.pc.hash, look, now);
      }
  }

  lemma BlockKeepsBudget(db: Tables, height: nat, fills: seq<Fill>)
    requires Budget(db)
    ensures Budget(StoreBlock(db, height, fills))
  {
  }

  lemma FreezeAddsBatch(db: Tables, vault: VaultId, limit: nat)
    requires Freeze(db, vault, limit).Froze?
    ensures var after := Freeze(db, vault, limit).db;
            |after.batches| == |db.batches| + 1
            && var batch := after.batches[|db.batches|];
               batch.failures == 0 && batch.state == Ready && after == db.(batches := db.batches + [batch])
  {
    hide Select, Candidates, TakeSnapshot, FrozenIds, FirstActive;
  }

  /** The attempt in hand is not a refused one, and its batch not stopped. */
  lemma HandIsLive(w: World)
    requires Inv(w) && w.pc != Idle
    ensures InRange(w.db, w.pc.b, w.pc.a) && w.db.attempts[w.pc.a].batch == w.pc.b
    ensures !w.db.attempts[w.pc.a].state.Refused() && w.db.batches[w.pc.b].state != Intervention
  {
    assert Tied(w.db.batches[w.pc.b].state, LatestRow(w.db.attempts, w.pc.b));
  }

  lemma HandKeepsBudget(w: World, state: BatchState, attempt: AttemptState)
    requires Inv(w) && Budget(w.db) && w.pc != Idle && state != Intervention && !attempt.Refused()
    ensures Budget(Move(w.db, w.pc.b, w.pc.a, state, attempt))
  {
    HandIsLive(w);
    var b, a := w.pc.b, w.pc.a;
    RewriteKeepsBudget(w.db, b, a, w.db.batches[b].(state := state), w.db.attempts[a].(state := attempt));
  }

  lemma BeginKeepsBudget(w: World, b: BatchId, now: nat)
    requires Inv(w) && BudgetInv(w) && w.pc == Idle && b < |w.db.batches|
    ensures BudgetInv(BeginBatch(w, b, now))
  {
    assert Tied(w.db.batches[b].state, LatestRow(w.db.attempts, b));
    hide Budget, AttemptsOk, SentOk;
    if w.db.batches[b].state == Broadcasting {
      var a := Latest(w.db.attempts, b).value;
      RewriteKeepsBudget(w.db, b, a, w.db.batches[b].(state := Unknown), w.db.attempts[a].(state := WasUnknown));
    } else if w.db.batches[b].state in {Ready, Signed} {
      SigningKeepsBudget(w.db, b);
    }
  }

  lemma RecordKeepsBudget(w: World, b: BatchId, a: AttemptId, reply: Reply)
    requires Inv(w) && BudgetInv(w) && w.pc == Answered(b, a, reply)
    ensures BudgetInv(RecordReply(w, b, a, reply))
  {
    HandIsLive(w);
    hide Budget, AttemptsOk, SentOk;
    if Usable(reply) {
      var hash := reply.hash.value;
      ReplyRewrites(w.db, b, a, hash, reply.code.value);
      hide StoreReply;
      var row := w.db.attempts[a].(hash := Some(hash));
      var batch := w.db.batches[b].(hash := Some(hash));
      if reply.code.value != 0 {
        RewriteKeepsBudget(w.db, b, a, batch, row);
      } else {
        RewriteKeepsBudget(w.db, b, a, batch.(state := Broadcast), row.(state := WasBroadcast));
      }
    } else {
      HandKeepsBudget(w, Unknown, WasUnknown);
    }
  }

  lemma LookKeepsBudget(w: World, b: BatchId, a: AttemptId, hash: Hash, look: Look, now: nat)
    requires Inv(w) && BudgetInv(w) && w.pc == Polling(b, a, hash)
    ensures BudgetInv(TakeLook(w, b, a, hash, look, now))
  {
    HandIsLive(w);
    hide AttemptsOk, SentOk;
    if look.seen.None? || !look.deep {
      hide Budget;
      HandKeepsBudget(w, Timeout, WasTimeout);
    } else if look.seen.value.code != 0 {
      hide Budget;
      FailureKeepsBudget(w.db, b, a, DeliverFailed, now);
    } else if look.seen.value.reverted {
      hide Budget;
      FailureKeepsBudget(w.db, b, a, PageReverted, now);
    } else {
      ConfirmKeepsBudget(w.db, b, a, hash, look.seen.value.height);
    }
  }

  lemma ConfirmKeepsBudget(db: Tables, b: BatchId, a: AttemptId, hash: Hash, height: nat)
    requires InRange(db, b, a) && Budget(db) && db.attempts[a].batch == b && !db.attempts[a].state.Refused()
    requires db.batches[b].state != Intervention
    ensures Budget(StoreConfirmed(db, b, a, hash, height))
  {
    var after := StoreConfirmed(db, b, a, hash, height);
    RewriteKeepsBudget(db, b, a, after.batches[b], db.attempts[a].(state := WasConfirmed));
  }

  lemma {:induction false} RunKeepsBudget(w: World, events: seq<Event>)
    requires Inv(w) && BudgetInv(w)
    ensures BudgetInv(Run(w, events)) && Inv(Run(w, events))
    decreases |events|
  {
    if events != [] {
      hide Inv, BudgetInv, Step;
      StepKeepsInv(w, events[0]);
      StepKeepsBudget(w, events[0]);
      RunKeepsBudget(Step(w, events[0]), events[1..]);
    }
  }

  /** Over every run, a batch is broadcast at most three times, and three more for each time the operator
      cleared it. */
  lemma BroadcastsAreBounded(scanned: nat, events: seq<Event>, b: BatchId)
    requires b < |Run(Fresh(scanned), events).db.batches|
    ensures var w := Run(Fresh(scanned), events);
            |SentFor(w.db, w.sent, b)| <= MAX_FAILURES * (TimesCleared(w.db.cleared, b) + 1)
  {
    FreshInv(scanned);
    RunKeepsBudget(Fresh(scanned), events);
    var w := Run(Fresh(scanned), events);
    hide Run;
    SentAreRefusedOrLatest(w, b);
    assert BudgetOf(w.db.batches[b], |RefusedFor(w.db.attempts, b)|, TimesCleared(w.db.cleared, b));
  }

  lemma SentAreRefusedOrLatest(w: World, b: BatchId)
    requires Inv(w) && b < |w.db.batches|
    ensures |SentFor(w.db, w.sent, b)|
            <= |RefusedFor(w.db.attempts, b)| + if w.db.batches[b].state == Intervention then 0 else 1
  {
    var refused := RefusedFor(w.db.attempts, b);
    var sent := SentFor(w.db, w.sent, b);
    var latest := Latest(w.db.attempts, b);
    assert Tied(w.db.batches[b].state, LatestRow(w.db.attempts, b));
    forall a | a in sent ensures a in refused || latest == Some(a) {
      if latest != Some(a) {
        assert Superseded(w.db.attempts[a]);
      }
    }
    if w.db.batches[b].state == Intervention {
      assert sent <= refused;
      SubsetSmaller(sent, refused);
    } else if latest.Some? {
      assert sent <= refused + {latest.value};
      SubsetSmaller(sent, refused + {latest.value});
    } else {
      SubsetSmaller(sent, refused);
    }
  }

  lemma SubsetSmaller(a: set<AttemptId>, b: set<AttemptId>)
    requires a <= b
    ensures |a| <= |b|
  {
    assert b == a + (b - a);
  }

  // ---- Backoff ----

  /** After its first failure a batch rests for 60 seconds, after its second for 120: until then processing
      it does nothing, from then on it signs anew. The third failure stops it instead. */
  lemma BackoffHoldsOff(w: World, b: BatchId, a: AttemptId, how: AttemptState, now: nat, later: nat)
    requires InRange(w.db, b, a) && w.pc == Idle && Latest(w.db.attempts, b) == Some(a) && how.Refused()
    ensures var failed := w.(db := StoreFailure(w.db, b, a, how, now));
            var failures := w.db.batches[b].failures + 1;
            if failures >= 3 then
              failed.db.batches[b].state == Intervention && Step(failed, Begin(b, later)) == failed
            else
              Step(failed, Begin(b, later))
              == if later < now + (if failures == 1 then 60 else 120) then failed
                 else World(StoreSigned(failed.db, b), AfterSign(b, |w.db.attempts|), w.sent)
  {
    var failed := w.(db := StoreFailure(w.db, b, a, how, now));
    LatestAfterUpdate(w.db.attempts, a, w.db.attempts[a].(state := how));
    assert Doubled(0) == 1 && Doubled(1) == 2;
    hide Latest, Doubled, StoreSigned;
    assert Latest(failed.db.attempts, b) == Some(a);
    assert OnItsWay(failed.db, b) == None;
  }
}
