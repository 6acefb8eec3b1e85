/** The keeper process over its tables, one committed transaction or network call a step, with a crash
    possible between any two; and what the durable states say about what was sent. */
module KeeperMachine {
  import opened Arithmetic
  import opened KeeperTables

  /** What `broadcast` came back with: an exception, or a response with whatever fields it had. */
  datatype Reply = Raised | Answer(code: Option<int>, hash: Option<Hash>)

  /** A transaction found on chain, its hash and height already checked. */
  datatype Included = Included(height: nat, code: int, reverted: bool)

  /** One turn of the polling loop: what the query found, whether it is deep enough, whether time is up. */
  datatype Look = Look(seen: Option<Included>, deep: bool, expired: bool)

  /** Where the process is inside `process_batch`; a crash forgets it. */
  datatype Process =
    | Idle
    | AfterSign(b: BatchId, a: AttemptId)
    | AboutToSend(b: BatchId, a: AttemptId)
    | Answered(b: BatchId, a: AttemptId, reply: Reply)
    | Refusing(b: BatchId, a: AttemptId)
    | Polling(b: BatchId, a: AttemptId, hash: Hash)

  /** `sent` is every attempt handed to the network so far, in order. */
  datatype World = World(db: Tables, pc: Process, sent: seq<AttemptId>)

  /** What an operator brings to clear an intervention: the failure named, the code under which the chain
      reports its transaction, if it does, and whether the vault answered and the backup was written. */
  datatype Claim = Claim(reason: AttemptState, onChain: Option<int>, backedUp: bool)

  datatype Event =
    | Crash
    | Block(height: nat, fills: seq<Fill>)
    | Clear(cleared: BatchId, claim: Claim)
    | FreezeFor(vault: VaultId, limit: nat)
    | Begin(batch: BatchId, now: nat)
    | MarkSending
    | Send(reply: Reply)
    | Record
    | Refuse(refusedAt: nat)
    | LookUp(look: Look, lookedAt: nat)

  function Step(w: World, e: Event): World
  {
    match e
    case Crash => w.(pc := Idle)
    case Block(height, fills) => if height <= w.db.scanned then w else w.(db := StoreBlock(w.db, height, fills))
    case Clear(b, claim) => if Clearable(w.db, b, claim) then w.(db := StoreCleared(w.db, b)) else w
    case FreezeFor(vault, limit) =>
      if w.pc != Idle then w
      else
        var outcome := Freeze(w.db, vault, limit);
        if outcome.Froze? then w.(db := outcome.db) else w
    case Begin(b, now) => if w.pc == Idle && b < |w.db.batches| then BeginBatch(w, b, now) else w
    case MarkSending =>
      if w.pc.AfterSign? && InRange(w.db, w.pc.b, w.pc.a) then
        World(Move(w.db, w.pc.b, w.pc.a, Broadcasting, WasBroadcasting), AboutToSend(w.pc.b, w.pc.a), w.sent)
      else w
    case Send(reply) =>
      if w.pc.AboutToSend? then World(w.db, Answered(w.pc.b, w.pc.a, reply), w.sent + [w.pc.a]) else w
    case Record =>
      if w.pc.Answered? && InRange(w.db, w.pc.b, w.pc.a) then RecordReply(w, w.pc.b, w.pc.a, w.pc.reply) else w
    case Refuse(now) =>
      if w.pc.Refusing? && InRange(w.db, w.pc.b, w.pc.a) then
        World(StoreFailure(w.db, w.pc.b, w.pc.a, CheckFailed, now), Idle, w.sent)
      else w
    case LookUp(look, now) =>
      if w.pc.Polling? && InRange(w.db, w.pc.b, w.pc.a) then TakeLook(w, w.pc.b, w.pc.a, w.pc.hash, look, now) else w
  }

  /** `resolve_intervention`: the named failure is the recorded one, and the chain does not contradict it. */
  predicate Clearable(db: Tables, b: BatchId, claim: Claim)
  {
    b < |db.batches| && db.batches[b].state == Intervention
    && Latest(db.attempts, b).Some?
    && var at := db.attempts[Latest(db.attempts, b).value];
       claim.reason.Refused() && at.state == claim.reason && claim.backedUp
       && (claim.reason != CheckFailed ==>
             (HasHash(at.hash) || HasHash(db.batches[b].hash)) && claim.onChain.Some?
             && (claim.reason == DeliverFailed ==> claim.onChain.value != 0)
             && (claim.reason == PageReverted ==> claim.onChain.value == 0))
  }

  predicate HasHash(hash: Option<Hash>) { hash.Some? && hash.value != "" }

  predicate InRange(db: Tables, b: BatchId, a: AttemptId) { b < |db.batches| && a < |db.attempts| }

  predicate Waiting(batch: Batch, now: nat)
  {
    batch.state == Ready && batch.nextRetry.Some? && now < batch.nextRetry.value
  }

  /** The hash to poll, when the latest attempt is on its way. */
  function OnItsWay(db: Tables, b: BatchId): (found: Option<(AttemptId, Hash)>)
    ensures found.Some? ==> found.value.0 < |db.attempts|
  {
    var latest := Latest(db.attempts, b);
    if latest.None? then None
    else
      var at := db.attempts[latest.value];
      if HasHash(at.hash) && at.state in {WasBroadcast, WasTimeout} then Some((latest.value, at.hash.value))
      else None
  }

  /** `process_batch` up to its first commit: nothing to do, a restart, a poll, or a new signed attempt. */
  function BeginBatch(w: World, b: BatchId, now: nat): World
    requires b < |w.db.batches|
  {
    var batch := w.db.batches[b];
    if batch.state in {Confirmed, Intervention} || Waiting(batch, now) then w
    else if batch.state == Broadcasting then w.(db := StoreRestart(w.db, b))
    else if batch.state == Unknown then w
    else
      var polled := OnItsWay(w.db, b);
      if polled.Some? then w.(pc := Polling(b, polled.value.0, polled.value.1))
      else World(StoreSigned(w.db, b), AfterSign(b, |w.db.attempts|), w.sent)
  }

  predicate Usable(reply: Reply)
  {
    reply.Answer? && reply.code.Some? && reply.hash.Some? && reply.hash.value != ""
  }

  function RecordReply(w: World, b: BatchId, a: AttemptId, reply: Reply): World
    requires InRange(w.db, b, a)
  {
    if !Usable(reply) then World(Move(w.db, b, a, Unknown, WasUnknown), Idle, w.sent)
    else
      var db := StoreReply(w.db, b, a, reply.hash.value, reply.code.value);
      World(db, if reply.code.value != 0 then Refusing(b, a) else Polling(b, a, reply.hash.value), w.sent)
  }

  function TakeLook(w: World, b: BatchId, a: AttemptId, hash: Hash, look: Look, now: nat): World
    requires InRange(w.db, b, a)
  {
    if look.seen.None? || !look.deep then
      if look.expired then World(Move(w.db, b, a, Timeout, WasTimeout), Idle, w.sent) else w
    else
      var tx := look.seen.value;
      if tx.code != 0 then World(StoreFailure(w.db, b, a, DeliverFailed, now), Idle, w.sent)
      else if tx.reverted then World(StoreFailure(w.db, b, a, PageReverted, now), Idle, w.sent)
      else World(StoreConfirmed(w.db, b, a, hash, tx.height), Idle, w.sent)
  }

  function Run(w: World, events: seq<Event>): World
    decreases |events|
  {
    if events == [] then w else Run(Step(w, events[0]), events[1..])
  }

  function Fresh(scanned: nat): World { World(Tables([], map[], [], [], scanned, []), Idle, []) }

  // ---- The invariant ----

  /** What a batch's state says about its latest attempt. */
  predicate Tied(state: BatchState, latest: Option<Attempt>)
  {
    match state
    case Ready => latest.None? || latest.value.state.Refused()
    case Intervention => latest.Some? && latest.value.state.Refused()
    case Signed => latest.Some? && latest.value.state == WasSigned
    case Broadcasting => latest.Some? && latest.value.state == WasBroadcasting
    case Broadcast => latest.Some? && latest.value.state == WasBroadcast && HasHash(latest.value.hash)
    case Timeout => latest.Some? && latest.value.state == WasTimeout && HasHash(latest.value.hash)
    case Unknown => latest.Some? && latest.value.state == WasUnknown
    case Confirmed => latest.Some? && latest.value.state == WasConfirmed
  }

  function LatestRow(attempts: seq<Attempt>, b: BatchId): Option<Attempt>
  {
    var latest := Latest(attempts, b);
    if latest.None? then None else Some(attempts[latest.value])
  }

  ghost predicate AttemptsOk(db: Tables)
  {
    (forall a :: 0 <= a < |db.attempts| ==> db.attempts[a].batch < |db.batches|)
    && (forall b :: 0 <= b < |db.batches| ==> Tied(db.batches[b].state, LatestRow(db.attempts, b)))
    && (forall a :: 0 <= a < |db.attempts| && Latest(db.attempts, db.attempts[a].batch) != Some(a) ==>
          Superseded(db.attempts[a]))
  }

  /** What an attempt followed by another one ended as. */
  predicate Superseded(at: Attempt) { at.state.Refused() || at.state == WasSigned }

  /** No attempt is sent twice, and one still only signed was never sent. */
  ghost predicate SentOk(db: Tables, sent: seq<AttemptId>)
  {
    (forall i, j :: 0 <= i < j < |sent| ==> sent[i] != sent[j])
    && (forall a :: a in sent ==> a < |db.attempts| && db.attempts[a].state != WasSigned)
  }

  /** The process's memory agrees with the tables. */
  ghost predicate ProcessOk(w: World)
  {
    w.pc == Idle
    || (InRange(w.db, w.pc.b, w.pc.a) && Latest(w.db.attempts, w.pc.b) == Some(w.pc.a)
        && match w.pc
           case AfterSign(b, a) => w.db.batches[b].state == Signed
           case AboutToSend(b, a) => w.db.batches[b].state == Broadcasting && a !in w.sent
           case Answered(b, a, reply) => w.db.batches[b].state == Broadcasting
           case Refusing(b, a) => w.db.batches[b].state == Broadcasting
           case Polling(b, a, hash) =>
             w.db.batches[b].state in {Broadcast, Timeout} && w.db.attempts[a].hash == Some(hash) && hash != "")
  }

  ghost predicate Inv(w: World) { AttemptsOk(w.db) && SentOk(w.db, w.sent) && ProcessOk(w) }
}
