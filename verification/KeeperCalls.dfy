/** What one call of `process_batch` comes to, given what the signer, the network and the clock answer and
    how far the process gets: its result and its run of the keeper machine. */
module KeeperCalls {
  import opened KeeperTables
  import opened KeeperMachine

  /** What `process_batch` returns; `Died` when the process did not get that far. */
  datatype Outcome =
    | NoSuchBatch | IsConfirmed | IsIntervention | IsBackoff | IsUnknown | SignFailed
    | IsCheckFailed | IsDeliverFailed | IsPageReverted | IsTimeout | Died

  /** What each result says about the batch's durable state. */
  ghost predicate Reported(r: Outcome, state: BatchState)
  {
    match r
    case NoSuchBatch => false
    case IsConfirmed => state == Confirmed
    case IsIntervention => state == Intervention
    case IsBackoff => state == Ready
    case IsUnknown => state == Unknown
    case SignFailed => state !in {Unknown, Confirmed, Intervention, Broadcasting}
    case IsCheckFailed => state in {Ready, Intervention}
    case IsDeliverFailed => state in {Ready, Intervention}
    case IsPageReverted => state in {Ready, Intervention}
    case IsTimeout => state == Timeout
    case Died => true
  }

  /** A turn of the polling loop and the clock at it. */
  datatype Turn = Turn(look: Look, at: nat)

  /** The world outside one call: the signer's answer, the network's, the clock when a check failure is
      recorded, and the turns of the polling loop before the process dies. It also dies after `budget`
      commits and network calls ahead of polling. */
  datatype Outside = Outside(canSign: bool, reply: Reply, refusedAt: nat, turns: seq<Turn>, budget: nat)

  datatype Course = Course(outcome: Outcome, trace: seq<Event>)

  function Then(events: seq<Event>, c: Course): Course { Course(c.outcome, events + c.trace) }

  /** A look ends the loop when the transaction is found deep enough, or time is up. */
  predicate Settles(look: Look) { (look.seen.Some? && look.deep) || look.expired }

  function SettledAs(look: Look): Outcome
    requires Settles(look)
  {
    if look.seen.None? || !look.deep then IsTimeout
    else if look.seen.value.code != 0 then IsDeliverFailed
    else if look.seen.value.reverted then IsPageReverted
    else IsConfirmed
  }

  /** Polling goes on to the first look that settles. */
  function PollCourse(turns: seq<Turn>): Course
    decreases |turns|
  {
    if turns == [] then Course(Died, [Crash])
    else
      var event := LookUp(turns[0].look, turns[0].at);
      if Settles(turns[0].look) then Course(SettledAs(turns[0].look), [event])
      else Then([event], PollCourse(turns[1..]))
  }

  /** From the network's answer on. */
  function RecordCourse(o: Outside, budget: nat): Course
  {
    if budget < 1 then Course(Died, [Crash])
    else if !Usable(o.reply) then Course(IsUnknown, [Record])
    else if o.reply.code.value == 0 then Then([Record], PollCourse(o.turns))
    else if budget < 2 then Course(Died, [Record, Crash])
    else Course(IsCheckFailed, [Record, Refuse(o.refusedAt)])
  }

  /** From the committed signature on. */
  function SendCourse(o: Outside, budget: nat): Course
  {
    if budget < 1 then Course(Died, [Crash])
    else if budget < 2 then Course(Died, [MarkSending, Crash])
    else Then([MarkSending, Send(o.reply)], RecordCourse(o, budget - 2))
  }

  function CallCourse(db: Tables, b: BatchId, now: nat, o: Outside): Course
  {
    if b >= |db.batches| then Course(NoSuchBatch, [])
    else
      var batch := db.batches[b];
      if batch.state == Confirmed then Course(IsConfirmed, [])
      else if batch.state == Intervention then Course(IsIntervention, [])
      else if Waiting(batch, now) then Course(IsBackoff, [])
      else if batch.state == Unknown then Course(IsUnknown, [])
      else if batch.state == Broadcasting then
        if o.budget < 1 then Course(Died, []) else Course(IsUnknown, [Begin(b, now)])
      else if OnItsWay(db, b).Some? then Then([Begin(b, now)], PollCourse(o.turns))
      else if !o.canSign then Course(SignFailed, [])
      else if o.budget < 1 then Course(Died, [])
      else Then([Begin(b, now)], SendCourse(o, o.budget - 1))
  }

  /** The first turn that settles, or the number of turns. */
  function FirstSettled(turns: seq<Turn>): (k: nat)
    ensures k <= |turns| && (forall i :: 0 <= i < k ==> !Settles(turns[i].look))
    ensures k < |turns| ==> Settles(turns[k].look)
  {
    if turns == [] || Settles(turns[0].look) then 0 else 1 + FirstSettled(turns[1..])
  }

  /** Polling ends as the first settling look says, having looked once for each turn up to it, and dies
      exactly when none settles. */
  lemma {:induction false} PollEndsAtFirstSettled(turns: seq<Turn>)
    ensures var k, c := FirstSettled(turns), PollCourse(turns);
            |c.trace| == k + 1
            && (forall i :: 0 <= i < |c.trace| ==>
                  c.trace[i] == if i < |turns| then LookUp(turns[i].look, turns[i].at) else Crash)
            && (if k < |turns| then c.outcome == SettledAs(turns[k].look) else c.outcome == Died)
    decreases |turns|
  {
    if turns != [] && !Settles(turns[0].look) {
      PollEndsAtFirstSettled(turns[1..]);
    }
  }

  /** Exactly when a call is cut short: before the restart is stored; before a look settles, where it polls;
      or within the five commits and calls from signing to a recorded check failure. */
  lemma CallDiesIff(db: Tables, b: BatchId, now: nat, o: Outside)
    ensures CallCourse(db, b, now, o).outcome == Died
            <==> b < |db.batches| && db.batches[b].state in {Ready, Signed, Broadcasting, Broadcast, Timeout}
                 && !Waiting(db.batches[b], now)
                 && if db.batches[b].state == Broadcasting then o.budget == 0
                    else if OnItsWay(db, b).Some? then FirstSettled(o.turns) == |o.turns|
                    else
                      o.canSign
                      && (o.budget < 4
                          || (Usable(o.reply)
                              && if o.reply.code.value == 0 then FirstSettled(o.turns) == |o.turns| else o.budget < 5))
  {
    PollEndsAtFirstSettled(o.turns);
    hide OnItsWay;
  }

  /** Only a batch that does not exist is reported as such. */
  lemma NoSuchBatchIff(db: Tables, b: BatchId, now: nat, o: Outside)
    ensures CallCourse(db, b, now, o).outcome == NoSuchBatch <==> b >= |db.batches|
  {
    PollEndsAtFirstSettled(o.turns);
    hide OnItsWay;
  }
}
