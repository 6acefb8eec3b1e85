/** The keeper's durable tables as values, and each of its database transactions as a function from
    tables to tables. A transaction commits entirely or not at all. */
module KeeperTables {
  import opened Arithmetic

  type VaultId = string

  /** Pair addresses, numbered in the order their text sorts. */
  type PairId = nat

  type Hash = string

  type EventId = nat

  type BatchId = nat

  type AttemptId = nat

  datatype Key = Key(pair: PairId, order: nat)

  /** Transaction and event index of a fill. */
  datatype Source = Source(tx: Hash, index: nat)

  /** A row of `raw_events`; its id is its position. `reconciled` is `reconciled_batch_id`. */
  datatype RawEvent = RawEvent(
    source: Source, vault: VaultId, key: Key, height: nat, input: nat, output: nat, reconciled: Option<BatchId>)

  datatype Aggregate = Aggregate(vault: VaultId, input: nat, output: nat, count: nat, first: nat, through: nat)

  datatype BatchState = Ready | Signed | Broadcasting | Broadcast | Timeout | Unknown | Intervention | Confirmed

  datatype Item = Item(key: Key, input: nat, output: nat, count: nat)

  /** A row of `batches` with its `batch_items` and `batch_events`. */
  datatype Batch = Batch(
    vault: VaultId, through: nat, state: BatchState, failures: nat, nextRetry: Option<nat>, hash: Option<Hash>,
    items: seq<Item>, frozen: seq<EventId>)

  datatype AttemptState =
    | WasSigned | WasBroadcasting | WasBroadcast | WasTimeout | WasUnknown
    | CheckFailed | DeliverFailed | PageReverted | WasConfirmed
  {
    /** The node or the chain refused it for good. */
    predicate Refused() { this in {CheckFailed, DeliverFailed, PageReverted} }
  }

  datatype Attempt = Attempt(batch: BatchId, state: AttemptState, hash: Option<Hash>)

  /** `scanned` is the indexer's cursor; `cleared` the batches of the audit's clear-intervention rows. */
  datatype Tables = Tables(
    events: seq<RawEvent>, aggregates: map<Key, Aggregate>, batches: seq<Batch>, attempts: seq<Attempt>,
    scanned: nat, cleared: seq<BatchId>)

  const MAX_FAILURES: nat := 3

  const RETRY_BACKOFF: nat := 60

  // ---- Aggregates ----

  predicate Unmarked(e: RawEvent) { e.reconciled == None }

  /** `rebuild_aggregates`: the unmarked rows in id order, added up per order. */
  function Totals(events: seq<RawEvent>): map<Key, Aggregate>
  {
    if events == [] then map[]
    else
      var last := |events| - 1;
      AddRow(Totals(events[..last]), events[last])
  }

  function AddRow(totals: map<Key, Aggregate>, e: RawEvent): map<Key, Aggregate>
  {
    if e.reconciled.Some? then totals
    else
      var item := if e.key in totals then totals[e.key] else Aggregate(e.vault, 0, 0, 0, e.height, e.height);
      totals[e.key := item.(input := item.input + e.input, output := item.output + e.output,
                            count := item.count + 1, through := e.height)]
  }

  // ---- Freezing a batch ----

  function FirstActive(batches: seq<Batch>, vault: VaultId): (found: Option<BatchId>)
    ensures found.Some? ==>
              found.value < |batches| && batches[found.value].vault == vault && batches[found.value].state != Confirmed
    ensures found.None? ==>
              forall b :: 0 <= b < |batches| && batches[b].vault == vault ==> batches[b].state == Confirmed
  {
    if batches == [] then None
    else
      var last := |batches| - 1;
      var earlier := FirstActive(batches[..last], vault);
      if earlier.Some? then earlier
      else if batches[last].vault == vault && batches[last].state != Confirmed then Some(last)
      else None
  }

  /** Every event id in `batch_events`. */
  function FrozenIds(batches: seq<Batch>): (ids: set<EventId>)
    ensures forall id :: id in ids <==> exists b :: 0 <= b < |batches| && id in batches[b].frozen
  {
    set b, i | 0 <= b < |batches| && 0 <= i < |batches[b].frozen| :: batches[b].frozen[i]
  }

  predicate Of(e: RawEvent, vault: VaultId, key: Key) { e.vault == vault && e.key == key && Unmarked(e) }

  /** Unmarked events of one order, in id order. */
  function OrderEvents(events: seq<RawEvent>, vault: VaultId, key: Key): (ids: seq<EventId>)
    ensures forall id: EventId :: id in ids <==> id < |events| && Of(events[id], vault, key)
    ensures forall i :: 0 <= i < |ids| ==> ids[i] < |events|
    ensures forall i, j :: 0 <= i < j < |ids| ==> ids[i] < ids[j]
  {
    if events == [] then []
    else
      var last := |events| - 1;
      var earlier := OrderEvents(events[..last], vault, key);
      assert forall i :: 0 <= i < |earlier| ==> earlier[i] in earlier;
      if Of(events[last], vault, key) then earlier + [last] else earlier
  }

  /** Orders with an unmarked event that no batch has frozen. */
  function Candidates(db: Tables, vault: VaultId): (keys: set<Key>)
    ensures forall key :: key in keys <==> exists id :: Open(db, vault, key, id)
  {
    set id | 0 <= id < |db.events| && Open(db, vault, db.events[id].key, id) :: db.events[id].key
  }

  predicate Open(db: Tables, vault: VaultId, key: Key, id: EventId)
  {
    id < |db.events| && Of(db.events[id], vault, key)
    && id !in FrozenIds(db.batches)
  }

  /** `MIN(height)` over the open events of an order with an id below `n`. */
  function OpenHeight(db: Tables, vault: VaultId, key: Key, n: nat): Option<nat>
    requires n <= |db.events|
  {
    if n == 0 then None
    else
      var earlier := OpenHeight(db, vault, key, n - 1);
      if !Open(db, vault, key, n - 1) then earlier
      else Some(if earlier.None? then db.events[n - 1].height else Min(earlier.value, db.events[n - 1].height))
  }

  /** The freeze order: oldest open event first, then pair, then order id. */
  predicate NoLater(db: Tables, vault: VaultId, a: Key, b: Key)
  {
    var ha, hb := OpenHeight(db, vault, a, |db.events|), OpenHeight(db, vault, b, |db.events|);
    var x, y := if ha.Some? then ha.value else 0, if hb.Some? then hb.value else 0;
    x < y || (x == y && (a.pair < b.pair || (a.pair == b.pair && a.order <= b.order)))
  }

  predicate IsForemost(db: Tables, vault: VaultId, keys: set<Key>, key: Key)
  {
    key in keys && forall other :: other in keys ==> NoLater(db, vault, key, other)
  }

  function Foremost(db: Tables, vault: VaultId, keys: set<Key>): (key: Key)
    requires keys != {}
    ensures IsForemost(db, vault, keys, key)
  {
    ForemostExists(db, vault, keys);
    var key :| IsForemost(db, vault, keys, key);
    key
  }

  lemma ForemostExists(db: Tables, vault: VaultId, keys: set<Key>)
    requires keys != {}
    ensures exists key :: IsForemost(db, vault, keys, key)
  {
    var key := FindForemost(db, vault, keys);
  }

  lemma FindForemost(db: Tables, vault: VaultId, keys: set<Key>) returns (key: Key)
    requires keys != {}
    ensures IsForemost(db, vault, keys, key)
  {
    var first :| first in keys;
    var rest := keys - {first};
    assert forall other :: other in keys ==> other == first || other in rest;
    key := first;
    if rest != {} {
      var other := FindForemost(db, vault, rest);
      key := if NoLater(db, vault, first, other) then first else other;
    }
  }

  function Select(db: Tables, vault: VaultId, keys: set<Key>, limit: nat): (chosen: seq<Key>)
    ensures forall key :: key in chosen ==> key in keys
    ensures |chosen| <= limit && (chosen == [] <==> keys == {} || limit == 0)
    ensures forall i, j :: 0 <= i < j < |chosen| ==> chosen[i] != chosen[j]
    decreases limit
  {
    if limit == 0 || keys == {} then []
    else
      var key := Foremost(db, vault, keys);
      [key] + Select(db, vault, keys - {key}, limit - 1)
  }

  function SumInput(events: seq<RawEvent>, ids: seq<EventId>): nat
    requires forall i :: 0 <= i < |ids| ==> ids[i] < |events|
  {
    if ids == [] then 0 else SumInput(events, ids[..|ids| - 1]) + events[ids[|ids| - 1]].input
  }

  function SumOutput(events: seq<RawEvent>, ids: seq<EventId>): nat
    requires forall i :: 0 <= i < |ids| ==> ids[i] < |events|
  {
    if ids == [] then 0 else SumOutput(events, ids[..|ids| - 1]) + events[ids[|ids| - 1]].output
  }

  function MaxHeight(events: seq<RawEvent>, ids: seq<EventId>): nat
    requires forall i :: 0 <= i < |ids| ==> ids[i] < |events|
  {
    if ids == [] then 0 else Max(MaxHeight(events, ids[..|ids| - 1]), events[ids[|ids| - 1]].height)
  }

  /** What a batch over the given orders freezes. */
  datatype Snapshot = Snapshot(ids: seq<EventId>, items: seq<Item>, through: nat)

  function TakeSnapshot(events: seq<RawEvent>, vault: VaultId, keys: seq<Key>): Snapshot
  {
    if keys == [] then Snapshot([], [], 0)
    else
      var last := |keys| - 1;
      AddOrder(events, vault, TakeSnapshot(events, vault, keys[..last]), keys[last])
  }

  function AddOrder(events: seq<RawEvent>, vault: VaultId, s: Snapshot, key: Key): Snapshot
  {
    var rows := OrderEvents(events, vault, key);
    Snapshot(s.ids + rows, s.items + [Item(key, SumInput(events, rows), SumOutput(events, rows), |rows|)],
             Max(s.through, MaxHeight(events, rows)))
  }

  datatype FreezeOutcome = Existing(id: BatchId) | NothingToDo | AlreadyFrozen | Froze(db: Tables, id: BatchId)

  /** `freeze_batch`. An event id that some batch holds already breaks the uniqueness of `batch_events`,
      and the transaction rolls back. */
  function Freeze(db: Tables, vault: VaultId, limit: nat): FreezeOutcome
  {
    var active := FirstActive(db.batches, vault);
    if active.Some? then Existing(active.value)
    else
      var chosen := Select(db, vault, Candidates(db, vault), limit);
      if chosen == [] then NothingToDo
      else
        var s := TakeSnapshot(db.events, vault, chosen);
        if exists id :: id in s.ids && id in FrozenIds(db.batches) then AlreadyFrozen
        else
          Froze(db.(batches := db.batches + [Batch(vault, s.through, Ready, 0, None, None, s.items, s.ids)]),
            |db.batches|)
  }

  // ---- The other transactions ----

  /** The attempt `_latest_attempt` finds. */
  function Latest(attempts: seq<Attempt>, b: BatchId): (found: Option<AttemptId>)
    ensures found.Some? ==>
              found.value < |attempts| && attempts[found.value].batch == b
              && forall a :: found.value < a < |attempts| ==> attempts[a].batch != b
    ensures found.None? ==> forall a :: 0 <= a < |attempts| ==> attempts[a].batch != b
  {
    if attempts == [] then None
    else
      var last := |attempts| - 1;
      if attempts[last].batch == b then Some(last) else Latest(attempts[..last], b)
  }

  function WithBatch(db: Tables, b: BatchId, row: Batch): Tables
    requires b < |db.batches|
  {
    db.(batches := db.batches[b := row])
  }

  function WithAttempt(db: Tables, a: AttemptId, row: Attempt): Tables
    requires a < |db.attempts|
  {
    db.(attempts := db.attempts[a := row])
  }

  /** Sets both states. */
  function Move(db: Tables, b: BatchId, a: AttemptId, state: BatchState, attempt: AttemptState): Tables
    requires b < |db.batches| && a < |db.attempts|
  {
    WithBatch(WithAttempt(db, a, db.attempts[a].(state := attempt)), b, db.batches[b].(state := state))
  }

  function StoreSigned(db: Tables, b: BatchId): Tables
    requires b < |db.batches|
  {
    WithBatch(db.(attempts := db.attempts + [Attempt(b, WasSigned, None)]), b, db.batches[b].(state := Signed))
  }

  /** A restart finds a broadcast under way: what became of it is not known. */
  function StoreRestart(db: Tables, b: BatchId): Tables
    requires b < |db.batches|
  {
    var latest := Latest(db.attempts, b);
    if latest.None? then WithBatch(db, b, db.batches[b].(state := Unknown))
      else Move(db, b, latest.value, Unknown, WasUnknown)
  }

  /** The node answered with a hash and a check code. */
  function StoreReply(db: Tables, b: BatchId, a: AttemptId, hash: Hash, code: int): Tables
    requires b < |db.batches| && a < |db.attempts|
  {
    var stored :=
      WithBatch(WithAttempt(db, a, db.attempts[a].(hash := Some(hash))), b, db.batches[b].(hash := Some(hash)));
    if code != 0 then stored else Move(stored, b, a, Broadcast, WasBroadcast)
  }

  function Doubled(n: nat): nat { if n == 0 then 1 else 2 * Doubled(n - 1) }

  /** `_record_failure`. */
  function StoreFailure(db: Tables, b: BatchId, a: AttemptId, how: AttemptState, now: nat): Tables
    requires b < |db.batches| && a < |db.attempts|
  {
    var failures := db.batches[b].failures + 1;
    var stopped := failures >= MAX_FAILURES;
    WithBatch(
      WithAttempt(db, a, db.attempts[a].(state := how)), b,
      db.batches[b].(state := if stopped then Intervention else Ready, failures := failures,
                     nextRetry := if stopped then None else Some(now + RETRY_BACKOFF * Doubled(failures - 1))))
  }

  /** Marks the batch's orders' events up to the inclusion height. */
  function MarkEvents(events: seq<RawEvent>, b: BatchId, batch: Batch, height: nat): (marked: seq<RawEvent>)
    ensures |marked| == |events|
    ensures forall i :: 0 <= i < |events| ==>
              marked[i] == if Covers(batch, events[i], height) then events[i].(reconciled := Some(b)) else events[i]
  {
    seq(|events|, i requires 0 <= i < |events| =>
          if Covers(batch, events[i], height) then events[i].(reconciled := Some(b)) else events[i])
  }

  predicate Covers(batch: Batch, e: RawEvent, height: nat)
  {
    Unmarked(e) && e.vault == batch.vault && e.height <= height && HasItem(batch.items, e.key)
  }

  predicate HasItem(items: seq<Item>, key: Key) { exists i :: 0 <= i < |items| && items[i].key == key }

  /** `_confirm`. */
  function StoreConfirmed(db: Tables, b: BatchId, a: AttemptId, hash: Hash, height: nat): Tables
    requires b < |db.batches| && a < |db.attempts|
  {
    var marked := MarkEvents(db.events, b, db.batches[b], height);
    var moved := Move(db, b, a, Confirmed, WasConfirmed);
    WithBatch(moved, b, moved.batches[b].(hash := Some(hash))).(events := marked, aggregates := Totals(marked))
  }

  /** One fill read from a block. */
  datatype Fill = Fill(source: Source, vault: VaultId, key: Key, input: nat, output: nat)

  function RowOf(f: Fill, height: nat): RawEvent
  {
    RawEvent(f.source, f.vault, f.key, height, f.input, f.output, None)
  }

  /** The unique key of `raw_events`. */
  predicate SameFill(a: RawEvent, b: RawEvent) { a.source == b.source && a.key == b.key }

  predicate Recorded(events: seq<RawEvent>, row: RawEvent)
  {
    exists i :: 0 <= i < |events| && SameFill(events[i], row)
  }

  /** `INSERT OR IGNORE`. */
  function Insert(events: seq<RawEvent>, row: RawEvent): seq<RawEvent>
  {
    if Recorded(events, row) then events else events + [row]
  }

  function InsertAll(events: seq<RawEvent>, fills: seq<Fill>, height: nat): seq<RawEvent>
  {
    if fills == [] then events
    else
      var last := |fills| - 1;
      Insert(InsertAll(events, fills[..last], height), RowOf(fills[last], height))
  }

  /** `_scan_height`: the block's new rows, the cursor and the aggregates in one transaction. */
  function StoreBlock(db: Tables, height: nat, fills: seq<Fill>): Tables
  {
    var events := InsertAll(db.events, fills, height);
    db.(events := events, aggregates := Totals(events), scanned := height)
  }

  /** An operator clears an intervention. */
  function StoreCleared(db: Tables, b: BatchId): Tables
    requires b < |db.batches|
  {
    WithBatch(db, b, db.batches[b].(state := Ready, failures := 0, nextRetry := None)).(cleared := db.cleared + [b])
  }
}
