/** What single commits of the keeper write, in the fields of the rows themselves: which events a
    confirmation marks, which orders a batch takes up and what it freezes, what a block adds, and what the
    durable states say about the network's answers. */
module KeeperEffects {
  import opened Arithmetic
  import opened KeeperTables
  import opened KeeperMachine
  import opened KeeperSafety
  import opened KeeperEvents

  // ---- Confirmation ----

  /** The key is the key of one of the batch's items. */
  ghost predicate Takes(batch: Batch, key: Key) { exists i :: 0 <= i < |batch.items| && batch.items[i].key == key }

  /** The transaction is on chain, deep enough, and did what it was to do. */
  predicate Succeeded(look: Look)
  {
    look.seen.Some? && look.deep && look.seen.value.code == 0 && !look.seen.value.reverted
  }

  /** The look that finds a batch's transaction included at a height marks, with this batch, exactly the
      unmarked events of the batch's vault and orders up to that height, whenever they were indexed. */
  lemma ConfirmationMarksExactly(w: World, look: Look, now: nat, id: EventId)
    requires Inv(w) && w.pc.Polling? && Succeeded(look) && id < |w.db.events|
    ensures var after := Step(w, LookUp(look, now));
            var e, batch := w.db.events[id], w.db.batches[w.pc.b];
            |after.db.events| == |w.db.events|
            && after.db.events[id]
               == if e.reconciled == None && e.vault == batch.vault && Takes(batch, e.key)
                  && e.height <= look.seen.value.height
                  then e.(reconciled := Some(w.pc.b))
                  else e
  {
    ConfirmedRow(w.db, w.pc.b, w.pc.a, w.pc.hash, look.seen.value.height);
    hide StoreConfirmed, Totals, AttemptsOk, SentOk;
  }

  /** So none of those orders has an unmarked event at or below that height left, and their aggregates add up
      what is above it. */
  lemma ConfirmationLeavesLater(w: World, look: Look, now: nat, key: Key)
    requires Inv(w) && w.pc.Polling? && Succeeded(look) && Takes(w.db.batches[w.pc.b], key)
    requires forall e :: e in w.db.events && e.key == key ==> e.vault == w.db.batches[w.pc.b].vault
    ensures var after := Step(w, LookUp(look, now)).db;
            var rows := RowsOf(after.events, key);
            (forall id ::
               0 <= id < |after.events| && after.events[id].key == key
               && after.events[id].height <= look.seen.value.height ==>
                 after.events[id].reconciled.Some?)
            && SumsTo(after.events, RowFor(after.aggregates, key), rows)
            && forall id :: id in rows ==> after.events[id].height > look.seen.value.height
  {
    var after := Step(w, LookUp(look, now)).db;
    hide SumsTo, RowsOf, Totals, AttemptsOk, SentOk, Step, RowFor, Takes;
    ConfirmedTotals(w, look, now);
    TotalsSumUp(after.events, key);
    forall id | 0 <= id < |after.events| && after.events[id].key == key
                && after.events[id].height <= look.seen.value.height
      ensures after.events[id].reconciled.Some?
    {
      ConfirmationMarksExactly(w, look, now, id);
      assert w.db.events[id] in w.db.events;
    }
  }

  lemma ConfirmedTotals(w: World, look: Look, now: nat)
    requires Inv(w) && w.pc.Polling? && Succeeded(look)
    ensures var after := Step(w, LookUp(look, now)).db;
            after.aggregates == Totals(after.events) && |after.events| == |w.db.events|
  {
    ConfirmedRow(w.db, w.pc.b, w.pc.a, w.pc.hash, look.seen.value.height);
    hide StoreConfirmed, Totals, AttemptsOk, SentOk;
  }

  // ---- Freezing ----

  /** An unmarked event of the order, in the vault, that no batch froze. */
  ghost predicate Pending(db: Tables, vault: VaultId, key: Key, id: EventId)
  {
    id < |db.events| && db.events[id].vault == vault && db.events[id].key == key && db.events[id].reconciled == None
    && forall b :: 0 <= b < |db.batches| ==> id !in db.batches[b].frozen
  }

  /** Some pending event of one order is no higher than any of the other; between equals pair and order number
      decide. */
  ghost predicate NoYounger(db: Tables, vault: VaultId, a: Key, b: Key)
  {
    exists first :: Pending(db, vault, a, first)
      && forall other :: Pending(db, vault, b, other) ==> Precedes(db.events, first, other, a, b)
  }

  predicate Precedes(events: seq<RawEvent>, first: EventId, other: EventId, a: Key, b: Key)
    requires first < |events| && other < |events|
  {
    events[first].height < events[other].height
    || (events[first].height == events[other].height
        && (a.pair < b.pair || (a.pair == b.pair && a.order <= b.order)))
  }

  lemma PendingIsOpen(db: Tables, vault: VaultId, key: Key, id: EventId)
    ensures Pending(db, vault, key, id) <==> Open(db, vault, key, id)
  {
  }

  /** `OpenHeight` is the least height of a pending event among the first `n`. */
  lemma {:induction false} OpenHeightIsLeast(db: Tables, vault: VaultId, key: Key, n: nat)
    requires n <= |db.events|
    ensures var least := OpenHeight(db, vault, key, n);
            (least.None? ==> forall id: EventId :: id < n ==> !Open(db, vault, key, id))
            && (least.Some? ==>
                  (exists id: EventId :: id < n && Open(db, vault, key, id) && db.events[id].height == least.value)
                  && forall id: EventId :: id < n && Open(db, vault, key, id) ==> least.value <= db.events[id].height)
  {
    hide Open;
    if n > 0 {
      OpenHeightIsLeast(db, vault, key, n - 1);
    }
  }

  lemma NoLaterIsNoYounger(db: Tables, vault: VaultId, a: Key, b: Key)
    requires NoLater(db, vault, a, b) && exists id: EventId :: Open(db, vault, a, id)
    ensures NoYounger(db, vault, a, b)
  {
    var n := |db.events|;
    OpenHeightIsLeast(db, vault, a, n);
    OpenHeightIsLeast(db, vault, b, n);
    var some: EventId :| Open(db, vault, a, some);
    assert OpenHeight(db, vault, a, n).Some? by {
      assert some < n;
    }
    var first: EventId :|
      first < n && Open(db, vault, a, first) && db.events[first].height == OpenHeight(db, vault, a, n).value;
    PendingIsOpen(db, vault, a, first);
    forall other | Pending(db, vault, b, other) ensures Precedes(db.events, first, other, a, b) {
      PendingIsOpen(db, vault, b, other);
    }
  }

  /** The orders a batch takes up have pending events, as many as the limit allows, and those with the least
      first pending height come first: none left out is older than one taken. */
  lemma ChosenAreOldest(db: Tables, vault: VaultId, limit: nat)
    ensures var chosen := Select(db, vault, Candidates(db, vault), limit);
            (forall key :: key in chosen ==> exists id :: Pending(db, vault, key, id))
            && (forall i, j :: 0 <= i < j < |chosen| ==>
                  chosen[i] != chosen[j] && NoYounger(db, vault, chosen[i], chosen[j]))
            && (forall i, key, id :: 0 <= i < |chosen| && key !in chosen && Pending(db, vault, key, id) ==>
                  NoYounger(db, vault, chosen[i], key))
            && |chosen| <= limit
            && (|chosen| < limit ==> forall key, id :: Pending(db, vault, key, id) ==> key in chosen)
  {
    var keys := Candidates(db, vault);
    var chosen := Select(db, vault, keys, limit);
    SelectTakesForemost(db, vault, keys, limit);
    hide NoYounger, NoLater, Select, Candidates, Open, Pending;
    forall key | key in chosen ensures exists id :: Pending(db, vault, key, id) {
      var id :| Open(db, vault, key, id);
      PendingIsOpen(db, vault, key, id);
    }
    forall i, j | 0 <= i < j < |chosen| ensures NoYounger(db, vault, chosen[i], chosen[j]) {
      assert chosen[i] in chosen;
      NoLaterIsNoYounger(db, vault, chosen[i], chosen[j]);
    }
    forall key, id | Pending(db, vault, key, id) ensures key in keys {
      PendingIsOpen(db, vault, key, id);
    }
    forall i, key, id | 0 <= i < |chosen| && key !in chosen && Pending(db, vault, key, id)
      ensures NoYounger(db, vault, chosen[i], key)
    {
      assert chosen[i] in chosen;
      NoLaterIsNoYounger(db, vault, chosen[i], key);
    }
    if |chosen| < limit {
      AllChosen(chosen, keys);
    }
  }

  lemma AllChosen(chosen: seq<Key>, keys: set<Key>)
    requires |chosen| == |keys| && (forall key :: key in chosen ==> key in keys)
    requires forall i, j :: 0 <= i < j < |chosen| ==> chosen[i] != chosen[j]
    ensures forall key :: key in keys ==> key in chosen
  {
    DistinctCount(chosen);
    var taken := set key | key in chosen;
    assert taken <= keys;
    assert |keys - taken| == |keys| - |taken|;
  }

  lemma {:induction false} DistinctCount(chosen: seq<Key>)
    requires forall i, j :: 0 <= i < j < |chosen| ==> chosen[i] != chosen[j]
    ensures |(set key | key in chosen)| == |chosen|
  {
    if chosen != [] {
      var last := |chosen| - 1;
      DistinctCount(chosen[..last]);
      assert chosen == chosen[..last] + [chosen[last]];
      assert (set key | key in chosen) == (set key | key in chosen[..last]) + {chosen[last]};
    }
  }

  /** The row a freeze adds for the chosen orders: all their unmarked events of the vault, an item for each
      order that adds its events up, and the greatest height among them. */
  ghost predicate Freezes(events: seq<RawEvent>, vault: VaultId, chosen: seq<Key>, batch: Batch)
  {
    batch.vault == vault && batch.state == Ready && batch.failures == 0 && batch.nextRetry == None && batch.hash == None
    && (forall id: EventId ::
          id in batch.frozen
          <==> id < |events| && events[id].vault == vault && events[id].key in chosen && events[id].reconciled == None)
    && ItemsOf(events, vault, chosen, batch.items)
    && (forall id :: id in batch.frozen ==> events[id].height <= batch.through)
    && exists id :: id in batch.frozen && events[id].height == batch.through
  }

  ghost predicate ItemsOf(events: seq<RawEvent>, vault: VaultId, chosen: seq<Key>, items: seq<Item>)
  {
    |items| == |chosen|
    && forall i :: 0 <= i < |chosen| ==>
         var rows := OrderEvents(events, vault, chosen[i]);
         items[i] == Item(chosen[i], SumInput(events, rows), SumOutput(events, rows), |rows|)
  }

  /** Some batch froze an event of a chosen order that is still unmarked. */
  ghost predicate Clashes(db: Tables, vault: VaultId, chosen: seq<Key>)
  {
    exists b, id: EventId ::
      0 <= b < |db.batches| && id in db.batches[b].frozen && id < |db.events| && db.events[id].vault == vault
      && db.events[id].key in chosen && db.events[id].reconciled == None
  }

  /** Freezing adds a batch exactly when the vault has no unconfirmed one, some order is chosen, and no event
      to freeze is in a batch already. Nothing else is ever written. */
  lemma FreezeAnswers(w: World, vault: VaultId, limit: nat)
    requires w.pc == Idle
    ensures var after := Step(w, FreezeFor(vault, limit));
            var chosen := Select(w.db, vault, Candidates(w.db, vault), limit);
            if (forall b :: 0 <= b < |w.db.batches| && w.db.batches[b].vault == vault ==>
                  w.db.batches[b].state == Confirmed)
               && chosen != [] && !Clashes(w.db, vault, chosen) then
              |after.db.batches| == |w.db.batches| + 1
              && Freezes(w.db.events, vault, chosen, after.db.batches[|w.db.batches|])
              && after == w.(db := w.db.(batches := w.db.batches + [after.db.batches[|w.db.batches|]]))
            else after == w
  {
    hide Select, Candidates, TakeSnapshot, Freezes, Clashes, FrozenIds, SnapshotOk;
    var db := w.db;
    var chosen := Select(db, vault, Candidates(db, vault), limit);
    SnapshotFacts(db.events, vault, chosen);
    var s := TakeSnapshot(db.events, vault, chosen);
    ClashesIff(db, vault, chosen, s);
    if chosen != [] {
      SnapshotFreezes(db, vault, chosen, s);
    }
  }

  /** And the caller gets the unconfirmed batch there already is, or the new one, or none when no order is
      pending. */
  lemma FreezeReports(db: Tables, vault: VaultId, limit: nat)
    ensures match Freeze(db, vault, limit)
            case Existing(b) => b < |db.batches| && db.batches[b].vault == vault && db.batches[b].state != Confirmed
            case NothingToDo => limit == 0 || forall key, id :: !Pending(db, vault, key, id)
            case AlreadyFrozen => Clashes(db, vault, Select(db, vault, Candidates(db, vault), limit))
            case Froze(after, b) => b == |db.batches| && b < |after.batches|
  {
    hide Select, TakeSnapshot, Clashes, SnapshotOk, Open, Pending, Candidates;
    var chosen := Select(db, vault, Candidates(db, vault), limit);
    SnapshotFacts(db.events, vault, chosen);
    ClashesIff(db, vault, chosen, TakeSnapshot(db.events, vault, chosen));
    forall key, id | Pending(db, vault, key, id) ensures key in Candidates(db, vault) {
      PendingIsOpen(db, vault, key, id);
    }
  }

  lemma ClashesIff(db: Tables, vault: VaultId, chosen: seq<Key>, s: Snapshot)
    requires SnapshotOk(db.events, vault, chosen, s)
    ensures Clashes(db, vault, chosen) <==> exists id :: id in s.ids && id in FrozenIds(db.batches)
  {
    hide TopHeight, HasItem;
    if Clashes(db, vault, chosen) {
      var b, id: EventId :|
        0 <= b < |db.batches| && id in db.batches[b].frozen && id < |db.events| && db.events[id].vault == vault
        && db.events[id].key in chosen && db.events[id].reconciled == None;
      assert id in s.ids && id in FrozenIds(db.batches);
    }
  }

  lemma SnapshotFreezes(db: Tables, vault: VaultId, chosen: seq<Key>, s: Snapshot)
    requires chosen != [] && s == TakeSnapshot(db.events, vault, chosen) && SnapshotOk(db.events, vault, chosen, s)
    requires forall key :: key in chosen ==> key in Candidates(db, vault)
    ensures Freezes(db.events, vault, chosen, Batch(vault, s.through, Ready, 0, None, None, s.items, s.ids))
  {
    hide TakeSnapshot, OrderEvents, Candidates, HasItem, ItemsOf;
    ChosenHasOpen(db, vault, chosen, s);
    SnapshotItemsOf(db.events, vault, chosen);
  }

  lemma SnapshotItemsOf(events: seq<RawEvent>, vault: VaultId, chosen: seq<Key>)
    requires chosen != []
    ensures ItemsOf(events, vault, chosen, TakeSnapshot(events, vault, chosen).items)
  {
    hide TakeSnapshot, OrderEvents, SumInput, SumOutput;
    var items := TakeSnapshot(events, vault, chosen).items;
    SnapshotItems(events, vault, chosen, 0);
    forall i | 0 <= i < |chosen|
      ensures var rows := OrderEvents(events, vault, chosen[i]);
              items[i] == Item(chosen[i], SumInput(events, rows), SumOutput(events, rows), |rows|)
    {
      SnapshotItems(events, vault, chosen, i);
    }
  }

  // ---- Indexing ----

  /** The row is this fill's, at this height, not yet reconciled. */
  predicate RowFrom(e: RawEvent, f: Fill, height: nat)
  {
    e == RawEvent(f.source, f.vault, f.key, height, f.input, f.output, None)
  }

  ghost predicate AddsFills(events: seq<RawEvent>, fills: seq<Fill>, height: nat, after: seq<RawEvent>)
  {
    |after| >= |events| && after[..|events|] == events
    && (forall k :: 0 <= k < |fills| ==>
          exists i :: 0 <= i < |after| && after[i].source == fills[k].source && after[i].key == fills[k].key)
    && forall i :: |events| <= i < |after| ==>
         (exists k :: 0 <= k < |fills| && RowFrom(after[i], fills[k], height))
         && forall j :: 0 <= j < i ==> !SameFill(after[j], after[i])
  }

  lemma {:induction false} InsertingAddsFills(events: seq<RawEvent>, fills: seq<Fill>, height: nat)
    ensures AddsFills(events, fills, height, InsertAll(events, fills, height))
  {
    if fills != [] {
      var last := |fills| - 1;
      InsertingAddsFills(events, fills[..last], height);
      OneMoreFill(events, fills[..last], height, InsertAll(events, fills[..last], height), fills[last]);
      assert fills == fills[..last] + [fills[last]];
    }
  }

  lemma OneMoreFill(events: seq<RawEvent>, fills: seq<Fill>, height: nat, before: seq<RawEvent>, f: Fill)
    requires AddsFills(events, fills, height, before)
    ensures AddsFills(events, fills + [f], height, Insert(before, RowOf(f, height)))
  {
    var after, all := Insert(before, RowOf(f, height)), fills + [f];
    assert all[|fills|] == f;
    if Recorded(before, RowOf(f, height)) {
      var i :| 0 <= i < |before| && SameFill(before[i], RowOf(f, height));
      assert after[i].source == f.source && after[i].key == f.key;
    } else {
      assert after[|before|].source == f.source && after[|before|].key == f.key;
      assert RowFrom(after[|before|], all[|fills|], height);
    }
    forall k | 0 <= k < |all|
      ensures exists i :: 0 <= i < |after| && after[i].source == all[k].source && after[i].key == all[k].key
    {
      if k < |fills| {
        var i :| 0 <= i < |before| && before[i].source == fills[k].source && before[i].key == fills[k].key;
        assert after[i] == before[i];
      }
    }
    forall i | |events| <= i < |after|
      ensures (exists k :: 0 <= k < |all| && RowFrom(after[i], all[k], height))
              && forall j :: 0 <= j < i ==> !SameFill(after[j], after[i])
    {
      if i < |before| {
        var k :| 0 <= k < |fills| && RowFrom(before[i], fills[k], height);
        assert all[k] == fills[k];
      }
    }
  }

  /** A block above the cursor adds a row for each of its fills that has none yet, and moves the cursor; the
      aggregates count the new rows. A block at or below the cursor changes nothing. */
  lemma BlockAnswers(w: World, height: nat, fills: seq<Fill>, key: Key)
    ensures var after := Step(w, Block(height, fills));
            if height <= w.db.scanned then after == w
            else
              after == w.(db := w.db.(events := after.db.events, aggregates := after.db.aggregates, scanned := height))
              && AddsFills(w.db.events, fills, height, after.db.events)
              && SumsTo(after.db.events, RowFor(after.db.aggregates, key), RowsOf(after.db.events, key))
  {
    if height > w.db.scanned {
      InsertingAddsFills(w.db.events, fills, height);
      TotalsSumUp(InsertAll(w.db.events, fills, height), key);
      hide InsertAll, Totals, AddsFills, SumsTo, RowFor, RowsOf;
    }
  }

  // ---- What the states say ----

  /** Nothing but one batch and one attempt was rewritten. */
  ghost predicate OnlyTouches(db: Tables, after: Tables, b: BatchId, a: AttemptId)
    requires InRange(db, b, a) && InRange(after, b, a)
  {
    after == db.(batches := after.batches, attempts := after.attempts)
    && after.batches == db.batches[b := after.batches[b]] && after.attempts == db.attempts[a := after.attempts[a]]
  }

  /** The network's answer: usable with code zero, it is polled under its hash; with another code, about to be
      recorded as refused; unusable, nobody knows what became of the transaction. */
  lemma AnswerDecides(w: World)
    requires Inv(w) && w.pc.Answered?
    ensures var Answered(b, a, reply) := w.pc;
            var after := Step(w, Record);
            InRange(after.db, b, a) && OnlyTouches(w.db, after.db, b, a) && after.sent == w.sent
            && var batch, at := after.db.batches[b], after.db.attempts[a];
               if reply.Answer? && reply.code.Some? && reply.hash.Some? && reply.hash.value != "" then
                 at.hash == batch.hash == reply.hash
                 && if reply.code.value == 0 then
                      batch.state == Broadcast && at.state == WasBroadcast
                      && after.pc == Polling(b, a, reply.hash.value)
                    else batch.state == Broadcasting && at.state == WasBroadcasting && after.pc == Refusing(b, a)
               else batch.state == Unknown && at.state == WasUnknown && after.pc == Idle
  {
    hide AttemptsOk, SentOk;
    HandTied(w);
  }

  lemma HandTied(w: World)
    requires Inv(w) && w.pc != Idle
    ensures Tied(w.db.batches[w.pc.b].state, Some(w.db.attempts[w.pc.a]))
  {
    hide SentOk;
    assert LatestRow(w.db.attempts, w.pc.b) == Some(w.db.attempts[w.pc.a]);
  }

  /** A refused answer is then recorded as one more failure of the batch. */
  lemma RefusalDecides(w: World, now: nat)
    requires Inv(w) && w.pc.Refusing?
    ensures var Refusing(b, a) := w.pc;
            var after := Step(w, Refuse(now));
            InRange(after.db, b, a) && OnlyTouches(w.db, after.db, b, a) && after.sent == w.sent && after.pc == Idle
            && after.db.attempts[a] == w.db.attempts[a].(state := CheckFailed)
            && after.db.batches[b].failures == w.db.batches[b].failures + 1
  {
    hide AttemptsOk, SentOk, Doubled;
  }

  /** A look at the chain: the batch is confirmed exactly by a transaction found deep enough that did what it
      was to do, and refused exactly by one that did not, the attempt naming which way it failed; without one
      it waits until time is up. */
  lemma LookDecides(w: World, look: Look, now: nat)
    requires Inv(w) && w.pc.Polling?
    ensures var Polling(b, a, hash) := w.pc;
            var after := Step(w, LookUp(look, now));
            var found := look.seen.Some? && look.deep;
            InRange(after.db, b, a) && after.sent == w.sent
            && (after.pc == Idle <==> found || look.expired)
            && (after.db.batches[b].state == Confirmed <==> Succeeded(look))
            && (after.db.attempts[a].state == WasConfirmed <==> Succeeded(look))
            && (after.db.attempts[a].state == DeliverFailed <==> found && look.seen.value.code != 0)
            && (after.db.attempts[a].state == PageReverted
                <==> found && look.seen.value.code == 0 && look.seen.value.reverted)
            && (found && !Succeeded(look) ==> after.db.batches[b].failures == w.db.batches[b].failures + 1)
            && (!found && look.expired ==>
                  after.db.batches[b].state == Timeout && after.db.attempts[a].state == WasTimeout)
            && (!found && !look.expired ==> after == w)
            && (!Succeeded(look) ==> OnlyTouches(w.db, after.db, b, a))
            && (Succeeded(look) ==> after.db.batches[b].hash == Some(hash))
  {
    HandTied(w);
    if Succeeded(look) {
      ConfirmedRow(w.db, w.pc.b, w.pc.a, w.pc.hash, look.seen.value.height);
      ConfirmedAttempt(w.db, w.pc.b, w.pc.a, w.pc.hash, look.seen.value.height);
    }
    hide AttemptsOk, SentOk, StoreConfirmed, Doubled;
  }

  lemma ConfirmedAttempt(db: Tables, b: BatchId, a: AttemptId, hash: Hash, height: nat)
    requires InRange(db, b, a)
    ensures StoreConfirmed(db, b, a, hash, height).attempts == db.attempts[a := db.attempts[a].(state := WasConfirmed)]
  {
    hide Totals;
  }

  predicate Due(batch: Batch, now: nat)
  {
    batch.state == Signed || (batch.state == Ready && (batch.nextRetry.None? || batch.nextRetry.value <= now))
  }

  /** Taking up a batch, by its state: one that is sent is polled under the hash it was sent with, one whose
      sending was cut off becomes unknown, one that is signed or ready and due is signed anew, any other is
      left alone. */
  lemma BeginDecides(w: World, b: BatchId, now: nat)
    requires Inv(w) && w.pc == Idle && b < |w.db.batches|
    ensures var after := Step(w, Begin(b, now));
            var batch := w.db.batches[b];
            match batch.state
            case Broadcast =>
              after == w.(pc := after.pc) && after.pc.Polling? && after.pc.b == b
              && Latest(w.db.attempts, b) == Some(after.pc.a)
              && w.db.attempts[after.pc.a].hash == Some(after.pc.hash)
            case Timeout =>
              after == w.(pc := after.pc) && after.pc.Polling? && after.pc.b == b
              && Latest(w.db.attempts, b) == Some(after.pc.a)
              && w.db.attempts[after.pc.a].hash == Some(after.pc.hash)
            case Broadcasting =>
              Latest(w.db.attempts, b).Some?
              && var a := Latest(w.db.attempts, b).value;
                 after == w.(db := w.db.(batches := w.db.batches[b := batch.(state := Unknown)],
                                         attempts := w.db.attempts[a := w.db.attempts[a].(state := WasUnknown)]))
            case _ =>
              if Due(batch, now) then
                after.pc == AfterSign(b, |w.db.attempts|) && after.sent == w.sent
                && after.db == w.db.(batches := w.db.batches[b := batch.(state := Signed)],
                                     attempts := w.db.attempts + [Attempt(b, WasSigned, None)])
              else after == w
  {
    hide SentOk, Latest;
    assert Tied(w.db.batches[b].state, LatestRow(w.db.attempts, b));
  }

  /** An intervention ends exactly when the operator names the failure on record, the vault answers, and for a
      failure on chain the chain reports the transaction and bears it out. The batch then starts afresh. */
  lemma ClearingAnswers(w: World, b: BatchId, claim: Claim)
    requires Inv(w)
    ensures var after := Step(w, Clear(b, claim));
            if b < |w.db.batches| && w.db.batches[b].state == Intervention && Latest(w.db.attempts, b).Some?
               && (var a := Latest(w.db.attempts, b).value;
                   w.db.attempts[a].state == claim.reason && claim.backedUp
                   && (claim.reason != CheckFailed ==>
                         (HasHash(w.db.attempts[a].hash) || HasHash(w.db.batches[b].hash)) && claim.onChain.Some?
                         && (claim.onChain.value == 0 <==> claim.reason == PageReverted))) then
              after == w.(db := w.db.(batches := w.db.batches[b := w.db.batches[b].(state := Ready, failures := 0,
                                                                                   nextRetry := None)],
                                      cleared := w.db.cleared + [b]))
            else after == w
  {
    hide SentOk, Latest;
    if b < |w.db.batches| {
      assert Tied(w.db.batches[b].state, LatestRow(w.db.attempts, b));
    }
  }
}
