/** Exactly-once accounting of fills: every event is frozen by at most one batch and marked at most once, a
    confirmation at or above its batch's height marks all it froze, and the aggregates are the sums of
    what is left. */
module KeeperEvents {
  import opened Arithmetic
  import opened KeeperTables
  import opened KeeperMachine
  import opened KeeperSafety

  // ---- Aggregates ----

  /** Ids of the unmarked rows of an order, whichever vault they name. */
  function RowsOf(events: seq<RawEvent>, key: Key): (ids: seq<EventId>)
    ensures forall id: EventId :: id in ids <==> id < |events| && events[id].key == key && Unmarked(events[id])
    ensures forall i :: 0 <= i < |ids| ==> ids[i] < |events|
    ensures forall i, j :: 0 <= i < j < |ids| ==> ids[i] < ids[j]
  {
    if events == [] then []
    else
      var last := |events| - 1;
      var earlier := RowsOf(events[..last], key);
      assert forall i :: 0 <= i < |earlier| ==> earlier[i] in earlier;
      if events[last].key == key && Unmarked(events[last]) then earlier + [last] else earlier
  }

  lemma {:induction false} SumsOfPrefix(events: seq<RawEvent>, more: seq<RawEvent>, ids: seq<EventId>)
    requires forall i :: 0 <= i < |ids| ==> ids[i] < |events|
    ensures SumInput(events + more, ids) == SumInput(events, ids)
    ensures SumOutput(events + more, ids) == SumOutput(events, ids)
  {
    if ids != [] {
      var last := |ids| - 1;
      SumsOfPrefix(events, more, ids[..last]);
    }
  }

  /** An aggregate row over the given event rows: their sums, their count, the first one's vault, the first and
      last one's height; no aggregate row without any. */
  ghost predicate SumsTo(events: seq<RawEvent>, total: Option<Aggregate>, rows: seq<EventId>)
    requires forall i :: 0 <= i < |rows| ==> rows[i] < |events|
  {
    (total.Some? <==> rows != [])
    && (total.Some? ==>
          total.value.input == SumInput(events, rows) && total.value.output == SumOutput(events, rows)
          && total.value.count == |rows| && total.value.vault == events[rows[0]].vault
          && total.value.first == events[rows[0]].height && total.value.through == events[rows[|rows| - 1]].height)
  }

  function RowFor(totals: map<Key, Aggregate>, key: Key): Option<Aggregate>
  {
    if key in totals then Some(totals[key]) else None
  }

  /** An aggregate row after one more event. */
  function Counted(total: Option<Aggregate>, e: RawEvent): Aggregate
  {
    var item := if total.Some? then total.value else Aggregate(e.vault, 0, 0, 0, e.height, e.height);
    item.(input := item.input + e.input, output := item.output + e.output, count := item.count + 1, through := e.height)
  }

  /** `aggregates` is, order by order, the sum of the unmarked rows. */
  lemma {:induction false} TotalsSumUp(events: seq<RawEvent>, key: Key)
    ensures SumsTo(events, RowFor(Totals(events), key), RowsOf(events, key))
  {
    hide SumsTo, SumInput, SumOutput, RowsOf, Totals, RowFor;
    if events == [] {
      NoRowsSum(key);
    } else {
      var last := |events| - 1;
      TotalsSumUp(events[..last], key);
      LastRow(events, key);
      var rows := RowsOf(events[..last], key);
      var total := RowFor(Totals(events[..last]), key);
      assert events == events[..last] + [events[last]];
      SumsToLonger(events[..last], events[last], total, rows);
      if events[last].key == key && Unmarked(events[last]) {
        OneMoreRow(events, total, rows, last);
      }
    }
  }

  lemma NoRowsSum(key: Key)
    ensures SumsTo([], RowFor(Totals([]), key), RowsOf([], key))
  {
  }

  /** What the last row adds, to the rows of an order and to its aggregate. */
  lemma LastRow(events: seq<RawEvent>, key: Key)
    requires events != []
    ensures var last := |events| - 1;
            var rows, total, e := RowsOf(events[..last], key), RowFor(Totals(events[..last]), key), events[last];
            if e.key == key && Unmarked(e) then
              RowsOf(events, key) == rows + [last] && RowFor(Totals(events), key) == Some(Counted(total, e))
            else RowsOf(events, key) == rows && RowFor(Totals(events), key) == total
  {
    LastTotal(events, key);
    hide Totals, RowFor;
  }

  lemma LastTotal(events: seq<RawEvent>, key: Key)
    requires events != []
    ensures var last := |events| - 1;
            var total, e := RowFor(Totals(events[..last]), key), events[last];
            RowFor(Totals(events), key) == if e.key == key && Unmarked(e) then Some(Counted(total, e)) else total
  {
  }

  lemma SumsToLonger(events: seq<RawEvent>, e: RawEvent, total: Option<Aggregate>, rows: seq<EventId>)
    requires (forall i :: 0 <= i < |rows| ==> rows[i] < |events|) && SumsTo(events, total, rows)
    ensures SumsTo(events + [e], total, rows)
  {
    SumsOfPrefix(events, [e], rows);
  }

  lemma OneMoreRow(events: seq<RawEvent>, total: Option<Aggregate>, rows: seq<EventId>, id: EventId)
    requires id < |events| && (forall i :: 0 <= i < |rows| ==> rows[i] < |events|) && SumsTo(events, total, rows)
    ensures SumsTo(events, Some(Counted(total, events[id])), rows + [id])
  {
    assert (rows + [id])[..|rows|] == rows;
  }

  // ---- The accounting invariant ----

  ghost predicate HeightsOk(events: seq<RawEvent>, scanned: nat)
  {
    (forall i, j :: 0 <= i < j < |events| ==> events[i].height <= events[j].height)
    && forall i :: 0 <= i < |events| ==> events[i].height <= scanned
  }

  /** What a batch froze: events of its vault and its orders, none above its height, one at it. */
  ghost predicate FrozenOk(events: seq<RawEvent>, batch: Batch)
  {
    (forall id :: id in batch.frozen ==>
       id < |events| && events[id].vault == batch.vault && HasItem(batch.items, events[id].key)
       && events[id].height <= batch.through)
    && (exists id :: id in batch.frozen && id < |events| && events[id].height == batch.through)
    && (batch.state != Confirmed ==> forall id :: id in batch.frozen && id < |events| ==> Unmarked(events[id]))
  }

  ghost predicate MarkOk(batches: seq<Batch>, e: RawEvent)
  {
    e.reconciled.Some? ==>
      var b := e.reconciled.value;
      b < |batches| && batches[b].state == Confirmed && batches[b].vault == e.vault && HasItem(batches[b].items, e.key)
  }

  /** No event in two batches, no vault with two unconfirmed ones. */
  ghost predicate Apart(a: Batch, b: Batch)
  {
    (forall id :: id in a.frozen ==> id !in b.frozen)
    && (a.vault == b.vault ==> a.state == Confirmed || b.state == Confirmed)
  }

  ghost predicate Accounts(db: Tables)
  {
    HeightsOk(db.events, db.scanned) && db.aggregates == Totals(db.events)
    && (forall b :: 0 <= b < |db.batches| ==> FrozenOk(db.events, db.batches[b]))
    && (forall b, c :: 0 <= b < c < |db.batches| ==> Apart(db.batches[b], db.batches[c]))
    && (forall id :: 0 <= id < |db.events| ==> MarkOk(db.batches, db.events[id]))
  }

  /** Every confirmed batch marked all it froze. */
  ghost predicate Settled(db: Tables)
  {
    forall b :: 0 <= b < |db.batches| && db.batches[b].state == Confirmed ==> AllMarked(db.events, db.batches[b])
  }

  ghost predicate AllMarked(events: seq<RawEvent>, batch: Batch)
  {
    forall id :: id in batch.frozen && id < |events| ==> !Unmarked(events[id])
  }

  /** Steps that move a batch between unconfirmed states touch no account. */
  ghost predicate SameAccounts(db: Tables, after: Tables)
  {
    after.events == db.events && after.aggregates == db.aggregates && after.scanned == db.scanned
    && |after.batches| == |db.batches|
    && forall b :: 0 <= b < |db.batches| ==> SameFreeze(db.batches[b], after.batches[b])
  }

  ghost predicate SameFreeze(batch: Batch, after: Batch)
  {
    after.vault == batch.vault && after.items == batch.items && after.frozen == batch.frozen
    && after.through == batch.through && (after.state == Confirmed <==> batch.state == Confirmed)
  }

  lemma SameAccountsKeep(db: Tables, after: Tables)
    requires Accounts(db) && SameAccounts(db, after)
    ensures Accounts(after) && (Settled(db) ==> Settled(after))
  {
    forall b, c | 0 <= b < c < |after.batches| ensures Apart(after.batches[b], after.batches[c]) {
      assert Apart(db.batches[b], db.batches[c]);
    }
    forall b | 0 <= b < |after.batches| ensures FrozenOk(after.events, after.batches[b]) {
      assert FrozenOk(db.events, db.batches[b]);
    }
    forall id | 0 <= id < |after.events| ensures MarkOk(after.batches, after.events[id]) {
      assert MarkOk(db.batches, db.events[id]);
    }
    if Settled(db) {
      forall b | 0 <= b < |after.batches| && after.batches[b].state == Confirmed
        ensures AllMarked(after.events, after.batches[b])
      {
        assert AllMarked(db.events, db.batches[b]);
      }
    }
  }

  // ---- New blocks ----

  ghost predicate Extends(events: seq<RawEvent>, after: seq<RawEvent>)
  {
    |after| >= |events| && (forall i :: 0 <= i < |events| ==> after[i] == events[i])
    && (forall i :: |events| <= i < |after| ==> Unmarked(after[i]))
  }

  lemma ExtensionKeepsBatch(events: seq<RawEvent>, after: seq<RawEvent>, batch: Batch)
    requires FrozenOk(events, batch) && Extends(events, after)
    ensures FrozenOk(after, batch) && (AllMarked(events, batch) ==> AllMarked(after, batch))
  {
    var top :| top in batch.frozen && top < |events| && events[top].height == batch.through;
    assert top in batch.frozen && top < |after| && after[top].height == batch.through;
  }

  lemma {:induction false} InsertExtends(events: seq<RawEvent>, fills: seq<Fill>, height: nat)
    ensures var after := InsertAll(events, fills, height);
            Extends(events, after) && forall i :: |events| <= i < |after| ==> after[i].height == height
  {
    if fills != [] {
      InsertExtends(events, fills[..|fills| - 1], height);
    }
  }

  lemma BlockKeepsAccounts(db: Tables, height: nat, fills: seq<Fill>)
    requires Accounts(db) && height > db.scanned
    ensures Accounts(StoreBlock(db, height, fills)) && (Settled(db) ==> Settled(StoreBlock(db, height, fills)))
  {
    var after := StoreBlock(db, height, fills);
    InsertExtends(db.events, fills, height);
    assert HeightsOk(after.events, after.scanned);
    hide StoreBlock, Extends, FrozenOk, AllMarked, Apart, HeightsOk, Totals;
    forall b | 0 <= b < |db.batches|
      ensures FrozenOk(after.events, db.batches[b])
              && (AllMarked(db.events, db.batches[b]) ==> AllMarked(after.events, db.batches[b]))
    {
      ExtensionKeepsBatch(db.events, after.events, db.batches[b]);
    }
    forall id | 0 <= id < |after.events| ensures MarkOk(db.batches, after.events[id]) {
      ExtensionKeepsMark(db.batches, db.events, after.events, id);
    }
    BlockLeaves(db, height, fills);
  }

  lemma BlockLeaves(db: Tables, height: nat, fills: seq<Fill>)
    ensures var after := StoreBlock(db, height, fills);
            after.batches == db.batches && after.attempts == db.attempts && after.aggregates == Totals(after.events)
  {
    hide Totals;
  }

  lemma ExtensionKeepsMark(batches: seq<Batch>, events: seq<RawEvent>, after: seq<RawEvent>, id: EventId)
    requires Extends(events, after) && id < |after| && forall i :: 0 <= i < |events| ==> MarkOk(batches, events[i])
    ensures MarkOk(batches, after[id])
  {
    if id < |events| {
      assert MarkOk(batches, events[id]);
    }
  }

  // ---- Freezing ----

  ghost predicate TopHeight(events: seq<RawEvent>, ids: seq<EventId>, top: nat)
    requires forall id :: id in ids ==> id < |events|
  {
    (forall id :: id in ids ==> events[id].height <= top)
    && (ids == [] ==> top == 0)
    && (ids != [] ==> exists id :: id in ids && events[id].height == top)
  }

  /** A snapshot of some orders: exactly their unmarked events of the vault, an item for each order, and the
      greatest height among them. */
  ghost predicate SnapshotOk(events: seq<RawEvent>, vault: VaultId, keys: seq<Key>, s: Snapshot)
  {
    (forall id: EventId ::
       id in s.ids <==> id < |events| && events[id].vault == vault && events[id].key in keys && Unmarked(events[id]))
    && (forall key :: key in keys <==> HasItem(s.items, key))
    && TopHeight(events, s.ids, s.through)
  }

  lemma TopOfBoth(events: seq<RawEvent>, a: seq<EventId>, b: seq<EventId>, topA: nat, topB: nat)
    requires forall id :: id in a + b ==> id < |events|
    requires (forall id :: id in a ==> id in a + b) && (forall id :: id in b ==> id in a + b)
    requires TopHeight(events, a, topA) && TopHeight(events, b, topB)
    ensures TopHeight(events, a + b, Max(topA, topB))
  {
    var top := Max(topA, topB);
    if a != [] && topA == top {
      var id :| id in a && events[id].height == topA;
      assert id in a + b;
    } else if b != [] {
      var id :| id in b && events[id].height == topB;
      assert id in a + b;
    }
  }

  lemma {:induction false} MaxHeightIsTop(events: seq<RawEvent>, ids: seq<EventId>)
    requires forall i :: 0 <= i < |ids| ==> ids[i] < |events|
    ensures TopHeight(events, ids, MaxHeight(events, ids))
  {
    if ids != [] {
      var last := |ids| - 1;
      assert ids == ids[..last] + [ids[last]] && forall id :: id in ids[..last] ==> id in ids;
      MaxHeightIsTop(events, ids[..last]);
      assert ids[last] in ids;
      assert TopHeight(events, [ids[last]], events[ids[last]].height) by {
        assert ids[last] in [ids[last]];
      }
      TopOfBoth(events, ids[..last], [ids[last]], MaxHeight(events, ids[..last]), events[ids[last]].height);
    }
  }

  lemma {:induction false} SnapshotFacts(events: seq<RawEvent>, vault: VaultId, keys: seq<Key>)
    ensures SnapshotOk(events, vault, keys, TakeSnapshot(events, vault, keys))
  {
    if keys != [] {
      var last := |keys| - 1;
      SnapshotFacts(events, vault, keys[..last]);
      assert keys == keys[..last] + [keys[last]];
      OneMoreOrder(events, vault, keys[..last], TakeSnapshot(events, vault, keys[..last]), keys[last]);
    }
  }

  lemma OneMoreOrder(events: seq<RawEvent>, vault: VaultId, keys: seq<Key>, s: Snapshot, key: Key)
    requires SnapshotOk(events, vault, keys, s)
    ensures SnapshotOk(events, vault, keys + [key], AddOrder(events, vault, s, key))
  {
    hide HasItem, TopHeight, SumInput, SumOutput, MaxHeight;
    var rows := OrderEvents(events, vault, key);
    ItemAppended(s.items, Item(key, SumInput(events, rows), SumOutput(events, rows), |rows|));
    MaxHeightIsTop(events, rows);
    IdsOfBoth(events, vault, keys, s.ids, key);
    TopOfBoth(events, s.ids, rows, s.through, MaxHeight(events, rows));
  }

  lemma IdsOfBoth(events: seq<RawEvent>, vault: VaultId, keys: seq<Key>, ids: seq<EventId>, key: Key)
    requires forall id: EventId ::
               id in ids
               <==> id < |events| && events[id].vault == vault && events[id].key in keys && Unmarked(events[id])
    ensures forall id: EventId ::
              id in ids + OrderEvents(events, vault, key)
              <==> id < |events| && events[id].vault == vault && events[id].key in keys + [key] && Unmarked(events[id])
  {
    var rows := OrderEvents(events, vault, key);
    hide OrderEvents;
    forall id: EventId
      ensures id in ids + rows
              <==> id < |events| && events[id].vault == vault && events[id].key in keys + [key] && Unmarked(events[id])
    {
      assert id in ids + rows <==> id in ids || id in rows;
    }
  }

  lemma ItemAppended(items: seq<Item>, item: Item)
    ensures forall key :: HasItem(items + [item], key) <==> HasItem(items, key) || key == item.key
  {
    var all := items + [item];
    forall key ensures HasItem(all, key) <==> HasItem(items, key) || key == item.key {
      assert all[|items|] == item;
      if HasItem(items, key) {
        var i :| 0 <= i < |items| && items[i].key == key;
        assert all[i].key == key;
      }
    }
  }

  /** The orders chosen are the foremost: none left out comes strictly before one taken. */
  lemma {:induction false} SelectTakesForemost(db: Tables, vault: VaultId, keys: set<Key>, limit: nat)
    ensures var chosen := Select(db, vault, keys, limit);
            (forall i, j :: 0 <= i < j < |chosen| ==> NoLater(db, vault, chosen[i], chosen[j]))
            && (forall i, key :: 0 <= i < |chosen| && key in keys && key !in chosen ==>
                  NoLater(db, vault, chosen[i], key))
            && |chosen| == Min(limit, |keys|)
    decreases limit
  {
    hide NoLater;
    if limit > 0 && keys != {} {
      var key := Foremost(db, vault, keys);
      SelectTakesForemost(db, vault, keys - {key}, limit - 1);
      var rest := Select(db, vault, keys - {key}, limit - 1);
      var chosen := Select(db, vault, keys, limit);
      assert chosen == [key] + rest;
      forall i, j | 0 <= i < j < |chosen| ensures NoLater(db, vault, chosen[i], chosen[j]) {
        assert chosen[j] == rest[j - 1] && rest[j - 1] in rest;
        if i > 0 {
          assert chosen[i] == rest[i - 1];
        }
      }
      forall i, other | 0 <= i < |chosen| && other in keys && other !in chosen
        ensures NoLater(db, vault, chosen[i], other) {
        if i > 0 {
          assert chosen[i] == rest[i - 1];
          assert other != key && other !in rest;
        }
      }
    }
  }

  /** The items of a snapshot, order by order. */
  lemma {:induction false} SnapshotItems(events: seq<RawEvent>, vault: VaultId, keys: seq<Key>, i: nat)
    requires i < |keys|
    ensures var s := TakeSnapshot(events, vault, keys);
            var rows := OrderEvents(events, vault, keys[i]);
            |s.items| == |keys|
            && s.items[i] == Item(keys[i], SumInput(events, rows), SumOutput(events, rows), |rows|)
    decreases |keys|
  {
    hide OrderEvents, SumInput, SumOutput, MaxHeight;
    var last := |keys| - 1;
    if last > 0 {
      SnapshotItems(events, vault, keys[..last], if i < last then i else 0);
    }
  }

  /** With one vault to an order, its events for the vault are its events. */
  lemma {:induction false} OneVaultRows(events: seq<RawEvent>, vault: VaultId, key: Key)
    requires forall e :: e in events && e.key == key ==> e.vault == vault
    ensures OrderEvents(events, vault, key) == RowsOf(events, key)
  {
    if events != [] {
      var last := |events| - 1;
      assert events[last] in events && forall e :: e in events[..last] ==> e in events;
      OneVaultRows(events[..last], vault, key);
    }
  }

  /** A freshly frozen batch holds, for each of its orders, exactly the aggregate row of that order. */
  lemma FreshItemsAreAggregates(db: Tables, vault: VaultId, limit: nat, i: nat)
    requires Accounts(db) && Freeze(db, vault, limit).Froze?
    requires i < |Select(db, vault, Candidates(db, vault), limit)|
    requires var key := Select(db, vault, Candidates(db, vault), limit)[i];
             forall e :: e in db.events && e.key == key ==> e.vault == vault
    ensures var out := Freeze(db, vault, limit);
            var batch := out.db.batches[|db.batches|];
            var key := Select(db, vault, Candidates(db, vault), limit)[i];
            out.id == |db.batches| && i < |batch.items| && key in db.aggregates
            && batch.items[i]
               == Item(key, db.aggregates[key].input, db.aggregates[key].output, db.aggregates[key].count)
  {
    hide Select, Candidates, FrozenIds, TakeSnapshot, OrderEvents, RowsOf, Accounts, Freeze, SumsTo, RowFor, Totals;
    var chosen := Select(db, vault, Candidates(db, vault), limit);
    var key := chosen[i];
    FrozeItems(db, vault, limit);
    SnapshotItems(db.events, vault, chosen, i);
    OneVaultRows(db.events, vault, key);
    TotalsSumUp(db.events, key);
    ChosenHasRow(db, vault, key);
    TotalsStored(db);
    ItemOfRow(db.events, db.aggregates, key);
  }

  lemma TotalsStored(db: Tables)
    requires Accounts(db)
    ensures db.aggregates == Totals(db.events)
  {
    hide Totals;
  }

  lemma FrozeItems(db: Tables, vault: VaultId, limit: nat)
    requires Freeze(db, vault, limit).Froze?
    ensures var out := Freeze(db, vault, limit);
            out.id == |db.batches| && |out.db.batches| == |db.batches| + 1
            && out.db.batches[|db.batches|].items
               == TakeSnapshot(db.events, vault, Select(db, vault, Candidates(db, vault), limit)).items
  {
    hide Select, Candidates, FrozenIds, TakeSnapshot, FirstActive;
  }

  lemma ChosenHasRow(db: Tables, vault: VaultId, key: Key)
    requires key in Candidates(db, vault)
    ensures RowsOf(db.events, key) != []
  {
    var open :| Open(db, vault, key, open);
    hide RowsOf;
    assert open in RowsOf(db.events, key);
  }

  lemma ItemOfRow(events: seq<RawEvent>, aggregates: map<Key, Aggregate>, key: Key)
    requires SumsTo(events, RowFor(aggregates, key), RowsOf(events, key)) && RowsOf(events, key) != []
    ensures key in aggregates
    ensures var rows := RowsOf(events, key);
            aggregates[key].input == SumInput(events, rows) && aggregates[key].output == SumOutput(events, rows)
            && aggregates[key].count == |rows|
  {
  }

  /** Freezing keeps the accounts: what is frozen is unmarked, of one vault, and nobody else's. */
  lemma FreezeKeepsAccounts(db: Tables, vault: VaultId, limit: nat)
    requires Accounts(db) && Freeze(db, vault, limit).Froze?
    ensures Accounts(Freeze(db, vault, limit).db)
    ensures Settled(db) ==> Settled(Freeze(db, vault, limit).db)
  {
    var chosen := Select(db, vault, Candidates(db, vault), limit);
    var s := TakeSnapshot(db.events, vault, chosen);
    SnapshotFacts(db.events, vault, chosen);
    ChosenHasOpen(db, vault, chosen, s);
    hide Select, Candidates, TakeSnapshot, Accounts, Settled, FrozenOk, SnapshotOk;
    var batch := Batch(vault, s.through, Ready, 0, None, None, s.items, s.ids);
    var after := Freeze(db, vault, limit).db;
    assert after == db.(batches := db.batches + [batch]);
    SnapshotIsFrozenOk(db.events, vault, chosen, s);
    NewBatchKeepsAccounts(db, batch);
  }

  lemma SnapshotIsFrozenOk(events: seq<RawEvent>, vault: VaultId, keys: seq<Key>, s: Snapshot)
    requires SnapshotOk(events, vault, keys, s) && s.ids != []
    ensures FrozenOk(events, Batch(vault, s.through, Ready, 0, None, None, s.items, s.ids))
  {
  }

  lemma ChosenHasOpen(db: Tables, vault: VaultId, chosen: seq<Key>, s: Snapshot)
    requires SnapshotOk(db.events, vault, chosen, s)
    requires chosen != [] && forall key :: key in chosen ==> key in Candidates(db, vault)
    ensures s.ids != []
  {
    assert chosen[0] in Candidates(db, vault);
    var id :| Open(db, vault, chosen[0], id);
    assert id in s.ids;
  }

  lemma NewBatchKeepsAccounts(db: Tables, batch: Batch)
    requires Accounts(db) && FrozenOk(db.events, batch) && batch.state == Ready
    requires forall id :: id in batch.frozen ==> id !in FrozenIds(db.batches)
    requires forall b :: 0 <= b < |db.batches| && db.batches[b].vault == batch.vault ==>
               db.batches[b].state == Confirmed
    ensures Accounts(db.(batches := db.batches + [batch]))
    ensures Settled(db) ==> Settled(db.(batches := db.batches + [batch]))
  {
    var after := db.(batches := db.batches + [batch]);
    forall b, c | 0 <= b < c < |after.batches| ensures Apart(after.batches[b], after.batches[c]) {
      if c < |db.batches| {
        assert Apart(db.batches[b], db.batches[c]);
      }
    }
    forall id | 0 <= id < |after.events| ensures MarkOk(after.batches, after.events[id]) {
      assert MarkOk(db.batches, db.events[id]);
    }
  }

  // ---- Confirming ----

  /** The events after a confirmation, seen from another batch: unmarked frozen events stay unmarked while
      that batch is unconfirmed, marked ones stay marked. */
  lemma ConfirmKeepsOther(events: seq<RawEvent>, b: BatchId, batch: Batch, height: nat, other: Batch)
    requires FrozenOk(events, other) && (other.state == Confirmed || other.vault != batch.vault)
    ensures FrozenOk(MarkEvents(events, b, batch, height), other)
    ensures AllMarked(events, other) ==> AllMarked(MarkEvents(events, b, batch, height), other)
  {
    var top :| top in other.frozen && top < |events| && events[top].height == other.through;
    assert top in other.frozen && MarkEvents(events, b, batch, height)[top].height == other.through;
  }

  /** A confirmation marks every event its batch froze exactly when the transaction was included at or above
      the greatest frozen height. */
  lemma ConfirmationMarksAllIff(events: seq<RawEvent>, b: BatchId, batch: Batch, height: nat)
    requires FrozenOk(events, batch) && batch.state != Confirmed
    ensures AllMarked(MarkEvents(events, b, batch, height), batch) <==> height >= batch.through
  {
    var marked := MarkEvents(events, b, batch, height);
    var top :| top in batch.frozen && top < |events| && events[top].height == batch.through;
    assert Unmarked(events[top]);
    if height < batch.through {
      assert Unmarked(marked[top]);
    }
  }

  lemma ConfirmedRow(db: Tables, b: BatchId, a: AttemptId, hash: Hash, height: nat)
    requires InRange(db, b, a)
    ensures var after := StoreConfirmed(db, b, a, hash, height);
            after.batches == db.batches[b := db.batches[b].(state := Confirmed, hash := Some(hash))]
            && after.events == MarkEvents(db.events, b, db.batches[b], height)
            && after.aggregates == Totals(after.events) && after.scanned == db.scanned
  {
    hide Totals;
  }

  lemma ConfirmKeepsAccounts(db: Tables, b: BatchId, a: AttemptId, hash: Hash, height: nat)
    requires InRange(db, b, a) && Accounts(db) && db.batches[b].state != Confirmed
    ensures Accounts(StoreConfirmed(db, b, a, hash, height))
    ensures Settled(db) && height >= db.batches[b].through ==> Settled(StoreConfirmed(db, b, a, hash, height))
  {
    hide StoreConfirmed, FrozenOk, AllMarked, Totals, Apart, MarkOk, HeightsOk, MarkEvents;
    var after := StoreConfirmed(db, b, a, hash, height);
    ConfirmedRow(db, b, a, hash, height);
    forall c | 0 <= c < |db.batches|
      ensures FrozenOk(after.events, after.batches[c])
              && (c != b && AllMarked(db.events, db.batches[c]) ==> AllMarked(after.events, after.batches[c]))
    {
      if c == b {
        ConfirmKeepsOwn(db.events, b, db.batches[b], hash, height);
      } else {
        OtherVaultOrDone(db.batches, b, c);
        ConfirmKeepsOther(db.events, b, db.batches[b], height, db.batches[c]);
      }
    }
    ConfirmedApart(db.batches, b, hash);
    ConfirmedHeights(db.events, db.scanned, b, db.batches[b], height);
    forall id | 0 <= id < |after.events| ensures MarkOk(after.batches, after.events[id]) {
      assert MarkOk(db.batches, db.events[id]);
      ConfirmedMark(db, b, hash, height, id);
    }
    if height >= db.batches[b].through {
      ConfirmationMarksAllIff(db.events, b, db.batches[b], height);
      SameFrozen(after.events, db.batches[b], after.batches[b]);
    }
  }

  /** While a batch is unconfirmed its vault has no other one. */
  lemma OtherVaultOrDone(batches: seq<Batch>, b: BatchId, c: BatchId)
    requires b < |batches| && c < |batches| && b != c && batches[b].state != Confirmed
    requires forall i, j :: 0 <= i < j < |batches| ==> Apart(batches[i], batches[j])
    ensures batches[c].state == Confirmed || batches[c].vault != batches[b].vault
  {
    assert if c < b then Apart(batches[c], batches[b]) else Apart(batches[b], batches[c]);
  }

  lemma ConfirmedApart(batches: seq<Batch>, b: BatchId, hash: Hash)
    requires b < |batches| && forall i, j :: 0 <= i < j < |batches| ==> Apart(batches[i], batches[j])
    ensures var after := batches[b := batches[b].(state := Confirmed, hash := Some(hash))];
            forall i, j :: 0 <= i < j < |after| ==> Apart(after[i], after[j])
  {
    var after := batches[b := batches[b].(state := Confirmed, hash := Some(hash))];
    forall i, j | 0 <= i < j < |after| ensures Apart(after[i], after[j]) {
      assert Apart(batches[i], batches[j]);
    }
  }

  lemma ConfirmedHeights(events: seq<RawEvent>, scanned: nat, b: BatchId, batch: Batch, height: nat)
    requires HeightsOk(events, scanned)
    ensures HeightsOk(MarkEvents(events, b, batch, height), scanned)
  {
    var marked := MarkEvents(events, b, batch, height);
    assert forall i :: 0 <= i < |events| ==> marked[i].height == events[i].height;
  }

  lemma ConfirmedMark(db: Tables, b: BatchId, hash: Hash, height: nat, id: EventId)
    requires b < |db.batches| && id < |db.events| && MarkOk(db.batches, db.events[id])
    ensures MarkOk(db.batches[b := db.batches[b].(state := Confirmed, hash := Some(hash))],
                   MarkEvents(db.events, b, db.batches[b], height)[id])
  {
  }

  lemma SameFrozen(events: seq<RawEvent>, batch: Batch, after: Batch)
    requires AllMarked(events, batch) && after.frozen == batch.frozen
    ensures AllMarked(events, after)
  {
  }

  lemma ConfirmKeepsOwn(events: seq<RawEvent>, b: BatchId, batch: Batch, hash: Hash, height: nat)
    requires FrozenOk(events, batch)
    ensures FrozenOk(MarkEvents(events, b, batch, height), batch.(state := Confirmed, hash := Some(hash)))
  {
    var top :| top in batch.frozen && top < |events| && events[top].height == batch.through;
    assert top in batch.frozen && MarkEvents(events, b, batch, height)[top].height == batch.through;
  }

  // ---- Every step, every run ----

  /** A confirmation not below the height its batch was frozen through. */
  ghost predicate Timely(w: World, e: Event)
  {
    e.LookUp? && w.pc.Polling? && InRange(w.db, w.pc.b, w.pc.a)
    && e.look.seen.Some? && e.look.deep && e.look.seen.value.code == 0 && !e.look.seen.value.reverted ==>
      e.look.seen.value.height >= w.db.batches[w.pc.b].through
  }

  lemma BeginKeepsAccounts(w: World, b: BatchId, now: nat)
    requires Inv(w) && w.pc == Idle && b < |w.db.batches|
    ensures SameAccounts(w.db, BeginBatch(w, b, now).db)
  {
    hide Totals;
  }

  lemma RecordKeepsAccounts(w: World, b: BatchId, a: AttemptId, reply: Reply)
    requires InRange(w.db, b, a) && w.db.batches[b].state == Broadcasting
    ensures SameAccounts(w.db, RecordReply(w, b, a, reply).db)
  {
    if Usable(reply) {
      ReplyRewrites(w.db, b, a, reply.hash.value, reply.code.value);
      hide StoreReply;
    }
  }

  lemma LookKeepsAccounts(w: World, b: BatchId, a: AttemptId, hash: Hash, look: Look, now: nat)
    requires InRange(w.db, b, a) && w.db.batches[b].state in {Broadcast, Timeout} && Accounts(w.db)
    ensures var after := TakeLook(w, b, a, hash, look, now);
            Accounts(after.db)
            && (Settled(w.db)
                && (look.seen.Some? && look.deep && look.seen.value.code == 0 && !look.seen.value.reverted
                    ==> look.seen.value.height >= w.db.batches[b].through)
                ==> Settled(after.db))
  {
    hide Accounts, Settled, StoreConfirmed;
    var after := TakeLook(w, b, a, hash, look, now);
    if look.seen.Some? && look.deep && look.seen.value.code == 0 && !look.seen.value.reverted {
      ConfirmedAccounts(w.db, b, a, hash, look.seen.value.height);
    } else {
      assert SameAccounts(w.db, after.db);
      SameAccountsKeep(w.db, after.db);
    }
  }

  lemma ConfirmedAccounts(db: Tables, b: BatchId, a: AttemptId, hash: Hash, height: nat)
    requires InRange(db, b, a) && Accounts(db) && db.batches[b].state != Confirmed
    ensures Accounts(StoreConfirmed(db, b, a, hash, height))
    ensures Settled(db) && height >= db.batches[b].through ==> Settled(StoreConfirmed(db, b, a, hash, height))
  {
    ConfirmKeepsAccounts(db, b, a, hash, height);
  }

  lemma StepKeepsAccounts(w: World, e: Event)
    requires Inv(w) && Accounts(w.db)
    ensures Accounts(Step(w, e).db)
    ensures Settled(w.db) && Timely(w, e) ==> Settled(Step(w, e).db)
  {
    hide Accounts, Settled, AttemptsOk, SentOk, BeginBatch, RecordReply, TakeLook, StoreConfirmed, Freeze, StoreBlock;
    match e
    case Crash =>
    case Block(height, fills) =>
      if height > w.db.scanned {
        BlockKeepsAccounts(w.db, height, fills);
      }
    case Clear(b, claim) =>
      if Clearable(w.db, b, claim) {
        SameAccountsKeep(w.db, StoreCleared(w.db, b));
      }
    case FreezeFor(vault, limit) =>
      if w.pc == Idle && Freeze(w.db, vault, limit).Froze? {
        FreezeKeepsAccounts(w.db, vault, limit);
      }
    case Begin(b, now) =>
      if w.pc == Idle && b < |w.db.batches| {
        BeginKeepsAccounts(w, b, now);
        SameAccountsKeep(w.db, BeginBatch(w, b, now).db);
      }
    case MarkSending =>
      if w.pc.AfterSign? {
        SameAccountsKeep(w.db, Step(w, e).db);
      }
    case Send(reply) =>
    case Record =>
      if w.pc.Answered? {
        RecordKeepsAccounts(w, w.pc.b, w.pc.a, w.pc.reply);
        SameAccountsKeep(w.db, RecordReply(w, w.pc.b, w.pc.a, w.pc.reply).db);
      }
    case Refuse(now) =>
      if w.pc.Refusing? {
        SameAccountsKeep(w.db, Step(w, e).db);
      }
    case LookUp(look, now) =>
      if w.pc.Polling? {
        LookKeepsAccounts(w, w.pc.b, w.pc.a, w.pc.hash, look, now);
      }
  }

  ghost predicate TimelyRun(w: World, events: seq<Event>)
    decreases |events|
  {
    events == [] || (Timely(w, events[0]) && TimelyRun(Step(w, events[0]), events[1..]))
  }

  /** The accounting invariant over every run, with crashes between any two commits. */
  lemma {:induction false} RunKeepsAccounts(w: World, events: seq<Event>)
    requires Inv(w) && Accounts(w.db)
    ensures Accounts(Run(w, events).db)
    ensures Settled(w.db) && TimelyRun(w, events) ==> Settled(Run(w, events).db)
    decreases |events|
  {
    if events != [] {
      hide Inv, Accounts, Settled, Step, Timely;
      StepKeepsInv(w, events[0]);
      StepKeepsAccounts(w, events[0]);
      RunKeepsAccounts(Step(w, events[0]), events[1..]);
    }
  }

  lemma FreshAccounts(scanned: nat)
    ensures Accounts(Fresh(scanned).db) && Settled(Fresh(scanned).db)
  {
  }

  /** A mark once set is final, and rows are never lost. */
  ghost predicate MarksKept(events: seq<RawEvent>, after: seq<RawEvent>)
  {
    |after| >= |events|
    && forall id :: 0 <= id < |events| ==>
         after[id].(reconciled := None) == events[id].(reconciled := None)
         && (events[id].reconciled.Some? ==> after[id].reconciled == events[id].reconciled)
  }

  lemma StepKeepsMarks(w: World, e: Event)
    ensures MarksKept(w.db.events, Step(w, e).db.events)
  {
    hide Totals, Freeze, InsertAll;
    if e.Block? {
      InsertExtends(w.db.events, e.fills, e.height);
    } else if e.FreezeFor? {
      FreezeLeavesEvents(w.db, e.vault, e.limit);
    } else if e.Begin? {
      hide Latest;
    } else {
      hide StoreReply;
      ReplyLeavesEvents(w);
    }
  }

  lemma FreezeLeavesEvents(db: Tables, vault: VaultId, limit: nat)
    ensures Freeze(db, vault, limit).Froze? ==> Freeze(db, vault, limit).db.events == db.events
  {
    hide Select, Candidates, TakeSnapshot, FrozenIds, FirstActive;
  }

  lemma ReplyLeavesEvents(w: World)
    ensures w.pc.Answered? && InRange(w.db, w.pc.b, w.pc.a) && Usable(w.pc.reply) ==>
              StoreReply(w.db, w.pc.b, w.pc.a, w.pc.reply.hash.value, w.pc.reply.code.value).events == w.db.events
  {
  }

  /** An event is marked by at most one batch, once and for all. */
  lemma {:induction false} MarksAreFinal(w: World, events: seq<Event>)
    ensures MarksKept(w.db.events, Run(w, events).db.events)
    decreases |events|
  {
    if events != [] {
      hide Step;
      StepKeepsMarks(w, events[0]);
      MarksAreFinal(Step(w, events[0]), events[1..]);
    }
  }

  /** No fill is recorded twice. */
  ghost predicate Unique(events: seq<RawEvent>)
  {
    forall i, j :: 0 <= i < j < |events| ==> !SameFill(events[i], events[j])
  }

  lemma {:induction false} InsertKeepsUnique(events: seq<RawEvent>, fills: seq<Fill>, height: nat)
    requires Unique(events)
    ensures Unique(InsertAll(events, fills, height))
  {
    if fills != [] {
      InsertKeepsUnique(events, fills[..|fills| - 1], height);
    }
  }

  lemma MarksKeepUnique(events: seq<RawEvent>, after: seq<RawEvent>)
    requires Unique(events) && MarksKept(events, after) && |after| == |events|
    ensures Unique(after)
  {
    assert forall i :: 0 <= i < |events| ==>
        after[i].source == events[i].source && after[i].key == events[i].key by {
      forall i | 0 <= i < |events| ensures after[i].source == events[i].source && after[i].key == events[i].key {
        assert after[i].(reconciled := None) == events[i].(reconciled := None);
      }
    }
  }

  lemma StepKeepsUnique(w: World, e: Event)
    requires Unique(w.db.events)
    ensures Unique(Step(w, e).db.events)
  {
    if e.Block? {
      InsertKeepsUnique(w.db.events, e.fills, e.height);
      hide InsertAll, Unique, Totals;
    } else {
      StepKeepsMarks(w, e);
      OnlyBlocksAdd(w, e);
      hide Step, MarksKept;
      MarksKeepUnique(w.db.events, Step(w, e).db.events);
    }
  }

  lemma OnlyBlocksAdd(w: World, e: Event)
    requires !e.Block?
    ensures |Step(w, e).db.events| == |w.db.events|
  {
    hide Totals, Freeze;
    if e.FreezeFor? {
      FreezeLeavesEvents(w.db, e.vault, e.limit);
    } else if e.Begin? {
      hide Latest;
    } else {
      hide StoreReply;
      ReplyLeavesEvents(w);
    }
  }

  /** Every fill is one row, however often its block's transaction is read or a crash interrupts the scan:
      no two rows of any reachable state share transaction, event index and order. */
  lemma {:induction false} FillsAreRecordedOnce(w: World, events: seq<Event>)
    requires Unique(w.db.events)
    ensures Unique(Run(w, events).db.events)
    decreases |events|
  {
    if events != [] {
      hide Step, Unique;
      StepKeepsUnique(w, events[0]);
      FillsAreRecordedOnce(Step(w, events[0]), events[1..]);
    }
  }

  // ---- What the invariant gives ----

  /** At most one unconfirmed batch per vault, and no event frozen twice, in every reachable state. */
  lemma OneBatchAtATime(scanned: nat, events: seq<Event>, b: BatchId, c: BatchId)
    requires var db := Run(Fresh(scanned), events).db; b < |db.batches| && c < |db.batches| && b != c
    ensures var db := Run(Fresh(scanned), events).db;
            (db.batches[b].vault == db.batches[c].vault ==>
               db.batches[b].state == Confirmed || db.batches[c].state == Confirmed)
            && forall id :: id in db.batches[b].frozen ==> id !in db.batches[c].frozen
  {
    FreshInv(scanned);
    FreshAccounts(scanned);
    RunKeepsAccounts(Fresh(scanned), events);
    var db := Run(Fresh(scanned), events).db;
    hide Run, FrozenOk, MarkOk, HeightsOk, Totals;
    assert if b < c then Apart(db.batches[b], db.batches[c]) else Apart(db.batches[c], db.batches[b]);
  }

  /** In every reachable state the aggregates are the per-order sums of the unmarked events, with the least
      and the greatest of their heights. */
  lemma AggregatesAlwaysSumUp(scanned: nat, events: seq<Event>, key: Key)
    ensures var db := Run(Fresh(scanned), events).db;
            var rows := RowsOf(db.events, key);
            SumsTo(db.events, RowFor(db.aggregates, key), rows)
            && forall id :: id in rows ==>
                 db.events[rows[0]].height <= db.events[id].height <= db.events[rows[|rows| - 1]].height
  {
    FreshInv(scanned);
    FreshAccounts(scanned);
    RunKeepsAccounts(Fresh(scanned), events);
    var db := Run(Fresh(scanned), events).db;
    hide Run, FrozenOk, MarkOk, Totals, SumsTo, Apart;
    TotalsSumUp(db.events, key);
    RowsBetween(db, key);
  }

  lemma RowsBetween(db: Tables, key: Key)
    requires HeightsOk(db.events, db.scanned)
    ensures var rows := RowsOf(db.events, key);
            forall id :: id in rows ==>
              db.events[rows[0]].height <= db.events[id].height <= db.events[rows[|rows| - 1]].height
  {
    var rows := RowsOf(db.events, key);
    forall id | id in rows
      ensures db.events[rows[0]].height <= db.events[id].height <= db.events[rows[|rows| - 1]].height {
      var i :| 0 <= i < |rows| && rows[i] == id;
      assert i > 0 ==> rows[0] < rows[i];
      assert i < |rows| - 1 ==> rows[i] < rows[|rows| - 1];
    }
  }

  /** As long as confirmations are not below their batch's height, freezing never runs into an event some
      batch already holds. */
  lemma FreezeNeverClashes(scanned: nat, events: seq<Event>, vault: VaultId, limit: nat)
    requires TimelyRun(Fresh(scanned), events)
    ensures Freeze(Run(Fresh(scanned), events).db, vault, limit) != AlreadyFrozen
  {
    FreshInv(scanned);
    FreshAccounts(scanned);
    RunKeepsAccounts(Fresh(scanned), events);
    hide Run;
    SettledFreezes(Run(Fresh(scanned), events).db, vault, limit);
  }

  lemma SettledFreezes(db: Tables, vault: VaultId, limit: nat)
    requires Accounts(db) && Settled(db)
    ensures Freeze(db, vault, limit) != AlreadyFrozen
  {
    var chosen := Select(db, vault, Candidates(db, vault), limit);
    var s := TakeSnapshot(db.events, vault, chosen);
    SnapshotFacts(db.events, vault, chosen);
    hide Select, Candidates, TakeSnapshot, Totals, TopHeight;
    if FirstActive(db.batches, vault).None? {
      forall id | id in s.ids ensures id !in FrozenIds(db.batches) {
        UnmarkedIsOpen(db, vault, id);
      }
    }
  }

  /** With no unconfirmed batch for a vault and everything settled, its unmarked events are in no batch. */
  lemma UnmarkedIsOpen(db: Tables, vault: VaultId, id: EventId)
    requires Accounts(db) && Settled(db) && FirstActive(db.batches, vault).None?
    requires id < |db.events| && db.events[id].vault == vault && Unmarked(db.events[id])
    ensures id !in FrozenIds(db.batches)
  {
    forall b | 0 <= b < |db.batches| ensures id !in db.batches[b].frozen {
      assert FrozenOk(db.events, db.batches[b]);
      assert db.batches[b].state == Confirmed ==> AllMarked(db.events, db.batches[b]);
    }
  }

  /** Nothing is left behind: a settled vault without an unconfirmed batch is idle exactly when it has no
      unmarked event. */
  lemma IdleIffNothingUnmarked(db: Tables, vault: VaultId, limit: nat)
    requires Accounts(db) && Settled(db) && FirstActive(db.batches, vault).None? && limit > 0
    ensures Freeze(db, vault, limit) == NothingToDo
            <==> forall id :: 0 <= id < |db.events| && db.events[id].vault == vault ==> !Unmarked(db.events[id])
  {
    hide Totals, TakeSnapshot, FrozenIds;
    SettledFreezes(db, vault, limit);
    forall id | 0 <= id < |db.events| && db.events[id].vault == vault && Unmarked(db.events[id])
      ensures db.events[id].key in Candidates(db, vault)
    {
      UnmarkedIsOpen(db, vault, id);
      assert Open(db, vault, db.events[id].key, id);
    }
  }

  /** When a late confirmation left a frozen event of an order unmarked, the order's next event makes
      freezing fail as soon as the order is chosen. */
  lemma LeftoverBlocksFreezing(db: Tables, vault: VaultId, limit: nat, left: EventId, again: EventId)
    requires FirstActive(db.batches, vault).None?
    requires left in FrozenIds(db.batches) && left < |db.events| && again < |db.events|
    requires Of(db.events[left], vault, db.events[left].key) && Open(db, vault, db.events[left].key, again)
    requires db.events[left].key in Select(db, vault, Candidates(db, vault), limit)
    ensures Freeze(db, vault, limit) == AlreadyFrozen
  {
    var chosen := Select(db, vault, Candidates(db, vault), limit);
    SnapshotFacts(db.events, vault, chosen);
    hide Select, Candidates, TakeSnapshot, TopHeight, FrozenIds, FirstActive;
    assert left in TakeSnapshot(db.events, vault, chosen).ids;
  }
}
