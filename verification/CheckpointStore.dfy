/** Graph checkpoints kept as rows: one row per checkpoint, one per channel version, one per pending write.

    Serialisation is taken as lossless, checkpoint ids and task ids as points of a linear order. */
module CheckpointStore {
  import opened Prelude

  datatype Channel = Channel(name: string)
  datatype Version = Version(key: string)
  datatype Value = Value(text: string)
  datatype Json = Null | Text(text: string) | Number(number: int)

  /** A thread and a checkpoint namespace. */
  datatype Scope = Scope(thread: string, ns: string)

  /** Ids are compared as the database compares them; only their order matters here. */
  datatype CheckpointId = CheckpointId(rank: int)

  datatype CheckpointKey = CheckpointKey(scope: Scope, id: CheckpointId)
  datatype BlobKey = BlobKey(scope: Scope, channel: Channel, version: Version)
  datatype WriteKey = WriteKey(checkpoint: CheckpointKey, task: int, index: int)

  datatype Record = Record(
    parent: Option<CheckpointId>, versions: map<Channel, Version>, rest: string, metadata: map<string, Json>)
  datatype Blob = Empty | Stored(value: Value)
  datatype Write = Write(channel: Channel, value: Value, path: string)

  datatype Tables = Tables(
    blobs: map<BlobKey, Blob>, checkpoints: map<CheckpointKey, Record>, writes: map<WriteKey, Write>)

  /** A checkpoint with all its channel values, as it is given to `put` and handed out again. */
  datatype Snapshot = Snapshot(
    values: map<Channel, Value>, versions: map<Channel, Version>, rest: string,
    metadata: map<string, Json>, parent: Option<CheckpointId>)

  // ----- Saving -----

  function Get<K, V>(m: map<K, V>, k: K): Option<V> {
    if k in m then Some(m[k]) else None
  }

  function BlobFor(values: map<Channel, Value>, c: Channel): Blob {
    if c in values then Stored(values[c]) else Empty
  }

  /** The rows `put` merges: only the channels that changed. */
  function Delta(scope: Scope, values: map<Channel, Value>, newVersions: map<Channel, Version>): map<BlobKey, Blob> {
    map c | c in newVersions :: BlobKey(scope, c, newVersions[c]) := BlobFor(values, c)
  }

  function PutStep(t: Tables, k: CheckpointKey, s: Snapshot, newVersions: map<Channel, Version>): Tables {
    t.(blobs := t.blobs + Delta(k.scope, s.values, newVersions),
       checkpoints := t.checkpoints[k := Record(s.parent, s.versions, s.rest, s.metadata)])
  }

  // ----- Rebuilding -----

  function Lookup(t: Tables, scope: Scope, c: Channel, v: Version): Option<Value> {
    var key := BlobKey(scope, c, v);
    if key in t.blobs && t.blobs[key].Stored? then Some(t.blobs[key].value) else None
  }

  function Rebuild(t: Tables, scope: Scope, versions: map<Channel, Version>): map<Channel, Value> {
    map c | c in versions && Lookup(t, scope, c, versions[c]).Some? :: Lookup(t, scope, c, versions[c]).value
  }

  function Restore(t: Tables, k: CheckpointKey): Snapshot
    requires k in t.checkpoints
  {
    var r := t.checkpoints[k];
    Snapshot(Rebuild(t, k.scope, r.versions), r.versions, r.rest, r.metadata, r.parent)
  }

  // ----- Pending writes -----

  /** One attempt to fill a slot. */
  datatype Attempt = Attempt(key: WriteKey, write: Write)

  /** A regular slot keeps its first value, a special one (negative index) its last. */
  function RecordOne(writes: map<WriteKey, Write>, a: Attempt): map<WriteKey, Write> {
    if a.key in writes && a.key.index >= 0 then writes else writes[a.key := a.write]
  }

  function RecordAll(writes: map<WriteKey, Write>, attempts: seq<Attempt>): map<WriteKey, Write> {
    if attempts == [] then writes
    else RecordOne(RecordAll(writes, attempts[..|attempts| - 1]), attempts[|attempts| - 1])
  }

  /** The slot of each write of a batch: a special channel has a fixed negative index, any other its position. */
  function SlotsOf(
    special: map<Channel, int>, k: CheckpointKey, task: int, path: string, batch: seq<(Channel, Value)>): seq<Attempt>
  {
    seq(|batch|, i requires 0 <= i < |batch| =>
      var (c, v) := batch[i];
      Attempt(WriteKey(k, task, if c in special then special[c] else i), Write(c, v, path)))
  }

  lemma {:induction false} RecordAllConcat(writes: map<WriteKey, Write>, a: seq<Attempt>, b: seq<Attempt>)
    ensures RecordAll(writes, a + b) == RecordAll(RecordAll(writes, a), b)
    decreases |b|
  {
    if b == [] {
      assert a + b == a;
    } else {
      RecordAllConcat(writes, a, b[..|b| - 1]);
      assert (a + b)[..|a + b| - 1] == a + b[..|b| - 1];
    }
  }

  /** No attempt names the slot: it stays as it was. */
  lemma {:induction false} OtherSlotsKept(writes: map<WriteKey, Write>, attempts: seq<Attempt>, key: WriteKey)
    requires forall i :: 0 <= i < |attempts| ==> attempts[i].key != key
    ensures Get(RecordAll(writes, attempts), key) == Get(writes, key)
    decreases |attempts|
  {
    if attempts != [] {
      OtherSlotsKept(writes, attempts[..|attempts| - 1], key);
    }
  }

  /** A regular slot already filled never changes. */
  lemma {:induction false} FilledSlotKept(writes: map<WriteKey, Write>, attempts: seq<Attempt>, key: WriteKey)
    requires key in writes && key.index >= 0
    ensures Get(RecordAll(writes, attempts), key) == Some(writes[key])
    decreases |attempts|
  {
    if attempts != [] {
      FilledSlotKept(writes, attempts[..|attempts| - 1], key);
    }
  }

  /** However often batches are retried, a regular slot holds the first value ever attempted for it. */
  lemma RegularSlotKeepsFirst(writes: map<WriteKey, Write>, attempts: seq<Attempt>, i: nat)
    requires i < |attempts| && attempts[i].key.index >= 0
    requires attempts[i].key !in writes
    requires forall j :: 0 <= j < i ==> attempts[j].key != attempts[i].key
    ensures Get(RecordAll(writes, attempts), attempts[i].key) == Some(attempts[i].write)
  {
    var key := attempts[i].key;
    OtherSlotsKept(writes, attempts[..i], key);
    var filled := RecordAll(writes, attempts[..i + 1]);
    assert attempts[..i + 1][..i] == attempts[..i];
    FilledSlotKept(filled, attempts[i + 1..], key);
    RecordAllConcat(writes, attempts[..i + 1], attempts[i + 1..]);
    assert attempts[..i + 1] + attempts[i + 1..] == attempts;
  }

  /** ... and a special slot the last one. */
  lemma SpecialSlotKeepsLast(writes: map<WriteKey, Write>, attempts: seq<Attempt>, i: nat)
    requires i < |attempts| && attempts[i].key.index < 0
    requires forall j :: i < j < |attempts| ==> attempts[j].key != attempts[i].key
    ensures Get(RecordAll(writes, attempts), attempts[i].key) == Some(attempts[i].write)
  {
    var written := RecordAll(writes, attempts[..i + 1]);
    OtherSlotsKept(written, attempts[i + 1..], attempts[i].key);
    RecordAllConcat(writes, attempts[..i + 1], attempts[i + 1..]);
    assert attempts[..i + 1] + attempts[i + 1..] == attempts;
  }

  /** The indices of the special channels are negative. */
  ghost predicate Negative(special: map<Channel, int>) {
    forall c :: c in special ==> special[c] < 0
  }

  /** Position `i` of the batch is the last that writes the special slot `index`. */
  ghost predicate LastSpecial(special: map<Channel, int>, batch: seq<(Channel, Value)>, i: nat, index: int) {
    && i < |batch| && batch[i].0 in special && special[batch[i].0] == index
    && (forall j :: i < j < |batch| && batch[j].0 in special ==> special[batch[j].0] != index)
  }

  /** Nothing in the batch of `task` is for this slot. */
  ghost predicate NotFor(
    special: map<Channel, int>, k: CheckpointKey, task: int, batch: seq<(Channel, Value)>, key: WriteKey)
  {
    || key.checkpoint != k || key.task != task
    || (key.index >= |batch|)
    || (0 <= key.index < |batch| && batch[key.index].0 in special)
    || (key.index < 0 && forall i :: 0 <= i < |batch| && batch[i].0 in special ==> special[batch[i].0] != key.index)
  }

  /**
   * What a batch does to the write table, slot by slot. The position of a regular channel is its slot, which keeps
   * what it held; a special channel's slot takes the last value of the batch; every other slot is as before.
   */
  ghost predicate FillsSlots(
    special: map<Channel, int>, before: map<WriteKey, Write>, after: map<WriteKey, Write>, k: CheckpointKey, task: int,
    path: string, batch: seq<(Channel, Value)>)
  {
    && (forall i: nat :: i < |batch| && batch[i].0 !in special ==>
          Get(after, WriteKey(k, task, i)) ==
          if WriteKey(k, task, i) in before then Some(before[WriteKey(k, task, i)])
          else Some(Write(batch[i].0, batch[i].1, path)))
    && (forall i: nat, index :: LastSpecial(special, batch, i, index) ==>
          Get(after, WriteKey(k, task, index)) == Some(Write(batch[i].0, batch[i].1, path)))
    && (forall key :: NotFor(special, k, task, batch, key) ==> Get(after, key) == Get(before, key))
  }

  lemma RegularFilled(
    special: map<Channel, int>, writes: map<WriteKey, Write>, k: CheckpointKey, task: int, path: string,
    batch: seq<(Channel, Value)>, i: nat)
    requires Negative(special) && i < |batch| && batch[i].0 !in special
    ensures var key := WriteKey(k, task, i);
            Get(RecordAll(writes, SlotsOf(special, k, task, path, batch)), key) ==
            if key in writes then Some(writes[key]) else Some(Write(batch[i].0, batch[i].1, path))
  {
    var slots, key := SlotsOf(special, k, task, path, batch), WriteKey(k, task, i);
    assert slots[i] == Attempt(key, Write(batch[i].0, batch[i].1, path));
    if key in writes {
      FilledSlotKept(writes, slots, key);
    } else {
      RegularSlotKeepsFirst(writes, slots, i);
    }
  }

  lemma SpecialFilled(
    special: map<Channel, int>, writes: map<WriteKey, Write>, k: CheckpointKey, task: int, path: string,
    batch: seq<(Channel, Value)>, i: nat, index: int)
    requires Negative(special) && LastSpecial(special, batch, i, index)
    ensures Get(RecordAll(writes, SlotsOf(special, k, task, path, batch)), WriteKey(k, task, index)) ==
            Some(Write(batch[i].0, batch[i].1, path))
  {
    var slots := SlotsOf(special, k, task, path, batch);
    assert slots[i] == Attempt(WriteKey(k, task, index), Write(batch[i].0, batch[i].1, path));
    SpecialSlotKeepsLast(writes, slots, i);
  }

  lemma OthersUntouched(
    special: map<Channel, int>, writes: map<WriteKey, Write>, k: CheckpointKey, task: int, path: string,
    batch: seq<(Channel, Value)>, key: WriteKey)
    requires Negative(special) && NotFor(special, k, task, batch, key)
    ensures Get(RecordAll(writes, SlotsOf(special, k, task, path, batch)), key) == Get(writes, key)
  {
    OtherSlotsKept(writes, SlotsOf(special, k, task, path, batch), key);
  }

  lemma BatchFillsSlots(
    special: map<Channel, int>, writes: map<WriteKey, Write>, k: CheckpointKey, task: int, path: string,
    batch: seq<(Channel, Value)>)
    requires Negative(special)
    ensures FillsSlots(
              special, writes, RecordAll(writes, SlotsOf(special, k, task, path, batch)), k, task, path, batch)
  {
    forall i: nat | i < |batch| && batch[i].0 !in special
      ensures var key := WriteKey(k, task, i);
              Get(RecordAll(writes, SlotsOf(special, k, task, path, batch)), key) ==
              if key in writes then Some(writes[key]) else Some(Write(batch[i].0, batch[i].1, path))
    {
      RegularFilled(special, writes, k, task, path, batch, i);
    }
    forall i: nat, index | LastSpecial(special, batch, i, index)
      ensures Get(RecordAll(writes, SlotsOf(special, k, task, path, batch)), WriteKey(k, task, index)) ==
              Some(Write(batch[i].0, batch[i].1, path))
    {
      SpecialFilled(special, writes, k, task, path, batch, i, index);
    }
    forall key | NotFor(special, k, task, batch, key)
      ensures Get(RecordAll(writes, SlotsOf(special, k, task, path, batch)), key) == Get(writes, key)
    {
      OthersUntouched(special, writes, k, task, path, batch, key);
    }
  }

  function DeleteStep(t: Tables, thread: string): Tables {
    Tables(map k | k in t.blobs && k.scope.thread != thread :: t.blobs[k],
           map k | k in t.checkpoints && k.scope.thread != thread :: t.checkpoints[k],
           map k | k in t.writes && k.checkpoint.scope.thread != thread :: t.writes[k])
  }

  // ----- Listing -----

  function Ids(t: Tables, scope: Scope): set<CheckpointId> {
    set k | k in t.checkpoints && k.scope == scope :: k.id
  }

  lemma {:induction false} HasGreatest(ids: set<CheckpointId>)
    requires ids != {}
    ensures exists m :: m in ids && forall x :: x in ids ==> x.rank <= m.rank
  {
    var y :| y in ids;
    if forall x :: x in ids ==> x.rank <= y.rank {
    } else {
      var above := set x | x in ids && x.rank > y.rank;
      var z :| z in ids && z.rank > y.rank;
      assert z in above;
      assert above < ids by { assert y !in above; }
      HasGreatest(above);
      var m :| m in above && forall x :: x in above ==> x.rank <= m.rank;
      forall x | x in ids ensures x.rank <= m.rank {
        if x.rank > y.rank { assert x in above; }
      }
    }
  }

  ghost function Greatest(ids: set<CheckpointId>): (m: CheckpointId)
    requires ids != {}
    ensures m in ids && forall x :: x in ids ==> x.rank <= m.rank
  {
    HasGreatest(ids);
    var m :| m in ids && forall x :: x in ids ==> x.rank <= m.rank;
    m
  }

  /** What a listing asks for. Without a thread it is about all of them, without a namespace about all of a thread's. */
  datatype Search = Search(
    thread: Option<string>, ns: Option<string>, id: Option<CheckpointId>, before: Option<CheckpointId>)
  {
    predicate Selects(k: CheckpointKey) {
      && (thread.Some? ==> k.scope.thread == thread.value)
      && (ns.Some? ==> k.scope.ns == ns.value)
      && (id.Some? ==> k.id == id.value)
      && (before.Some? ==> k.id.rank < before.value.rank)
    }
  }

  /** ORDER BY id DESC: ids of different scopes may be equal, and then come in any order. */
  ghost predicate Orders(order: seq<CheckpointKey>, keys: set<CheckpointKey>) {
    && (forall i, j :: 0 <= i < j < |order| ==> order[i] != order[j] && order[i].id.rank >= order[j].id.rank)
    && (forall k :: k in order <==> k in keys)
  }

  predicate Matches(metadata: map<string, Json>, filter: map<string, Json>) {
    forall key :: key in filter ==> (if key in metadata then metadata[key] else Null) == filter[key]
  }

  function Candidates(t: Tables, q: Search): set<CheckpointKey> {
    set k | k in t.checkpoints && q.Selects(k)
  }

  predicate Shown(t: Tables, k: CheckpointKey, filter: map<string, Json>) {
    k in t.checkpoints && Matches(t.checkpoints[k].metadata, filter)
  }

  /** The checkpoints a listing selects before its limit. */
  ghost function Selected(t: Tables, q: Search, filter: map<string, Json>): set<CheckpointKey> {
    set k | k in Candidates(t, q) && Shown(t, k, filter)
  }

  function Limited<T>(s: seq<T>, limit: Option<int>): seq<T> {
    if limit.None? || limit.value >= |s| then s else if limit.value <= 0 then [] else s[..limit.value]
  }

  datatype CheckpointTuple = CheckpointTuple(
    key: CheckpointKey, snapshot: Snapshot, pending: seq<(int, Channel, Value)>)

  predicate Precedes(a: WriteKey, b: WriteKey) {
    a.task < b.task || (a.task == b.task && a.index < b.index)
  }

  /** `order` lists the pending writes of `k` by task and index. */
  ghost predicate OrdersWrites(t: Tables, k: CheckpointKey, order: seq<WriteKey>) {
    && (forall i, j :: 0 <= i < j < |order| ==> Precedes(order[i], order[j]))
    && (forall w :: w in order <==> w in t.writes && w.checkpoint == k)
  }

  function PendingIn(t: Tables, order: seq<WriteKey>): seq<(int, Channel, Value)>
    requires forall w :: w in order ==> w in t.writes
  {
    seq(|order|, i requires 0 <= i < |order| =>
      assert order[i] in order; (order[i].task, t.writes[order[i]].channel, t.writes[order[i]].value))
  }

  ghost predicate IsTupleOf(t: Tables, k: CheckpointKey, tuple: CheckpointTuple) {
    && k in t.checkpoints
    && tuple.key == k
    && tuple.snapshot == Restore(t, k)
    && exists order: seq<WriteKey> :: OrdersWrites(t, k, order) && tuple.pending == PendingIn(t, order)
  }

  // ----- The saver -----

  class SQLAlchemyCheckpointSaver {
    const special: map<Channel, int>
    var blobs: map<BlobKey, Blob>
    var checkpoints: map<CheckpointKey, Record>
    var writes: map<WriteKey, Write>

    ghost function Contents(): Tables
      reads this
    {
      Tables(blobs, checkpoints, writes)
    }

    constructor (special: map<Channel, int>)
      ensures Contents() == Tables(map[], map[], map[]) && this.special == special
    {
      this.special := special;
      blobs := map[];
      checkpoints := map[];
      writes := map[];
    }

    method Put(k: CheckpointKey, s: Snapshot, newVersions: map<Channel, Version>)
      modifies this
      ensures Contents() == PutStep(old(Contents()), k, s, newVersions)
    {
      MergeBlobs(k.scope, s.values, newVersions);
      checkpoints := checkpoints[k := Record(s.parent, s.versions, s.rest, s.metadata)];
    }

    method MergeBlobs(scope: Scope, values: map<Channel, Value>, newVersions: map<Channel, Version>)
      modifies `blobs
      ensures blobs == old(blobs) + Delta(scope, values, newVersions)
    {
      var remaining := newVersions.Keys;
      while remaining != {}
        invariant remaining <= newVersions.Keys
        invariant blobs == Merged(old(blobs), scope, values, newVersions, remaining)
      {
        var c :| c in remaining;
        MergedOne(old(blobs), scope, values, newVersions, remaining, c);
        blobs := blobs[BlobKey(scope, c, newVersions[c]) := BlobFor(values, c)];
        remaining := remaining - {c};
      }
      assert newVersions - remaining == newVersions;
    }

    method PutWrites(k: CheckpointKey, batch: seq<(Channel, Value)>, task: int, path: string)
      modifies this
      ensures Contents() == old(Contents()).(writes := RecordAll(old(writes), SlotsOf(special, k, task, path, batch)))
      ensures Negative(special) ==> FillsSlots(special, old(writes), writes, k, task, path, batch)
    {
      ghost var slots := SlotsOf(special, k, task, path, batch);
      for position := 0 to |batch|
        invariant writes == RecordAll(old(writes), slots[..position])
        invariant blobs == old(blobs) && checkpoints == old(checkpoints)
      {
        assert slots[..position + 1][..position] == slots[..position];
        var (channel, value) := batch[position];
        var index := if channel in special then special[channel] else position;
        var key := WriteKey(k, task, index);
        if key in writes && index >= 0 {
          continue;
        }
        writes := writes[key := Write(channel, value, path)];
      }
      assert slots[..|batch|] == slots;
      if Negative(special) {
        BatchFillsSlots(special, old(writes), k, task, path, batch);
      }
    }

    method DeleteThread(thread: string)
      modifies this
      ensures Contents() == DeleteStep(old(Contents()), thread)
    {
      writes := map k | k in writes && k.checkpoint.scope.thread != thread :: writes[k];
      blobs := map k | k in blobs && k.scope.thread != thread :: blobs[k];
      checkpoints := map k | k in checkpoints && k.scope.thread != thread :: checkpoints[k];
    }

    /** SELECT ... ORDER BY task_id, write_index */
    method OrderedWrites(k: CheckpointKey) returns (order: seq<WriteKey>)
      ensures OrdersWrites(Contents(), k, order)
    {
      var remaining := set w | w in writes && w.checkpoint == k;
      order := [];
      while remaining != {}
        invariant forall w :: w in remaining ==> w in writes && w.checkpoint == k
        invariant forall w :: w in writes && w.checkpoint == k <==> w in remaining || w in order
        invariant forall i, j :: 0 <= i < j < |order| ==> Precedes(order[i], order[j])
        invariant forall v, w :: v in order && w in remaining ==> Precedes(v, w)
        decreases remaining
      {
        var least := Least(remaining, k);
        order := order + [least];
        remaining := remaining - {least};
      }
    }

    method RebuildTuple(k: CheckpointKey) returns (tuple: CheckpointTuple)
      requires k in checkpoints
      ensures IsTupleOf(Contents(), k, tuple)
    {
      var record := checkpoints[k];
      var values: map<Channel, Value> := map[];
      var remaining := record.versions.Keys;
      while remaining != {}
        invariant remaining <= record.versions.Keys
        invariant values == Rebuild(Contents(), k.scope, record.versions - remaining)
      {
        var c :| c in remaining;
        var key := BlobKey(k.scope, c, record.versions[c]);
        if key in blobs && blobs[key].Stored? {
          values := values[c := blobs[key].value];
        }
        remaining := remaining - {c};
      }
      assert record.versions - remaining == record.versions;
      var order := OrderedWrites(k);
      tuple := CheckpointTuple(k, Snapshot(values, record.versions, record.rest, record.metadata, record.parent),
                               PendingIn(Tables(blobs, checkpoints, writes), order));
    }

    /** Without an id, the newest checkpoint of the scope. */
    method GetTuple(scope: Scope, id: Option<CheckpointId>) returns (tuple: Option<CheckpointTuple>)
      ensures var ids := Ids(Contents(), scope);
              var wanted := if id.Some? then id else if ids == {} then None else Some(Greatest(ids));
              if wanted.Some? && wanted.value in ids
              then tuple.Some? && IsTupleOf(Contents(), CheckpointKey(scope, wanted.value), tuple.value)
              else tuple.None?
    {
      if id.Some? {
        if CheckpointKey(scope, id.value) !in checkpoints {
          return None;
        }
        var found := RebuildTuple(CheckpointKey(scope, id.value));
        return Some(found);
      }
      var ids := Ids(Tables(blobs, checkpoints, writes), scope);
      if ids == {} {
        return None;
      }
      var newest := GreatestOf(ids);
      var found := RebuildTuple(CheckpointKey(scope, newest));
      return Some(found);
    }

    /** SELECT ... ORDER BY checkpoint_id DESC */
    method OrderedKeys(keys: set<CheckpointKey>) returns (records: seq<CheckpointKey>)
      ensures Orders(records, keys)
    {
      var remaining := keys;
      records := [];
      while remaining != {}
        invariant remaining <= keys
        invariant Orders(records, keys - remaining)
        invariant forall x, y :: x in records && y in remaining ==> x.id.rank >= y.id.rank
        decreases remaining
      {
        var newest := NewestOf(remaining);
        OrdersMore(records, keys - remaining, newest);
        assert keys - (remaining - {newest}) == (keys - remaining) + {newest};
        records := records + [newest];
        remaining := remaining - {newest};
      }
      assert keys - remaining == keys;
    }

    method List(q: Search, filter: map<string, Json>, limit: Option<int>) returns (tuples: seq<CheckpointTuple>)
      ensures IsListing(Contents(), q, filter, limit, tuples)
    {
      var candidates := Candidates(Tables(blobs, checkpoints, writes), q);
      var records := OrderedKeys(candidates);
      tuples := Emit(records, filter, limit);
      FilteredOrders(Contents(), records, candidates, filter);
      assert Selected(Contents(), q, filter) == set k | k in candidates && Shown(Contents(), k, filter);
    }

    method Emit(records: seq<CheckpointKey>, filter: map<string, Json>, limit: Option<int>)
      returns (tuples: seq<CheckpointTuple>)
      requires forall k :: k in records ==> k in checkpoints
      ensures TuplesOf(Contents(), Limited(Filtered(Contents(), records, filter), limit), tuples)
    {
      ghost var t := Contents();
      tuples := [];
      ghost var shown := [];
      var i := 0;
      while i < |records|
        invariant 0 <= i <= |records|
        invariant shown + Filtered(t, records[i..], filter) == Filtered(t, records, filter)
        invariant limit.Some? ==> |shown| <= Max(0, limit.value)
        invariant TuplesOf(t, shown, tuples)
      {
        assert records[i] in records;
        var tuple := RebuildTuple(records[i]);
        if !Matches(tuple.snapshot.metadata, filter) {
          i := i + 1;
          continue;
        }
        Regroup(shown, records[i], Filtered(t, records[i + 1..], filter));
        if limit.Some? && |tuples| >= limit.value {
          break;
        }
        TuplesOfMore(t, shown, tuples, records[i], tuple);
        tuples := tuples + [tuple];
        shown := shown + [records[i]];
        i := i + 1;
      }
    }
  }

  /** The tuples of the selected checkpoints, newest first, up to the limit. */
  ghost predicate IsListing(
    t: Tables, q: Search, filter: map<string, Json>, limit: Option<int>, tuples: seq<CheckpointTuple>)
  {
    exists order :: Orders(order, Selected(t, q, filter)) && TuplesOf(t, Limited(order, limit), tuples)
  }

  ghost predicate TuplesOf(t: Tables, keys: seq<CheckpointKey>, tuples: seq<CheckpointTuple>) {
    |tuples| == |keys| && forall j :: 0 <= j < |keys| ==> IsTupleOf(t, keys[j], tuples[j])
  }

  lemma TuplesOfMore(
    t: Tables, keys: seq<CheckpointKey>, tuples: seq<CheckpointTuple>, k: CheckpointKey, tuple: CheckpointTuple)
    requires TuplesOf(t, keys, tuples) && IsTupleOf(t, k, tuple)
    ensures TuplesOf(t, keys + [k], tuples + [tuple])
  {
  }

  lemma OrdersMore(order: seq<CheckpointKey>, keys: set<CheckpointKey>, k: CheckpointKey)
    requires Orders(order, keys) && k !in keys && forall x :: x in order ==> x.id.rank >= k.id.rank
    ensures Orders(order + [k], keys + {k})
  {
    var more := order + [k];
    forall i, j | 0 <= i < j < |more| ensures more[i] != more[j] && more[i].id.rank >= more[j].id.rank {
      assert more[i] == order[i] && order[i] in order;
    }
  }

  /** The keys whose metadata match, in order. */
  ghost function Filtered(t: Tables, keys: seq<CheckpointKey>, filter: map<string, Json>): seq<CheckpointKey> {
    if keys == [] then []
    else if Shown(t, keys[0], filter) then [keys[0]] + Filtered(t, keys[1..], filter)
    else Filtered(t, keys[1..], filter)
  }

  lemma {:induction false} FilteredAre(t: Tables, keys: seq<CheckpointKey>, filter: map<string, Json>, k: CheckpointKey)
    ensures k in Filtered(t, keys, filter) <==> k in keys && Shown(t, k, filter)
  {
    if keys != [] {
      FilteredAre(t, keys[1..], filter, k);
      assert keys == [keys[0]] + keys[1..];
    }
  }

  lemma {:induction false} FilteredDescend(t: Tables, keys: seq<CheckpointKey>, filter: map<string, Json>)
    requires forall i, j :: 0 <= i < j < |keys| ==> keys[i] != keys[j] && keys[i].id.rank >= keys[j].id.rank
    ensures var shown := Filtered(t, keys, filter);
            forall i, j :: 0 <= i < j < |shown| ==> shown[i] != shown[j] && shown[i].id.rank >= shown[j].id.rank
  {
    if keys != [] {
      var rest := Filtered(t, keys[1..], filter);
      FilteredDescend(t, keys[1..], filter);
      forall j | 0 <= j < |rest| ensures rest[j] != keys[0] && keys[0].id.rank >= rest[j].id.rank {
        FilteredAre(t, keys[1..], filter, rest[j]);
        var i :| 0 <= i < |keys[1..]| && keys[1..][i] == rest[j];
        assert keys[i + 1] == rest[j];
      }
    }
  }

  /** Filtering the ordered records orders the filtered records. */
  lemma FilteredOrders(t: Tables, order: seq<CheckpointKey>, keys: set<CheckpointKey>, filter: map<string, Json>)
    requires Orders(order, keys)
    ensures Orders(Filtered(t, order, filter), set k | k in keys && Shown(t, k, filter))
  {
    FilteredDescend(t, order, filter);
    forall k ensures k in Filtered(t, order, filter) <==> k in keys && Shown(t, k, filter) {
      FilteredAre(t, order, filter, k);
    }
  }

  /** The blob table once the channels outside `remaining` are merged. */
  ghost function Merged(
    blobs: map<BlobKey, Blob>, scope: Scope, values: map<Channel, Value>, newVersions: map<Channel, Version>,
    remaining: set<Channel>): map<BlobKey, Blob>
  {
    blobs + Delta(scope, values, newVersions - remaining)
  }

  lemma MergedOne(
    blobs: map<BlobKey, Blob>, scope: Scope, values: map<Channel, Value>, newVersions: map<Channel, Version>,
    remaining: set<Channel>, c: Channel)
    requires c in newVersions && c in remaining
    ensures Merged(blobs, scope, values, newVersions, remaining - {c})
         == Merged(blobs, scope, values, newVersions, remaining)
              [BlobKey(scope, c, newVersions[c]) := BlobFor(values, c)]
  {
    DeltaAdds(scope, values, newVersions, remaining, c);
    UpdateAfterMerge(
      blobs, Delta(scope, values, newVersions - remaining), BlobKey(scope, c, newVersions[c]), BlobFor(values, c));
  }

  lemma DeltaAdds(
    scope: Scope, values: map<Channel, Value>, newVersions: map<Channel, Version>, remaining: set<Channel>, c: Channel)
    requires c in newVersions && c in remaining
    ensures Delta(scope, values, newVersions - (remaining - {c}))
         == Delta(scope, values, newVersions - remaining)[BlobKey(scope, c, newVersions[c]) := BlobFor(values, c)]
  {
  }

  lemma UpdateAfterMerge<K, V>(a: map<K, V>, b: map<K, V>, k: K, v: V)
    ensures a + b[k := v] == (a + b)[k := v]
  {
  }

  lemma Regroup<T>(a: seq<T>, x: T, b: seq<T>)
    ensures a + ([x] + b) == (a + [x]) + b
  {
  }

  lemma {:induction false} HasNewest(keys: set<CheckpointKey>)
    requires keys != {}
    ensures exists m :: m in keys && forall x :: x in keys ==> x.id.rank <= m.id.rank
  {
    var ids := set k | k in keys :: k.id;
    var y :| y in keys;
    assert y.id in ids;
    HasGreatest(ids);
    var greatest :| greatest in ids && forall x :: x in ids ==> x.rank <= greatest.rank;
    var m :| m in keys && m.id == greatest;
    assert forall x :: x in keys ==> x.id in ids;
  }

  method NewestOf(keys: set<CheckpointKey>) returns (m: CheckpointKey)
    requires keys != {}
    ensures m in keys && forall x :: x in keys ==> x.id.rank <= m.id.rank
  {
    HasNewest(keys);
    m :| m in keys && forall x :: x in keys ==> x.id.rank <= m.id.rank;
  }

  lemma {:induction false} HasLeast(keys: set<WriteKey>, k: CheckpointKey)
    requires keys != {} && forall w :: w in keys ==> w.checkpoint == k
    ensures exists m :: m in keys && forall x :: x in keys ==> x == m || Precedes(m, x)
  {
    var y :| y in keys;
    if keys != {y} {
      assert keys - {y} != {} by {
        assert keys == (keys - {y}) + {y};
      }
      HasLeast(keys - {y}, k);
      var m :| m in keys - {y} && forall x :: x in keys - {y} ==> x == m || Precedes(m, x);
      assert forall x :: x in keys ==> x == y || x in keys - {y};
      var least := if Precedes(y, m) then y else m;
      assert least in keys && forall x :: x in keys ==> x == least || Precedes(least, x);
    }
  }

  method Least(keys: set<WriteKey>, ghost k: CheckpointKey) returns (least: WriteKey)
    requires keys != {} && forall w :: w in keys ==> w.checkpoint == k
    ensures least in keys && forall x :: x in keys ==> x == least || Precedes(least, x)
  {
    HasLeast(keys, k);
    least :| least in keys && forall x :: x in keys ==> x == least || Precedes(least, x);
  }

  method GreatestOf(ids: set<CheckpointId>) returns (m: CheckpointId)
    requires ids != {}
    ensures m in ids && forall x :: x in ids ==> x.rank <= m.rank
  {
    HasGreatest(ids);
    m :| m in ids && forall x :: x in ids ==> x.rank <= m.rank;
  }
}
