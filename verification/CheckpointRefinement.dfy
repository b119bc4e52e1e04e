/** The delta store agrees with a store of full snapshots, and retried pending writes converge. */
module CheckpointRefinement {
  import opened Prelude
  import opened CheckpointStore

  /** The simple store: every checkpoint as it was given. */
  type Snapshots = map<CheckpointKey, Snapshot>

  datatype Op =
    | Put(key: CheckpointKey, snapshot: Snapshot, newVersions: map<Channel, Version>)
    | PutWrites(attempts: seq<Attempt>)
    | DeleteThread(thread: string)

  function Apply(t: Tables, op: Op): Tables {
    match op
    case Put(k, s, newVersions) => PutStep(t, k, s, newVersions)
    case PutWrites(attempts) => t.(writes := RecordAll(t.writes, attempts))
    case DeleteThread(thread) => DeleteStep(t, thread)
  }

  function Remember(full: Snapshots, op: Op): Snapshots {
    match op
    case Put(k, s, _) => full[k := s]
    case PutWrites(_) => full
    case DeleteThread(thread) => map k | k in full && k.scope.thread != thread :: full[k]
  }

  function TablesAfter(ops: seq<Op>): Tables {
    if ops == [] then Tables(map[], map[], map[]) else Apply(TablesAfter(ops[..|ops| - 1]), ops[|ops| - 1])
  }

  function SnapshotsAfter(ops: seq<Op>): Snapshots {
    if ops == [] then map[] else Remember(SnapshotsAfter(ops[..|ops| - 1]), ops[|ops| - 1])
  }

  // ----- One put -----

  lemma LookupAfterPut(
    t: Tables, k: CheckpointKey, s: Snapshot, newVersions: map<Channel, Version>, scope: Scope, c: Channel, v: Version)
    ensures Lookup(PutStep(t, k, s, newVersions), scope, c, v) ==
              if scope == k.scope && c in newVersions && newVersions[c] == v
              then Get(s.values, c) else Lookup(t, scope, c, v)
  {
    var delta := Delta(k.scope, s.values, newVersions);
    assert BlobKey(scope, c, v) in delta <==> scope == k.scope && c in newVersions && newVersions[c] == v;
  }

  /** Every channel version of the snapshot is written now or carried over unchanged from earlier puts. */
  predicate Carried(t: Tables, scope: Scope, s: Snapshot, newVersions: map<Channel, Version>) {
    && (forall c :: c in s.values ==> c in s.versions)
    && (forall c :: c in s.versions ==>
          || (c in newVersions && newVersions[c] == s.versions[c])
          || Lookup(t, scope, c, s.versions[c]) == Get(s.values, c))
  }

  /** The versions of a stored checkpoint that a put writes again get the value they had. */
  predicate Unshared(
    t: Tables, k: CheckpointKey, s: Snapshot, newVersions: map<Channel, Version>, other: CheckpointKey)
    requires other in t.checkpoints
  {
    var versions := t.checkpoints[other].versions;
    other.scope == k.scope ==>
      forall c :: c in versions && c in newVersions && newVersions[c] == versions[c] ==>
        Get(s.values, c) == Lookup(t, other.scope, c, versions[c])
  }

  lemma RebuildLookups(t: Tables, scope: Scope, versions: map<Channel, Version>, values: map<Channel, Value>)
    ensures Rebuild(t, scope, versions) == values <==>
              && (forall c :: c in values ==> c in versions)
              && (forall c :: c in versions ==> Lookup(t, scope, c, versions[c]) == Get(values, c))
  {
    var rebuilt := Rebuild(t, scope, versions);
    if rebuilt == values {
      forall c | c in versions
        ensures Lookup(t, scope, c, versions[c]) == Get(values, c)
      {
        assert c in rebuilt <==> c in values;
      }
    }
    if (forall c :: c in values ==> c in versions)
      && (forall c :: c in versions ==> Lookup(t, scope, c, versions[c]) == Get(values, c)) {
      forall c
        ensures c in rebuilt <==> c in values
        ensures c in rebuilt ==> rebuilt[c] == values[c]
      {
        if c in versions {
          assert Lookup(t, scope, c, versions[c]) == Get(values, c);
        }
      }
      assert rebuilt == values;
    }
  }

  /** Exactly when a saved checkpoint comes back as it was given. */
  lemma RestoredIff(t: Tables, k: CheckpointKey, s: Snapshot, newVersions: map<Channel, Version>)
    ensures Restore(PutStep(t, k, s, newVersions), k) == s <==> Carried(t, k.scope, s, newVersions)
  {
    var after := PutStep(t, k, s, newVersions);
    RebuildLookups(after, k.scope, s.versions, s.values);
    forall c | c in s.versions
      ensures Lookup(after, k.scope, c, s.versions[c]) == Get(s.values, c) <==>
                || (c in newVersions && newVersions[c] == s.versions[c])
                || Lookup(t, k.scope, c, s.versions[c]) == Get(s.values, c)
    {
      LookupAfterPut(t, k, s, newVersions, k.scope, c, s.versions[c]);
    }
  }

  /** Exactly when a put leaves another stored checkpoint as it was. */
  lemma OthersKeptIff(
    t: Tables, k: CheckpointKey, s: Snapshot, newVersions: map<Channel, Version>, other: CheckpointKey)
    requires other in t.checkpoints && other != k
    ensures Restore(PutStep(t, k, s, newVersions), other) == Restore(t, other) <==>
            Unshared(t, k, s, newVersions, other)
  {
    var after := PutStep(t, k, s, newVersions);
    var versions := t.checkpoints[other].versions;
    RebuildLookups(after, other.scope, versions, Rebuild(t, other.scope, versions));
    forall c | c in versions
      ensures Get(Rebuild(t, other.scope, versions), c) == Lookup(t, other.scope, c, versions[c])
      ensures Lookup(after, other.scope, c, versions[c]) ==
                if other.scope == k.scope && c in newVersions && newVersions[c] == versions[c]
                then Get(s.values, c) else Lookup(t, other.scope, c, versions[c])
    {
      LookupAfterPut(t, k, s, newVersions, other.scope, c, versions[c]);
    }
  }

  // ----- Every run -----

  /** Each put carries its unchanged channels over and rebinds nothing. */
  ghost predicate Disciplined(ops: seq<Op>) {
    ops == [] ||
    var before, op := ops[..|ops| - 1], ops[|ops| - 1];
    && Disciplined(before)
    && (op.Put? ==>
          && Carried(TablesAfter(before), op.key.scope, op.snapshot, op.newVersions)
          && RebindsNothingStored(TablesAfter(before), op))
  }

  ghost predicate RebindsNothingStored(t: Tables, op: Op)
    requires op.Put?
  {
    forall other :: other in t.checkpoints && other != op.key ==>
      Unshared(t, op.key, op.snapshot, op.newVersions, other)
  }

  ghost predicate Faithful(t: Tables, full: Snapshots) {
    && (forall k :: k in full <==> k in t.checkpoints)
    && (forall k :: k in full ==> Restore(t, k) == full[k])
  }

  lemma DeleteKeepsOthers(t: Tables, thread: string, k: CheckpointKey)
    requires k in t.checkpoints && k.scope.thread != thread
    ensures k in DeleteStep(t, thread).checkpoints && Restore(DeleteStep(t, thread), k) == Restore(t, k)
  {
    var after, versions := DeleteStep(t, thread), t.checkpoints[k].versions;
    forall c | c in versions
      ensures Lookup(after, k.scope, c, versions[c]) == Lookup(t, k.scope, c, versions[c])
    {
      assert BlobKey(k.scope, c, versions[c]) in after.blobs <==> BlobKey(k.scope, c, versions[c]) in t.blobs;
    }
    assert Rebuild(after, k.scope, versions) == Rebuild(t, k.scope, versions);
  }

  lemma PutStaysFaithful(t: Tables, full: Snapshots, op: Op)
    requires Faithful(t, full) && op.Put?
    requires Carried(t, op.key.scope, op.snapshot, op.newVersions) && RebindsNothingStored(t, op)
    ensures Faithful(Apply(t, op), Remember(full, op))
  {
    RestoredIff(t, op.key, op.snapshot, op.newVersions);
    forall k | k in full && k != op.key
      ensures Restore(Apply(t, op), k) == full[k]
    {
      OthersKeptIff(t, op.key, op.snapshot, op.newVersions, k);
    }
  }

  lemma DeleteStaysFaithful(t: Tables, full: Snapshots, op: Op)
    requires Faithful(t, full) && op.DeleteThread?
    ensures Faithful(Apply(t, op), Remember(full, op))
  {
    forall k | k in Remember(full, op)
      ensures Restore(Apply(t, op), k) == full[k]
    {
      DeleteKeepsOthers(t, op.thread, k);
    }
  }

  /** After any disciplined run of puts, pending writes and deletions on any threads and namespaces, every
      checkpoint of the simple store is rebuilt exactly: channel values, versions, metadata and parent. */
  lemma {:induction false} DeltaStoreRefines(ops: seq<Op>)
    requires Disciplined(ops)
    ensures Faithful(TablesAfter(ops), SnapshotsAfter(ops))
    decreases |ops|
  {
    if ops != [] {
      var before, op := ops[..|ops| - 1], ops[|ops| - 1];
      DeltaStoreRefines(before);
      var t, full := TablesAfter(before), SnapshotsAfter(before);
      match op
      case Put(_, _, _) => PutStaysFaithful(t, full, op);
      case PutWrites(_) => assert forall k :: k in full ==> Restore(Apply(t, op), k) == Restore(t, k);
      case DeleteThread(_) => DeleteStaysFaithful(t, full, op);
    }
  }

  // ----- Versions bound once -----

  /** The put agrees with one value (or none) for every (channel, version), and has each version it keeps
      written, now or before, unless it stands for no value. */
  ghost predicate AgreesWith(bind: BlobKey -> Option<Value>, t: Tables, op: Op)
    requires op.Put?
  {
    var scope, s, newVersions := op.key.scope, op.snapshot, op.newVersions;
    && (forall c :: c in s.values ==> c in s.versions)
    && (forall c :: c in newVersions ==> Get(s.values, c) == bind(BlobKey(scope, c, newVersions[c])))
    && (forall c :: c in s.versions ==> Get(s.values, c) == bind(BlobKey(scope, c, s.versions[c])))
    && (forall c :: c in s.values ==>
          || (c in newVersions && newVersions[c] == s.versions[c])
          || BlobKey(scope, c, s.versions[c]) in t.blobs)
  }

  /** No (channel, version) is ever rebound. */
  ghost predicate NeverRebound(bind: BlobKey -> Option<Value>, ops: seq<Op>) {
    ops == [] ||
    var before, op := ops[..|ops| - 1], ops[|ops| - 1];
    NeverRebound(bind, before) && (op.Put? ==> AgreesWith(bind, TablesAfter(before), op))
  }

  ghost predicate Bound(bind: BlobKey -> Option<Value>, t: Tables) {
    && (forall key :: key in t.blobs ==>
          bind(key) == if t.blobs[key].Stored? then Some(t.blobs[key].value) else None)
    && (forall k, c :: k in t.checkpoints && c in t.checkpoints[k].versions ==>
          var version := t.checkpoints[k].versions[c];
          Lookup(t, k.scope, c, version) == bind(BlobKey(k.scope, c, version)))
  }

  lemma PutStaysBound(bind: BlobKey -> Option<Value>, t: Tables, op: Op)
    requires op.Put? && Bound(bind, t) && AgreesWith(bind, t, op)
    ensures Bound(bind, Apply(t, op))
    ensures Carried(t, op.key.scope, op.snapshot, op.newVersions) && RebindsNothingStored(t, op)
  {
    var after := Apply(t, op);
    forall k, c | k in after.checkpoints && c in after.checkpoints[k].versions
      ensures Lookup(after, k.scope, c, after.checkpoints[k].versions[c])
           == bind(BlobKey(k.scope, c, after.checkpoints[k].versions[c]))
    {
      LookupAfterPut(t, op.key, op.snapshot, op.newVersions, k.scope, c, after.checkpoints[k].versions[c]);
    }
  }

  lemma DeleteStaysBound(bind: BlobKey -> Option<Value>, t: Tables, thread: string)
    requires Bound(bind, t)
    ensures Bound(bind, DeleteStep(t, thread))
  {
    var after := DeleteStep(t, thread);
    forall k, c | k in after.checkpoints && c in after.checkpoints[k].versions
      ensures Lookup(after, k.scope, c, after.checkpoints[k].versions[c])
           == bind(BlobKey(k.scope, c, after.checkpoints[k].versions[c]))
    {
      var version := t.checkpoints[k].versions[c];
      assert Lookup(after, k.scope, c, version) == Lookup(t, k.scope, c, version);
    }
  }

  /** If no (channel, version) is ever rebound, the run is disciplined, so every checkpoint is rebuilt exactly. */
  lemma {:induction false} NeverReboundRefines(bind: BlobKey -> Option<Value>, ops: seq<Op>)
    requires NeverRebound(bind, ops)
    ensures Disciplined(ops) && Bound(bind, TablesAfter(ops))
    ensures Faithful(TablesAfter(ops), SnapshotsAfter(ops))
    decreases |ops|
  {
    if ops != [] {
      var before, op := ops[..|ops| - 1], ops[|ops| - 1];
      NeverReboundRefines(bind, before);
      match op
      case Put(_, _, _) => PutStaysBound(bind, TablesAfter(before), op);
      case PutWrites(_) =>
        var t := TablesAfter(before);
        assert forall k, c :: k in t.checkpoints && c in t.checkpoints[k].versions ==>
          Lookup(Apply(t, op), k.scope, c, t.checkpoints[k].versions[c])
          == Lookup(t, k.scope, c, t.checkpoints[k].versions[c]);
      case DeleteThread(thread) => DeleteStaysBound(bind, TablesAfter(before), thread);
    }
    DeltaStoreRefines(ops);
  }

  /** Deleting a thread leaves no row of it in any table, and every other thread's checkpoints and writes as
      they were. */
  lemma DeletedThreadIsGone(t: Tables, thread: string)
    ensures var after := DeleteStep(t, thread);
            && (forall k :: k in after.checkpoints ==> k.scope.thread != thread)
            && (forall k :: k in after.blobs ==> k.scope.thread != thread)
            && (forall w :: w in after.writes ==> w.checkpoint.scope.thread != thread)
            && (forall k :: k in t.checkpoints && k.scope.thread != thread ==>
                  k in after.checkpoints && Restore(after, k) == Restore(t, k))
            && (forall w :: w in t.writes && w.checkpoint.scope.thread != thread ==>
                  w in after.writes && after.writes[w] == t.writes[w])
  {
    forall k | k in t.checkpoints && k.scope.thread != thread
      ensures k in DeleteStep(t, thread).checkpoints && Restore(DeleteStep(t, thread), k) == Restore(t, k)
    {
      DeleteKeepsOthers(t, thread, k);
    }
  }

  // ----- Pending writes -----

  lemma {:induction false} LastAttempt(attempts: seq<Attempt>, key: WriteKey) returns (i: int)
    ensures -1 <= i < |attempts|
    ensures i >= 0 ==> attempts[i].key == key
    ensures forall j :: i < j < |attempts| ==> attempts[j].key != key
  {
    i := |attempts| - 1;
    while i >= 0 && attempts[i].key != key
      invariant -1 <= i < |attempts|
      invariant forall j :: i < j < |attempts| ==> attempts[j].key != key
    {
      i := i - 1;
    }
  }

  lemma {:induction false} AttemptedSlotIsFilled(writes: map<WriteKey, Write>, attempts: seq<Attempt>, i: nat)
    requires i < |attempts|
    ensures attempts[i].key in RecordAll(writes, attempts)
    decreases |attempts|
  {
    if i < |attempts| - 1 {
      AttemptedSlotIsFilled(writes, attempts[..|attempts| - 1], i);
    }
  }

  /** Repeating a batch right after itself changes nothing, special channels included. */
  lemma RepeatedBatchIsNoOp(writes: map<WriteKey, Write>, batch: seq<Attempt>)
    ensures RecordAll(RecordAll(writes, batch), batch) == RecordAll(writes, batch)
  {
    var once := RecordAll(writes, batch);
    var twice := RecordAll(once, batch);
    forall key: WriteKey
      ensures Get(twice, key) == Get(once, key)
    {
      var i := LastAttempt(batch, key);
      if i < 0 {
        OtherSlotsKept(once, batch, key);
      } else if key.index >= 0 {
        AttemptedSlotIsFilled(writes, batch, i);
        FilledSlotKept(once, batch, key);
      } else {
        SpecialSlotKeepsLast(writes, batch, i);
        SpecialSlotKeepsLast(once, batch, i);
      }
    }
    assert forall key :: key in twice <==> Get(twice, key).Some?;
    assert forall key :: key in once <==> Get(once, key).Some?;
    assert twice == once;
  }

  /** The pending writes of one task, in the order they are handed out. */
  function TaskPart(pending: seq<(int, Channel, Value)>, task: int): seq<(int, Channel, Value)> {
    if pending == [] then []
    else
      var last := pending[|pending| - 1];
      TaskPart(pending[..|pending| - 1], task) + if last.0 == task then [last] else []
  }

  function Tagged(task: int, batch: seq<(Channel, Value)>): seq<(int, Channel, Value)> {
    seq(|batch|, i requires 0 <= i < |batch| => (task, batch[i].0, batch[i].1))
  }

  /** The writes of `task` are those of the batch, each in the slot of its position. */
  ghost predicate HoldsBatch(t: Tables, k: CheckpointKey, task: int, batch: seq<(Channel, Value)>) {
    && (forall w :: w in t.writes && w.checkpoint == k && w.task == task ==> 0 <= w.index < |batch|)
    && (forall i :: 0 <= i < |batch| ==>
          && WriteKey(k, task, i) in t.writes
          && t.writes[WriteKey(k, task, i)].channel == batch[i].0
          && t.writes[WriteKey(k, task, i)].value == batch[i].1)
  }

  lemma BatchIsHeld(
    special: map<Channel, int>, before: Tables, after: Tables, k: CheckpointKey, task: int, path: string,
    batch: seq<(Channel, Value)>)
    requires FillsSlots(special, before.writes, after.writes, k, task, path, batch)
    requires forall i :: 0 <= i < |batch| ==> batch[i].0 !in special
    requires forall w :: w in before.writes ==> w.checkpoint != k || w.task != task
    ensures HoldsBatch(after, k, task, batch)
  {
    forall w | w in after.writes && w.checkpoint == k && w.task == task ensures 0 <= w.index < |batch| {
      assert NotFor(special, k, task, batch, w) ==> Get(after.writes, w) == Get(before.writes, w);
    }
    forall i: nat | i < |batch|
      ensures && WriteKey(k, task, i) in after.writes
              && after.writes[WriteKey(k, task, i)].channel == batch[i].0
              && after.writes[WriteKey(k, task, i)].value == batch[i].1
    {
      assert Get(after.writes, WriteKey(k, task, i)) == Some(Write(batch[i].0, batch[i].1, path));
    }
  }

  /** Of the first `m` keys, those of the task are the first `c` slots. */
  ghost predicate SlotsSoFar(k: CheckpointKey, task: int, order: seq<WriteKey>, m: nat, c: nat)
    requires m <= |order|
  {
    && (forall j :: 0 <= j < m && order[j].task == task ==> order[j].index < c)
    && (forall i :: 0 <= i < c ==> WriteKey(k, task, i) in order[..m])
  }

  lemma PlaceOf(order: seq<WriteKey>, w: WriteKey) returns (j: nat)
    requires w in order
    ensures j < |order| && order[j] == w
  {
    j :| j < |order| && order[j] == w;
  }

  lemma PlacesFollowIndices(t: Tables, k: CheckpointKey, order: seq<WriteKey>, m: nat, j: nat)
    requires OrdersWrites(t, k, order) && m < |order| && j < |order| && order[m].task == order[j].task
    ensures j < m <==> order[j].index < order[m].index
  {
    if j < m {
      assert Precedes(order[j], order[m]);
    } else if m < j {
      assert Precedes(order[m], order[j]);
    }
  }

  /** The next key of the task is the next slot. */
  lemma NextSlot(
    t: Tables, k: CheckpointKey, task: int, batch: seq<(Channel, Value)>, order: seq<WriteKey>, m: nat, c: nat)
    requires HoldsBatch(t, k, task, batch) && OrdersWrites(t, k, order)
    requires m < |order| && order[m].task == task && SlotsSoFar(k, task, order, m, c)
    ensures order[m] == WriteKey(k, task, c) && c < |batch|
    ensures SlotsSoFar(k, task, order, m + 1, c + 1)
  {
    assert order[m] in order && order[m] !in order[..m];
    assert order[m].index >= c;
    var j := PlaceOf(order, WriteKey(k, task, c));
    PlacesFollowIndices(t, k, order, m, j);
    assert order[..m + 1] == order[..m] + [order[m]];
  }

  lemma {:induction false} TaskPartSoFar(
    t: Tables, k: CheckpointKey, task: int, batch: seq<(Channel, Value)>, order: seq<WriteKey>, m: nat)
    returns (c: nat)
    requires HoldsBatch(t, k, task, batch) && OrdersWrites(t, k, order) && m <= |order|
    ensures c <= |batch| && SlotsSoFar(k, task, order, m, c)
    ensures TaskPart(PendingIn(t, order)[..m], task) == Tagged(task, batch)[..c]
  {
    if m == 0 {
      c := 0;
    } else {
      c := TaskPartSoFar(t, k, task, batch, order, m - 1);
      TaskPartStep(t, k, task, order, m - 1);
      if order[m - 1].task == task {
        NextSlot(t, k, task, batch, order, m - 1, c);
        assert PendingIn(t, order)[m - 1] == Tagged(task, batch)[c];
        c := c + 1;
      } else {
        OtherTask(k, task, order, m - 1, c);
      }
    }
  }

  lemma OtherTask(k: CheckpointKey, task: int, order: seq<WriteKey>, m: nat, c: nat)
    requires m < |order| && order[m].task != task && SlotsSoFar(k, task, order, m, c)
    ensures SlotsSoFar(k, task, order, m + 1, c)
  {
    assert order[..m + 1] == order[..m] + [order[m]];
  }

  lemma TaskPartStep(t: Tables, k: CheckpointKey, task: int, order: seq<WriteKey>, m: nat)
    requires OrdersWrites(t, k, order) && m < |order|
    ensures var pending := PendingIn(t, order);
            && pending[m].0 == order[m].task
            && TaskPart(pending[..m + 1], task) ==
               TaskPart(pending[..m], task) + if order[m].task == task then [pending[m]] else []
  {
    assert order[m] in order;
    assert PendingIn(t, order)[..m + 1][..m] == PendingIn(t, order)[..m];
  }

  /** Pending writes come by task, and within one by slot, the special ones first. */
  lemma PendingComesByTask(t: Tables, k: CheckpointKey, order: seq<WriteKey>, i: nat, j: nat)
    requires OrdersWrites(t, k, order) && i < j < |order|
    ensures PendingIn(t, order)[i].0 <= PendingIn(t, order)[j].0
    ensures order[i].task == order[j].task ==> order[i].index < order[j].index
  {
    assert Precedes(order[i], order[j]);
  }

  /** A first batch of regular channels comes back whole: the pending writes of its task are the batch, in order. */
  lemma PendingIsTheBatch(
    special: map<Channel, int>, before: Tables, after: Tables, k: CheckpointKey, task: int, path: string,
    batch: seq<(Channel, Value)>, order: seq<WriteKey>)
    requires FillsSlots(special, before.writes, after.writes, k, task, path, batch)
    requires forall i :: 0 <= i < |batch| ==> batch[i].0 !in special
    requires forall w :: w in before.writes ==> w.checkpoint != k || w.task != task
    requires OrdersWrites(after, k, order)
    ensures TaskPart(PendingIn(after, order), task) == Tagged(task, batch)
  {
    BatchIsHeld(special, before, after, k, task, path, batch);
    var c := TaskPartSoFar(after, k, task, batch, order, |order|);
    assert PendingIn(after, order)[..|order|] == PendingIn(after, order);
    assert c < |batch| ==> WriteKey(k, task, c) in order;
    assert Tagged(task, batch)[..|batch|] == Tagged(task, batch);
  }

  // ----- Listing and lookup -----

  /** The listing of one thread and namespace. */
  function InScope(scope: Scope): Search {
    Search(Some(scope.thread), Some(scope.ns), None, None)
  }

  /** A lookup without an id finds the checkpoint that every unfiltered listing of the scope puts first. */
  lemma LatestIsListedFirst(t: Tables, scope: Scope, limit: Option<int>, tuples: seq<CheckpointTuple>)
    requires IsListing(t, InScope(scope), map[], limit, tuples) && (limit.Some? ==> limit.value >= 1)
    ensures if Ids(t, scope) == {} then tuples == []
            else tuples != [] && IsTupleOf(t, CheckpointKey(scope, Greatest(Ids(t, scope))), tuples[0])
  {
    var keys := Selected(t, InScope(scope), map[]);
    assert forall k :: k in keys <==> k in t.checkpoints && k.scope == scope;
    var order: seq<CheckpointKey> :| Orders(order, keys) && TuplesOf(t, Limited(order, limit), tuples);
    if Ids(t, scope) != {} {
      GreatestComesFirst(order, keys, scope, Ids(t, scope));
    } else {
      assert forall k :: k in keys ==> k.id in Ids(t, scope);
      OrdersCount(order, keys);
    }
  }

  lemma GreatestComesFirst(order: seq<CheckpointKey>, keys: set<CheckpointKey>, scope: Scope, ids: set<CheckpointId>)
    requires Orders(order, keys) && ids != {}
    requires forall k :: k in keys <==> k.scope == scope && k.id in ids
    ensures order != [] && order[0] == CheckpointKey(scope, Greatest(ids))
  {
    var newest := CheckpointKey(scope, Greatest(ids));
    assert newest in keys && newest in order;
    var i :| 0 <= i < |order| && order[i] == newest;
    assert order[0] in order && order[0].id in ids;
  }

  /** A limited listing is a prefix of the unlimited one: no longer than the limit, newest first, nothing twice, and
      nothing it leaves out is newer than what it shows, or as new in the same scope. */
  lemma LimitedListing(order: seq<CheckpointKey>, keys: set<CheckpointKey>, limit: Option<int>)
    requires Orders(order, keys)
    ensures Limited(order, limit) <= order
    ensures |Limited(order, limit)| == if limit.Some? then Min(Max(0, limit.value), |keys|) else |keys|
    ensures forall x, y :: x in keys && x !in Limited(order, limit) && y in Limited(order, limit) ==>
      x.id.rank <= y.id.rank && (x.scope == y.scope ==> x.id.rank < y.id.rank)
  {
    var shown := Limited(order, limit);
    OrdersCount(order, keys);
    forall x, y | x in keys && x !in shown && y in shown
      ensures x.id.rank <= y.id.rank && (x.scope == y.scope ==> x.id.rank < y.id.rank)
    {
      assert x in order;
      var i :| 0 <= i < |order| && order[i] == x;
      var j :| 0 <= j < |shown| && shown[j] == y;
      assert order[j] == y;
    }
  }

  lemma {:induction false} OrdersCount(order: seq<CheckpointKey>, keys: set<CheckpointKey>)
    requires Orders(order, keys)
    ensures |order| == |keys|
    decreases |order|
  {
    if order == [] {
      assert keys == {};
    } else {
      var last, front := order[|order| - 1], order[..|order| - 1];
      assert order == front + [last] && last in order;
      forall k ensures k in front <==> k in keys - {last} {
        assert k in order <==> k in front || k == last;
      }
      OrdersCount(front, keys - {last});
    }
  }

  /** Within one thread and namespace a listing is strictly descending. */
  lemma ScopeListingDescends(t: Tables, q: Search, filter: map<string, Json>, order: seq<CheckpointKey>)
    requires q.thread.Some? && q.ns.Some? && Orders(order, Selected(t, q, filter))
    ensures forall i, j :: 0 <= i < j < |order| ==> order[i].id.rank > order[j].id.rank
  {
    forall i, j | 0 <= i < j < |order| ensures order[i].id.rank > order[j].id.rank {
      assert order[i] in order && order[j] in order;
      assert order[i].scope == order[j].scope == Scope(q.thread.value, q.ns.value);
    }
  }

  /** What a listing selects: the rows of its thread, namespace and id that are older than `before`, and whose metadata
      agree with the filter, where a missing entry counts as null. */
  lemma SelectedIff(t: Tables, q: Search, filter: map<string, Json>, k: CheckpointKey)
    ensures k in Selected(t, q, filter) <==>
              && k in t.checkpoints
              && q.thread in {None, Some(k.scope.thread)} && q.ns in {None, Some(k.scope.ns)}
              && q.id in {None, Some(k.id)}
              && (q.before.None? || k.id.rank < q.before.value.rank)
              && (forall key :: key in filter ==>
                    var metadata := t.checkpoints[k].metadata;
                    if key in metadata then filter[key] == metadata[key] else filter[key] == Null)
  {
  }

  /** The second page: what is older than the last checkpoint shown. */
  function After(scope: Scope, last: CheckpointId): Search {
    InScope(scope).(before := Some(last))
  }

  lemma OlderAreTheRest(
    t: Tables, scope: Scope, filter: map<string, Json>, order: seq<CheckpointKey>, older: seq<CheckpointKey>, n: nat)
    requires Orders(order, Selected(t, InScope(scope), filter)) && 0 < n <= |order|
    requires Orders(older, Selected(t, After(scope, order[n - 1].id), filter))
    ensures Orders(order[..n] + older, Selected(t, InScope(scope), filter))
  {
    var last, all := order[n - 1], order[..n] + older;
    assert last in order;
    forall k ensures k in all <==> k in Selected(t, InScope(scope), filter) {
      SelectedIff(t, InScope(scope), filter, k);
      SelectedIff(t, After(scope, last.id), filter, k);
      SplitAt(order, Selected(t, InScope(scope), filter), scope, n, k);
    }
    forall i, j | 0 <= i < j < |all| ensures all[i] != all[j] && all[i].id.rank >= all[j].id.rank {
      if i < n <= j {
        assert all[j] in older && all[i] == order[i];
        SelectedIff(t, After(scope, last.id), filter, all[j]);
        assert order[i].id.rank >= last.id.rank;
      }
    }
  }

  /** Within one scope the first `n` are those at least as new as the `n`-th. */
  lemma SplitAt(order: seq<CheckpointKey>, keys: set<CheckpointKey>, scope: Scope, n: nat, k: CheckpointKey)
    requires Orders(order, keys) && 0 < n <= |order| && forall x :: x in keys ==> x.scope == scope
    ensures k in order[..n] <==> k in keys && k.id.rank >= order[n - 1].id.rank
  {
    assert order[n - 1] in order;
    if k in keys && k.id.rank >= order[n - 1].id.rank {
      var i :| 0 <= i < |order| && order[i] == k;
      assert order[..n][n - 1] == order[n - 1];
      assert i < n ==> order[..n][i] == k;
    }
  }

  lemma LimitedOfBoth<T>(a: seq<T>, b: seq<T>, m: nat)
    ensures Limited(a + b, Some(|a| + m)) == a + Limited(b, Some(m))
  {
  }

  lemma TuplesOfBoth(
    t: Tables, a: seq<CheckpointKey>, b: seq<CheckpointKey>, first: seq<CheckpointTuple>, second: seq<CheckpointTuple>)
    requires TuplesOf(t, a, first) && TuplesOf(t, b, second)
    ensures TuplesOf(t, a + b, first + second)
  {
  }

  lemma LastShown(t: Tables, order: seq<CheckpointKey>, n: nat, first: seq<CheckpointTuple>)
    requires TuplesOf(t, Limited(order, Some(n)), first) && |first| == n > 0
    ensures n <= |order| && Limited(order, Some(n)) == order[..n] && first[n - 1].key == order[n - 1]
  {
    assert IsTupleOf(t, Limited(order, Some(n))[n - 1], first[n - 1]);
  }

  lemma PagesAreOne(
    t: Tables, scope: Scope, filter: map<string, Json>, order: seq<CheckpointKey>, older: seq<CheckpointKey>,
    n: nat, m: nat, first: seq<CheckpointTuple>, second: seq<CheckpointTuple>)
    requires n <= |order| && Orders(order[..n] + older, Selected(t, InScope(scope), filter))
    requires TuplesOf(t, order[..n], first) && TuplesOf(t, Limited(older, Some(m)), second)
    ensures IsListing(t, InScope(scope), filter, Some(n + m), first + second)
  {
    LimitedOfBoth(order[..n], older, m);
    TuplesOfBoth(t, order[..n], Limited(older, Some(m)), first, second);
  }

  /** Listing in pages misses nothing and repeats nothing: a full page of `n` followed by a page of `m` older than its
      last checkpoint is a listing of `n + m`. */
  lemma PagesConcatenate(
    t: Tables, scope: Scope, filter: map<string, Json>, n: nat, m: nat, first: seq<CheckpointTuple>,
    second: seq<CheckpointTuple>)
    requires IsListing(t, InScope(scope), filter, Some(n), first) && |first| == n > 0
    requires IsListing(t, After(scope, first[n - 1].key.id), filter, Some(m), second)
    ensures IsListing(t, InScope(scope), filter, Some(n + m), first + second)
  {
    var order: seq<CheckpointKey> :|
      Orders(order, Selected(t, InScope(scope), filter)) && TuplesOf(t, Limited(order, Some(n)), first);
    LastShown(t, order, n, first);
    var older: seq<CheckpointKey> :|
      && Orders(older, Selected(t, After(scope, order[n - 1].id), filter))
      && TuplesOf(t, Limited(older, Some(m)), second);
    OlderAreTheRest(t, scope, filter, order, older, n);
    PagesAreOne(t, scope, filter, order, older, n, m, first, second);
  }

  /** A listing by id is what a lookup by id finds. */
  lemma ListedById(t: Tables, scope: Scope, id: CheckpointId, tuples: seq<CheckpointTuple>)
    requires IsListing(t, InScope(scope).(id := Some(id)), map[], None, tuples)
    ensures if CheckpointKey(scope, id) in t.checkpoints
            then |tuples| == 1 && IsTupleOf(t, CheckpointKey(scope, id), tuples[0]) else tuples == []
  {
    var q, k := InScope(scope).(id := Some(id)), CheckpointKey(scope, id);
    var keys := if k in t.checkpoints then {k} else {};
    forall x ensures x in Selected(t, q, map[]) <==> x in keys {
      SelectedIff(t, q, map[], x);
    }
    assert Selected(t, q, map[]) == keys;
    var order: seq<CheckpointKey> :| Orders(order, keys) && TuplesOf(t, Limited(order, None), tuples);
    OrdersCount(order, keys);
    assert |order| == 1 ==> order[0] in order;
  }
}
