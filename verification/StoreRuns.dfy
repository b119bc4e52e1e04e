/** What holds of every run of the execution state store: any callers, any interleaving, any delays.

    A crashed worker is one whose completion never appears in the run, a retry is one more claim. */
module StoreRuns {
  import opened Prelude
  import opened ExecutionProtocol
  import opened ExecutionStore

  datatype Op = Claiming(at: int, q: ClaimRequest) | Completing(at: int, c: CompleteRequest)

  datatype Outcome = Claimed(claim: ExecutionClaim) | Settled(committed: bool)

  function Apply(s: Store, retention: Option<int>, op: Op): (Store, Outcome) {
    match op
    case Claiming(at, q) => var (t, claim) := ClaimStep(s, retention, q, at); (t, Claimed(claim))
    case Completing(at, c) => var (t, ok) := CompleteStep(s, retention, c, at); (t, Settled(ok))
  }

  /** A run: `states[k]` is the store before `ops[k]`, which answered `results[k]`. */
  datatype Run = Run(retention: Option<int>, ops: seq<Op>, states: seq<Store>, results: seq<Outcome>)
  {
    ghost predicate Step(k: nat)
      requires k < |ops| && |states| == |ops| + 1 && |results| == |ops|
    {
      (states[k + 1], results[k]) == Apply(states[k], retention, ops[k])
    }

    /** The store starts empty and every operation is one atomic step. */
    ghost predicate Atomic() {
      && |states| == |ops| + 1 && |results| == |ops|
      && states[0] == EMPTY
      && (forall k: nat {:trigger Step(k)} :: k < |ops| ==> Step(k))
      && (forall k: nat :: k < |ops| ==> (ops[k].Claiming? <==> results[k].Claimed?))
    }

    /** ... and the time stamps come in order. */
    ghost predicate Valid() {
      Atomic() && Timely()
    }

    ghost predicate Timely() {
      forall i: nat, j: nat :: i <= j < |ops| ==> ops[i].at <= ops[j].at
    }

    /** A stamp is read before the step it is for: a later step may carry an earlier one, by at most `slack`. */
    ghost predicate TimelyWithin(slack: nat) {
      forall i: nat, j: nat :: i <= j < |ops| ==> ops[i].at <= ops[j].at + slack
    }

    /** No operation after `i` and before `j` is stamped later than `until`. */
    ghost predicate StampedBy(i: nat, j: nat, until: int) {
      forall m: nat :: i < m < j && m < |ops| ==> ops[m].at <= until
    }

    ghost predicate Acquires(k: nat, id: ExecutionId) {
      && k < |ops| && k < |results|
      && ops[k].Claiming? && results[k].Claimed?
      && ops[k].q.id == id
      && results[k].claim.status == Acquired
    }

    ghost predicate Commits(k: nat, id: ExecutionId) {
      && k < |ops| && k < |results|
      && ops[k].Completing? && results[k].Settled?
      && ops[k].c.id == id
      && results[k].committed
    }

    /** The row of `id` before operation `k`, whether or not it is still visible. */
    function RowAt(k: nat, id: ExecutionId): Option<Row>
      requires k < |states|
    {
      if id in states[k].rows then Some(states[k].rows[id]) else None
    }

    function ExpiryAt(k: nat, id: ExecutionId): Option<int>
      requires k < |states|
    {
      if id in states[k].expiry then Some(states[k].expiry[id]) else None
    }

    /** A row granted or committed at `since` cannot have been dropped by `now`. */
    predicate Retained(since: int, now: int) {
      retention.Some? ==> now <= since + retention.value
    }

    /** The run followed by one more operation. */
    function Then(op: Op): Run
      requires states != []
    {
      var (s, r) := Apply(states[|states| - 1], retention, op);
      Run(retention, ops + [op], states + [s], results + [r])
    }
  }

  const FRESH := Run(None, [], [EMPTY], [])

  lemma ThenIsValid(run: Run, op: Op)
    requires run.Valid()
    requires run.ops == [] || run.ops[|run.ops| - 1].at <= op.at
    ensures run.Then(op).Valid()
  {
    var next := run.Then(op);
    forall k: nat | k < |next.ops|
      ensures next.Step(k)
    {
      if k < |run.ops| {
        assert run.Step(k);
      }
    }
  }

  // ----- The effect of one operation on one row -----

  /** The expiry written by an acquisition or commit of `id`. */
  function Renewed(run: Run, k: nat, id: ExecutionId): Option<int>
    requires k < |run.ops| && k < |run.states|
  {
    if run.retention.Some? then Some(run.ops[k].at + run.retention.value) else run.ExpiryAt(k, id)
  }

  lemma RowKept(run: Run, k: nat, id: ExecutionId)
    requires run.Atomic() && k < |run.ops|
    requires !run.Acquires(k, id) && !run.Commits(k, id)
    ensures run.RowAt(k + 1, id) == run.RowAt(k, id)
    ensures run.ExpiryAt(k + 1, id) == run.ExpiryAt(k, id)
  {
    assert run.Step(k);
  }

  lemma AcquisitionWrites(run: Run, k: nat, id: ExecutionId)
    requires run.Atomic() && run.Acquires(k, id)
    ensures var q, row, seen := run.ops[k].q, run.RowAt(k, id), Visible(run.states[k], id, run.ops[k].at);
            && run.RowAt(k + 1, id) ==
                 Some(Row(q.hash, Running, q.owner, run.ops[k].at + q.lease, run.results[k].claim.attempt))
            && run.ExpiryAt(k + 1, id) == Renewed(run, k, id)
            && (seen.None? ==> run.results[k].claim.attempt == 1)
            && (seen.Some? ==>
                  && seen == row
                  && row.value.hash == q.hash
                  && row.value.phase.Running?
                  && row.value.leaseUntil <= run.ops[k].at
                  && run.results[k].claim.attempt == row.value.attempt + 1)
  {
    assert run.Step(k);
  }

  lemma CommitWrites(run: Run, k: nat, id: ExecutionId)
    requires run.Atomic() && run.Commits(k, id)
    ensures var c, row := run.ops[k].c, run.RowAt(k, id);
            && row == Visible(run.states[k], id, run.ops[k].at)
            && MayComplete(row, c, run.ops[k].at)
            && run.RowAt(k + 1, id) == Some(row.value.(phase := Completed(c.response), leaseUntil := 0))
            && run.ExpiryAt(k + 1, id) == Renewed(run, k, id)
  {
    assert run.Step(k);
  }

  lemma {:induction false} NoExpiryWithoutRetention(run: Run, k: nat, id: ExecutionId)
    requires run.Atomic() && k <= |run.ops|
    requires run.retention.None?
    ensures run.ExpiryAt(k, id).None?
  {
    if k > 0 {
      NoExpiryWithoutRetention(run, k - 1, id);
      assert run.Step(k - 1);
    }
  }

  // ----- One response per execution id -----

  /** Once committed, the row holds that response for as long as it is retained. */
  lemma {:induction false} CommittedRowHolds(run: Run, i: nat, j: nat, id: ExecutionId)
    requires run.Atomic() && i < j <= |run.ops|
    requires run.Commits(i, id)
    requires run.retention.Some? ==> run.StampedBy(i, j, run.ops[i].at + run.retention.value)
    ensures var row, c := run.RowAt(j, id), run.ops[i].c;
            && row.Some? && row.value.phase == Completed(c.response)
            && row.value.hash == c.hash && row.value.attempt == c.attempt
    ensures run.ExpiryAt(j, id) == if run.retention.Some? then Some(run.ops[i].at + run.retention.value) else None
  {
    if j == i + 1 {
      CommitWrites(run, i, id);
      if run.retention.None? {
        NoExpiryWithoutRetention(run, i, id);
      }
    } else {
      CommittedRowHolds(run, i, j - 1, id);
      if run.Acquires(j - 1, id) {
        AcquisitionWrites(run, j - 1, id);
        assert false;
      } else if run.Commits(j - 1, id) {
        CommitWrites(run, j - 1, id);
        assert false;
      }
      RowKept(run, j - 1, id);
    }
  }

  /** While the committed row is retained, every later claim of the id is answered from it
      (or refused as bound to another request) and every later completion is refused. */
  lemma AnsweredFromCommit(run: Run, i: nat, j: nat, id: ExecutionId)
    requires run.Atomic() && i < j < |run.ops|
    requires run.Commits(i, id)
    requires run.retention.Some? ==> run.StampedBy(i, j + 1, run.ops[i].at + run.retention.value)
    ensures run.ops[j].Claiming? && run.ops[j].q.id == id ==>
              run.results[j].claim ==
                if run.ops[j].q.hash == run.ops[i].c.hash
                then ExecutionClaim(Cached, Some(run.ops[i].c.response), run.ops[i].c.attempt)
                else ExecutionClaim(Conflict, None, 0)
    ensures !run.Commits(j, id)
  {
    CommittedRowHolds(run, i, j, id);
    assert run.Step(j);
  }

  /** Two responses for one id can be committed only if the first was dropped in between:
      never in the memory store, and more than the retention apart otherwise, less what stamps are out of order. */
  lemma CommitsFarApartWithin(run: Run, slack: nat, i: nat, j: nat, id: ExecutionId)
    requires run.Atomic() && run.TimelyWithin(slack) && i < j
    requires run.Commits(i, id) && run.Commits(j, id)
    ensures run.retention.Some? && run.ops[j].at + slack > run.ops[i].at + run.retention.value
  {
    if run.retention.Some? ==> run.ops[j].at + slack <= run.ops[i].at + run.retention.value {
      AnsweredFromCommit(run, i, j, id);
    }
  }

  /** With stamps in order, more than the retention apart. */
  lemma CommitsFarApart(run: Run, i: nat, j: nat, id: ExecutionId)
    requires run.Valid() && i < j
    requires run.Commits(i, id) && run.Commits(j, id)
    ensures run.retention.Some? && run.ops[j].at > run.ops[i].at + run.retention.value
  {
    CommitsFarApartWithin(run, 0, i, j, id);
  }

  /** A completed row was put there by a commit, the last one of its id. */
  lemma {:induction false} CompletedRowWasCommitted(run: Run, j: nat, id: ExecutionId) returns (i: nat)
    requires run.Atomic() && j <= |run.ops|
    requires run.RowAt(j, id).Some? && run.RowAt(j, id).value.phase.Completed?
    ensures i < j && run.Commits(i, id)
    ensures run.RowAt(j, id).value.phase.response == run.ops[i].c.response
    ensures run.RowAt(j, id).value.hash == run.ops[i].c.hash
    ensures run.RowAt(j, id).value.attempt == run.ops[i].c.attempt
  {
    if run.Commits(j - 1, id) {
      CommitWrites(run, j - 1, id);
      i := j - 1;
    } else {
      if run.Acquires(j - 1, id) {
        AcquisitionWrites(run, j - 1, id);
        assert false;
      }
      RowKept(run, j - 1, id);
      i := CompletedRowWasCommitted(run, j - 1, id);
    }
  }

  /** A cached answer is a response committed earlier for that id and that very request. */
  lemma CachedWasCommitted(run: Run, j: nat) returns (i: nat)
    requires run.Atomic() && j < |run.ops|
    requires run.ops[j].Claiming? && run.results[j].claim.status == Cached
    ensures i < j && run.Commits(i, run.ops[j].q.id)
    ensures run.ops[i].c.hash == run.ops[j].q.hash
    ensures run.results[j].claim == ExecutionClaim(Cached, Some(run.ops[i].c.response), run.ops[i].c.attempt)
  {
    assert run.Step(j);
    i := CompletedRowWasCommitted(run, j, run.ops[j].q.id);
  }

  // ----- Leases and fencing -----

  /** How long an acquisition keeps the id: for its lease, or until its row may have been dropped. */
  function Held(retention: Option<int>, slack: nat, lease: int): int {
    if retention.Some? then Min(lease, retention.value + 1 - slack) else lease
  }

  /** As long as an acquisition keeps the id, the row is the granted one or its committed successor. */
  lemma {:induction false} LeaseHolds(run: Run, slack: nat, i: nat, j: nat, id: ExecutionId)
    requires run.Atomic() && run.TimelyWithin(slack) && i < j <= |run.ops|
    requires run.Acquires(i, id)
    requires run.StampedBy(i, j, run.ops[i].at + Held(run.retention, slack, run.ops[i].q.lease) - 1)
    ensures var row := run.RowAt(j, id);
            && row.Some?
            && (row.value.phase.Running? ==> row.value.leaseUntil == run.ops[i].at + run.ops[i].q.lease)
    ensures run.ExpiryAt(j, id).Some? ==>
              run.retention.Some? && run.ExpiryAt(j, id).value + slack >= run.ops[i].at + run.retention.value
  {
    if run.retention.None? {
      NoExpiryWithoutRetention(run, j, id);
      NoExpiryWithoutRetention(run, j - 1, id);
    }
    if j == i + 1 {
      AcquisitionWrites(run, i, id);
    } else {
      LeaseHolds(run, slack, i, j - 1, id);
      if run.Acquires(j - 1, id) {
        AcquisitionWrites(run, j - 1, id);
        assert false;
      } else if run.Commits(j - 1, id) {
        CommitWrites(run, j - 1, id);
      } else {
        RowKept(run, j - 1, id);
      }
    }
  }

  /** Two acquisitions of one id are as far apart as the first keeps it, less what stamps are out of order. */
  lemma AcquisitionsApart(run: Run, slack: nat, i: nat, j: nat, id: ExecutionId)
    requires run.Atomic() && run.TimelyWithin(slack) && i < j
    requires run.Acquires(i, id) && run.Acquires(j, id)
    ensures run.ops[j].at + slack >= run.ops[i].at + Held(run.retention, slack, run.ops[i].q.lease)
  {
    if run.ops[j].at + slack < run.ops[i].at + Held(run.retention, slack, run.ops[i].q.lease) {
      LeaseHolds(run, slack, i, j, id);
      AcquisitionWrites(run, j, id);
    }
  }

  /** So the leases granted for one id overlap at most by what stamps are out of order, evictions included, as long
      as the retention outlasts a lease by as much. */
  lemma LeasesDisjointWithin(run: Run, slack: nat, i: nat, j: nat, id: ExecutionId)
    requires run.Atomic() && run.TimelyWithin(slack) && i < j
    requires run.Acquires(i, id) && run.Acquires(j, id)
    requires run.retention.Some? ==> run.ops[i].q.lease + slack <= run.retention.value + 1
    ensures run.ops[j].at + slack >= run.ops[i].at + run.ops[i].q.lease
  {
    AcquisitionsApart(run, slack, i, j, id);
  }

  /** With stamps in order they never overlap. */
  lemma LeasesDisjoint(run: Run, i: nat, j: nat, id: ExecutionId)
    requires run.Valid() && i < j
    requires run.Acquires(i, id) && run.Acquires(j, id)
    requires run.retention.Some? ==> run.ops[i].q.lease <= run.retention.value + 1
    ensures run.ops[j].at >= run.ops[i].at + run.ops[i].q.lease
  {
    LeasesDisjointWithin(run, 0, i, j, id);
  }

  /** The last acquisition of `id` among the first `k` operations, or -1. */
  ghost function LastAcquisition(run: Run, k: nat, id: ExecutionId): (i: int)
    ensures -1 <= i < k
    ensures i >= 0 ==> run.Acquires(i, id)
    ensures forall m: nat :: i < m < k ==> !run.Acquires(m, id)
  {
    if k == 0 then -1
    else if run.Acquires(k - 1, id) then k - 1
    else LastAcquisition(run, k - 1, id)
  }

  /** The row always belongs to the last acquisition. */
  lemma {:induction false} RowIsLastAcquisition(run: Run, k: nat, id: ExecutionId)
    requires run.Atomic() && k <= |run.ops|
    ensures var i, row := LastAcquisition(run, k, id), run.RowAt(k, id);
            && (row.Some? <==> i >= 0)
            && (row.Some? ==>
                  && row.value.hash == run.ops[i].q.hash
                  && row.value.owner == run.ops[i].q.owner
                  && row.value.attempt == run.results[i].claim.attempt
                  && (row.value.phase.Running? ==> row.value.leaseUntil == run.ops[i].at + run.ops[i].q.lease))
  {
    if k > 0 {
      RowIsLastAcquisition(run, k - 1, id);
      if run.Acquires(k - 1, id) {
        AcquisitionWrites(run, k - 1, id);
      } else if run.Commits(k - 1, id) {
        CommitWrites(run, k - 1, id);
      } else {
        RowKept(run, k - 1, id);
      }
    }
  }

  /** Fencing: a completion is accepted only from the owner and attempt of the last acquisition,
      for its request, strictly before its lease ends. */
  lemma Fenced(run: Run, j: nat, id: ExecutionId)
    requires run.Atomic() && run.Commits(j, id)
    ensures var i := LastAcquisition(run, j, id);
            && i >= 0
            && run.ops[j].c.owner == run.ops[i].q.owner
            && run.ops[j].c.hash == run.ops[i].q.hash
            && run.ops[j].c.attempt == run.results[i].claim.attempt
            && run.ops[j].at < run.ops[i].at + run.ops[i].q.lease
  {
    RowIsLastAcquisition(run, j, id);
    CommitWrites(run, j, id);
  }

  ghost function CountAcquisitions(run: Run, k: nat, id: ExecutionId): nat {
    if k == 0 then 0 else CountAcquisitions(run, k - 1, id) + if run.Acquires(k - 1, id) then 1 else 0
  }

  lemma {:induction false} RowCountsAcquisitions(run: Run, k: nat, id: ExecutionId)
    requires run.Atomic() && k <= |run.ops|
    requires run.retention.None?
    ensures (if run.RowAt(k, id).Some? then run.RowAt(k, id).value.attempt else 0) == CountAcquisitions(run, k, id)
  {
    if k > 0 {
      RowCountsAcquisitions(run, k - 1, id);
      NoExpiryWithoutRetention(run, k - 1, id);
      if run.Acquires(k - 1, id) {
        AcquisitionWrites(run, k - 1, id);
      } else if run.Commits(k - 1, id) {
        CommitWrites(run, k - 1, id);
      } else {
        RowKept(run, k - 1, id);
      }
    }
  }

  /** In the memory store the attempts of an id are numbered 1, 2, 3, ... in order. */
  lemma AttemptsAreConsecutive(run: Run, j: nat, id: ExecutionId)
    requires run.Atomic() && run.Acquires(j, id)
    requires run.retention.None?
    ensures run.results[j].claim.attempt == CountAcquisitions(run, j, id) + 1
  {
    RowCountsAcquisitions(run, j + 1, id);
    AcquisitionWrites(run, j, id);
  }

  lemma {:induction false} CountGrows(run: Run, i: nat, j: nat, id: ExecutionId)
    requires i <= j
    ensures CountAcquisitions(run, i, id) <= CountAcquisitions(run, j, id)
  {
    if i < j {
      CountGrows(run, i, j - 1, id);
    }
  }

  lemma {:induction false} ExpirySinceAcquisition(run: Run, i: nat, j: nat, id: ExecutionId)
    requires run.Valid() && i < j <= |run.ops|
    requires run.retention.Some?
    requires run.Acquires(i, id)
    ensures run.ExpiryAt(j, id).Some? && run.ExpiryAt(j, id).value >= run.ops[i].at + run.retention.value
  {
    if run.Acquires(j - 1, id) {
      AcquisitionWrites(run, j - 1, id);
    } else if run.Commits(j - 1, id) {
      CommitWrites(run, j - 1, id);
    } else {
      ExpirySinceAcquisition(run, i, j - 1, id);
      RowKept(run, j - 1, id);
    }
  }

  /** While the row of an acquisition is retained, every later acquisition of the id has a greater attempt number. */
  lemma {:induction false} AttemptsRise(run: Run, i: nat, k: nat, id: ExecutionId)
    requires run.Atomic() && (run.retention.Some? ==> run.Timely()) && i < k <= |run.ops|
    requires run.Acquires(i, id)
    requires k == i + 1 || run.Retained(run.ops[i].at, run.ops[k - 1].at)
    ensures var row := run.RowAt(k, id);
            && row.Some?
            && row.value.attempt >= run.results[i].claim.attempt
            && (LastAcquisition(run, k, id) > i ==> row.value.attempt > run.results[i].claim.attempt)
  {
    if k == i + 1 {
      AcquisitionWrites(run, i, id);
    } else {
      AttemptsRise(run, i, k - 1, id);
      if run.Acquires(k - 1, id) {
        AcquisitionWrites(run, k - 1, id);
        if run.retention.Some? {
          ExpirySinceAcquisition(run, i, k - 1, id);
        } else {
          NoExpiryWithoutRetention(run, k - 1, id);
        }
      } else if run.Commits(k - 1, id) {
        CommitWrites(run, k - 1, id);
      } else {
        RowKept(run, k - 1, id);
      }
    }
  }

  /** A superseded attempt commits only after the row of its acquisition was dropped: never in the memory store,
      and more than the retention after it was granted otherwise. */
  lemma StaleCommitNeedsEviction(run: Run, i: nat, m: nat, j: nat, id: ExecutionId)
    requires run.Atomic() && (run.retention.Some? ==> run.Timely()) && i < m < j
    requires run.Acquires(i, id) && run.Acquires(m, id)
    requires run.Commits(j, id) && run.ops[j].c.attempt == run.results[i].claim.attempt
    ensures run.retention.Some? && run.ops[j].at > run.ops[i].at + run.retention.value
  {
    if run.Retained(run.ops[i].at, run.ops[j].at) {
      AttemptsRise(run, i, j, id);
      CommitWrites(run, j, id);
    }
  }

  /** A worker superseded by a later acquisition never commits in the memory store. */
  lemma SupersededNeverCommits(run: Run, i: nat, m: nat, j: nat, id: ExecutionId)
    requires run.Atomic() && i < m < j
    requires run.retention.None?
    requires run.Acquires(i, id) && run.Acquires(m, id)
    requires j < |run.ops| && run.ops[j].Completing? && run.ops[j].c.attempt == run.results[i].claim.attempt
    ensures !run.Commits(j, id)
  {
    if run.Commits(j, id) {
      StaleCommitNeedsEviction(run, i, m, j, id);
    }
  }

  /** With a retention, numbering goes on from the previous acquisition, or starts again at 1
      once that acquisition's row has been dropped. */
  lemma AttemptsRestartOnlyAfterEviction(run: Run, j: nat, id: ExecutionId)
    requires run.Valid() && run.Acquires(j, id)
    ensures var i, attempt := LastAcquisition(run, j, id), run.results[j].claim.attempt;
            if i < 0 then attempt == 1
            else
              || attempt == run.results[i].claim.attempt + 1
              || (attempt == 1 && run.retention.Some? && run.ops[j].at > run.ops[i].at + run.retention.value)
  {
    RowIsLastAcquisition(run, j, id);
    AcquisitionWrites(run, j, id);
    var i := LastAcquisition(run, j, id);
    if run.retention.None? {
      NoExpiryWithoutRetention(run, j, id);
    } else if i >= 0 {
      ExpirySinceAcquisition(run, i, j, id);
    }
  }

  // ----- Exactly when an operation succeeds, from what happened before it -----

  /** The last acquisition or commit of `id` among the first `k` operations, or -1. */
  ghost function LastWrite(run: Run, k: nat, id: ExecutionId): (i: int)
    ensures -1 <= i < k
    ensures i >= 0 ==> run.Acquires(i, id) || run.Commits(i, id)
    ensures forall m: nat :: i < m < k ==> !run.Acquires(m, id) && !run.Commits(m, id)
  {
    if k == 0 then -1
    else if run.Acquires(k - 1, id) || run.Commits(k - 1, id) then k - 1
    else LastWrite(run, k - 1, id)
  }

  /** The row of `id` can still be read at `now`. */
  ghost predicate StillThere(run: Run, k: nat, id: ExecutionId, now: int) {
    var w := LastWrite(run, k, id);
    0 <= w < |run.ops| && run.Retained(run.ops[w].at, now)
  }

  /** The row is running as long as its acquisition was the last write, and its retention counts from that write. */
  lemma {:induction false} RowFollowsLastWrite(run: Run, k: nat, id: ExecutionId)
    requires run.Atomic() && k <= |run.ops|
    ensures var w, row := LastWrite(run, k, id), run.RowAt(k, id);
            && (row.Some? <==> w >= 0)
            && (row.Some? ==> (row.value.phase.Running? <==> w == LastAcquisition(run, k, id)))
            && (row.Some? && run.retention.None? ==> run.ExpiryAt(k, id) == None)
            && (row.Some? && run.retention.Some? ==> run.ExpiryAt(k, id) == Some(run.ops[w].at + run.retention.value))
  {
    if k > 0 {
      RowFollowsLastWrite(run, k - 1, id);
      if run.retention.None? {
        NoExpiryWithoutRetention(run, k - 1, id);
      }
      if run.Acquires(k - 1, id) {
        AcquisitionWrites(run, k - 1, id);
      } else if run.Commits(k - 1, id) {
        CommitWrites(run, k - 1, id);
      } else {
        RowKept(run, k - 1, id);
      }
    }
  }

  lemma SeenWhileRetained(run: Run, k: nat, id: ExecutionId, now: int)
    requires run.Atomic() && k <= |run.ops|
    ensures Visible(run.states[k], id, now) == if StillThere(run, k, id, now) then run.RowAt(k, id) else None
  {
    RowFollowsLastWrite(run, k, id);
    if run.retention.None? {
      NoExpiryWithoutRetention(run, k, id);
    }
  }

  /** Fencing, exactly: a completion commits if and only if it carries the owner, request and attempt of the last
      acquisition, nothing has been committed since, that acquisition's lease is live and its row is retained. */
  lemma CommitsIff(run: Run, j: nat, id: ExecutionId)
    requires run.Atomic() && j < |run.ops| && run.ops[j].Completing? && run.ops[j].c.id == id
    ensures var i, c, now := LastAcquisition(run, j, id), run.ops[j].c, run.ops[j].at;
            run.Commits(j, id) <==>
              && i >= 0
              && LastWrite(run, j, id) == i
              && c.owner == run.ops[i].q.owner && c.hash == run.ops[i].q.hash
              && c.attempt == run.results[i].claim.attempt
              && now < run.ops[i].at + run.ops[i].q.lease
              && run.Retained(run.ops[i].at, now)
  {
    assert run.Step(j);
    SeenWhileRetained(run, j, id, run.ops[j].at);
    RowFollowsLastWrite(run, j, id);
    RowIsLastAcquisition(run, j, id);
  }

  /** The row of `q.id` that can still be read, if any, is this request's and waits for a completion. */
  ghost predicate Unanswered(run: Run, k: nat, q: ClaimRequest, now: int) {
    StillThere(run, k, q.id, now) ==>
      var i := LastAcquisition(run, k, q.id);
      0 <= i < |run.ops| && LastWrite(run, k, q.id) == i && run.ops[i].Claiming? && run.ops[i].q.hash == q.hash
  }

  predicate InForce(record: Option<Replay>, now: int) {
    record.Some? && now <= record.value.expiresAt
  }

  /** The last recorded use of `jti` among the first `k` operations. A claim that cannot be answered from the row
      records its assertion unless a use of it is in force. */
  ghost function RecordOf(run: Run, k: nat, jti: Jti): Option<Replay> {
    if k == 0 || k > |run.ops| then None
    else
      var before, op := RecordOf(run, k - 1, jti), run.ops[k - 1];
      if op.Claiming? && op.q.jti == jti && !InForce(before, op.at) && Unanswered(run, k - 1, op.q, op.at)
      then Some(Replay(op.at + op.q.ttl, op.q.id))
      else before
  }

  lemma UnansweredIff(run: Run, k: nat, q: ClaimRequest, now: int)
    requires run.Atomic() && k <= |run.ops|
    ensures var row := Visible(run.states[k], q.id, now);
            Unanswered(run, k, q, now) <==> (row.Some? ==> row.value.hash == q.hash && row.value.phase.Running?)
  {
    SeenWhileRetained(run, k, q.id, now);
    RowFollowsLastWrite(run, k, q.id);
    RowIsLastAcquisition(run, k, q.id);
  }

  /** What one operation does to the replay records. */
  lemma RecordStep(s: Store, retention: Option<int>, op: Op, jti: Jti)
    ensures var next := Apply(s, retention, op).0.replays;
            var live := if op.Claiming? then Unexpired(s.replays, op.at) else s.replays;
            if && op.Claiming? && op.q.jti == jti && jti !in live
               && var row := Visible(s, op.q.id, op.at);
                  row.Some? ==> row.value.hash == op.q.hash && row.value.phase.Running?
            then jti in next && next[jti] == Replay(op.at + op.q.ttl, op.q.id)
            else (jti in next <==> jti in live) && (jti in next ==> next[jti] == live[jti])
  {
  }

  lemma {:induction false} RecordIsKept(run: Run, k: nat, jti: Jti)
    requires run.Valid() && k <= |run.ops|
    ensures var record, replays := RecordOf(run, k, jti), run.states[k].replays;
            && (jti in replays ==> record == Some(replays[jti]))
            && (jti !in replays && record.Some? ==> k > 0 && record.value.expiresAt < run.ops[k - 1].at)
  {
    if k > 0 {
      RecordIsKept(run, k - 1, jti);
      assert run.Step(k - 1);
      RecordStep(run.states[k - 1], run.retention, run.ops[k - 1], jti);
      if run.ops[k - 1].Claiming? {
        UnansweredIff(run, k - 1, run.ops[k - 1].q, run.ops[k - 1].at);
      }
    }
  }

  lemma RecordInForce(run: Run, k: nat, jti: Jti, now: int)
    requires run.Valid() && k <= |run.ops| && (k > 0 ==> run.ops[k - 1].at <= now)
    ensures var record, live := RecordOf(run, k, jti), Unexpired(run.states[k].replays, now);
            && (jti in live <==> InForce(record, now))
            && (jti in live ==> record == Some(live[jti]))
  {
    RecordIsKept(run, k, jti);
  }

  /** A completed row holds the response committed last. */
  lemma {:induction false} CompletedRowIsLastCommit(run: Run, k: nat, id: ExecutionId)
    requires run.Atomic() && k <= |run.ops|
    requires run.RowAt(k, id).Some? && run.RowAt(k, id).value.phase.Completed?
    ensures var w := LastWrite(run, k, id);
            && w >= 0 && run.Commits(w, id)
            && run.RowAt(k, id).value.phase.response == run.ops[w].c.response
  {
    if run.Commits(k - 1, id) {
      CommitWrites(run, k - 1, id);
    } else {
      if run.Acquires(k - 1, id) {
        AcquisitionWrites(run, k - 1, id);
        assert false;
      }
      RowKept(run, k - 1, id);
      CompletedRowIsLastCommit(run, k - 1, id);
    }
  }

  /** The row of `q.id` can be read and is bound to another request. */
  ghost predicate BoundElsewhere(run: Run, k: nat, q: ClaimRequest, now: int) {
    && StillThere(run, k, q.id, now)
    && var i := LastAcquisition(run, k, q.id);
       0 <= i < |run.ops| && run.ops[i].Claiming? && run.ops[i].q.hash != q.hash
  }

  /** The row of `q.id` can be read, is this request's, and its last write committed a response. */
  ghost predicate AlreadyCommitted(run: Run, k: nat, q: ClaimRequest, now: int) {
    && StillThere(run, k, q.id, now) && !BoundElsewhere(run, k, q, now)
    && run.Commits(LastWrite(run, k, q.id), q.id)
  }

  /** The row of `q.id` can be read and is this request's, running; and either the assertion is in force for that very
      execution, or it is not in force at all and the lease is live. */
  ghost predicate Busy(run: Run, k: nat, q: ClaimRequest, now: int) {
    && StillThere(run, k, q.id, now) && Unanswered(run, k, q, now)
    && var record, i := RecordOf(run, k, q.jti), LastAcquisition(run, k, q.id);
       if InForce(record, now) then record.value.id == q.id
       else 0 <= i < |run.ops| && run.ops[i].Claiming? && now < run.ops[i].at + run.ops[i].q.lease
  }

  /** The assertion is in force, for another execution or for one whose row is gone. */
  ghost predicate UsedUp(run: Run, k: nat, q: ClaimRequest, now: int) {
    && Unanswered(run, k, q, now)
    && var record := RecordOf(run, k, q.jti);
       InForce(record, now) && (record.value.id != q.id || !StillThere(run, k, q.id, now))
  }

  /** Every answer of the store to a claim, exactly, from the acquisitions, commits and claims made before it. */
  lemma ClaimAnswersIff(run: Run, j: nat)
    requires run.Valid() && j < |run.ops| && run.ops[j].Claiming?
    ensures var q, now, claim := run.ops[j].q, run.ops[j].at, run.results[j].claim;
            && (claim.status == Conflict <==> BoundElsewhere(run, j, q, now))
            && (claim.status == Cached <==> AlreadyCommitted(run, j, q, now))
            && (claim.status == InProgress <==> Busy(run, j, q, now))
            && (claim.status == Replayed <==> UsedUp(run, j, q, now))
            && (claim.status == Cached ==> claim.response == Some(run.ops[LastWrite(run, j, q.id)].c.response))
            && (claim.status in {Cached, InProgress} ==>
                  var i := LastAcquisition(run, j, q.id); i >= 0 && claim.attempt == run.results[i].claim.attempt)
  {
    var q, now := run.ops[j].q, run.ops[j].at;
    assert run.Step(j);
    SeenWhileRetained(run, j, q.id, now);
    RowFollowsLastWrite(run, j, q.id);
    RowIsLastAcquisition(run, j, q.id);
    RecordInForce(run, j, q.jti, now);
    UnansweredIff(run, j, q, now);
    if StillThere(run, j, q.id, now) && run.RowAt(j, q.id).value.phase.Completed? {
      CompletedRowIsLastCommit(run, j, q.id);
    }
  }

  /** Exactly when a claim acquires: its assertion is not in force, and the execution is new, its row was dropped,
      or the same request is running under a lease that has ended. */
  lemma AcquiresIff(run: Run, j: nat, id: ExecutionId)
    requires run.Valid() && j < |run.ops| && run.ops[j].Claiming? && run.ops[j].q.id == id
    ensures var i, q, now := LastAcquisition(run, j, id), run.ops[j].q, run.ops[j].at;
            run.Acquires(j, id) <==>
              && !InForce(RecordOf(run, j, q.jti), now)
              && (StillThere(run, j, id, now) ==>
                    && LastWrite(run, j, id) == i
                    && run.ops[i].q.hash == q.hash
                    && run.ops[i].at + run.ops[i].q.lease <= now)
  {
    assert run.Step(j);
    SeenWhileRetained(run, j, id, run.ops[j].at);
    RowFollowsLastWrite(run, j, id);
    RowIsLastAcquisition(run, j, id);
    RecordInForce(run, j, run.ops[j].q.jti, run.ops[j].at);
  }

  // ----- Replayed assertions -----

  /** The replay record of an acquisition stays until it expires. */
  lemma {:induction false} ReplayRecordHolds(run: Run, i: nat, j: nat, id: ExecutionId)
    requires run.Atomic() && i < j <= |run.ops|
    requires run.Acquires(i, id)
    requires run.StampedBy(i, j, run.ops[i].at + run.ops[i].q.ttl)
    ensures var q := run.ops[i].q;
            q.jti in run.states[j].replays && run.states[j].replays[q.jti] == Replay(run.ops[i].at + q.ttl, id)
  {
    assert run.Step(j - 1);
    if j > i + 1 {
      ReplayRecordHolds(run, i, j - 1, id);
    }
  }

  /** Until the record made at an acquisition expires, less what stamps are out of order, no claim with that
      assertion id acquires again, whatever execution id it names. */
  lemma NoSecondAcquisitionWithin(run: Run, slack: nat, i: nat, j: nat, id: ExecutionId, id': ExecutionId)
    requires run.Atomic() && run.TimelyWithin(slack) && i < j
    requires run.Acquires(i, id) && run.Acquires(j, id')
    requires run.ops[i].q.jti == run.ops[j].q.jti
    ensures run.ops[j].at + slack > run.ops[i].at + run.ops[i].q.ttl
  {
    assert run.Step(j);
    if run.ops[j].at + slack <= run.ops[i].at + run.ops[i].q.ttl {
      ReplayRecordHolds(run, i, j, id);
    }
  }

  /** With stamps in order, until it expires. */
  lemma NoSecondAcquisition(run: Run, i: nat, j: nat, id: ExecutionId, id': ExecutionId)
    requires run.Valid() && i < j
    requires run.Acquires(i, id) && run.Acquires(j, id')
    requires run.ops[i].q.jti == run.ops[j].q.jti
    ensures run.ops[j].at > run.ops[i].at + run.ops[i].q.ttl
  {
    NoSecondAcquisitionWithin(run, 0, i, j, id, id');
  }

  /** Exactly when a retry of a granted request, with the same assertion, is granted again: no use of the assertion is
      in force, and the row was dropped, or it is the same request's, running under a lease that has ended. While the
      first grant is retained the row is there and is that request's. */
  lemma ReacquiresIff(run: Run, i: nat, j: nat, id: ExecutionId)
    requires run.Valid() && i < j < |run.ops| && run.Acquires(i, id)
    requires run.ops[j].Claiming? && run.ops[j].q.id == id
    requires run.ops[j].q.jti == run.ops[i].q.jti && run.ops[j].q.hash == run.ops[i].q.hash
    ensures var last, now := LastAcquisition(run, j, id), run.ops[j].at;
            run.Acquires(j, id) <==>
              && !InForce(RecordOf(run, j, run.ops[i].q.jti), now)
              && (StillThere(run, j, id, now) ==>
                    && LastWrite(run, j, id) == last
                    && run.ops[last].q.hash == run.ops[i].q.hash
                    && run.ops[last].at + run.ops[last].q.lease <= now)
    ensures run.Retained(run.ops[i].at, run.ops[j].at) ==>
              && StillThere(run, j, id, run.ops[j].at)
              && run.ops[LastAcquisition(run, j, id)].q.hash == run.ops[i].q.hash
  {
    AcquiresIff(run, j, id);
    assert LastAcquisition(run, j, id) >= i && LastWrite(run, j, id) >= i;
    if run.Retained(run.ops[i].at, run.ops[j].at) {
      HashStays(run, i, j, id);
      assert run.ops[i].at <= run.ops[LastWrite(run, j, id)].at;
    }
  }

  /** While the row is retained an id stays bound to one request. */
  lemma {:induction false} HashStays(run: Run, i: nat, k: nat, id: ExecutionId)
    requires run.Atomic() && (run.retention.Some? ==> run.Timely()) && i < k <= |run.ops| && run.Acquires(i, id)
    requires k == i + 1 || run.Retained(run.ops[i].at, run.ops[k - 1].at)
    ensures run.RowAt(k, id).Some? && run.RowAt(k, id).value.hash == run.ops[i].q.hash
    ensures run.ops[LastAcquisition(run, k, id)].q.hash == run.ops[i].q.hash
  {
    RowIsLastAcquisition(run, k, id);
    if k == i + 1 {
      AcquisitionWrites(run, i, id);
    } else {
      HashStays(run, i, k - 1, id);
      if run.Acquires(k - 1, id) {
        AcquisitionWrites(run, k - 1, id);
        if run.retention.Some? {
          ExpirySinceAcquisition(run, i, k - 1, id);
        } else {
          NoExpiryWithoutRetention(run, k - 1, id);
        }
      } else if run.Commits(k - 1, id) {
        CommitWrites(run, k - 1, id);
      } else {
        RowKept(run, k - 1, id);
      }
    }
  }
}
