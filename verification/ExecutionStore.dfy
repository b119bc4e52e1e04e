/** The shared execution state store: its specification, and the store that keeps it in dictionaries.

    The specification has one parameter, the retention. `None` is the memory store, whose rows stay
    forever. `Some(r)` is a store whose rows disappear once `r` time units have passed since they were
    last granted or committed. */
module ExecutionStore {
  import opened Prelude
  import opened ExecutionProtocol

  datatype ClaimStatus = Acquired | Cached | InProgress | Conflict | Replayed

  datatype ExecutionClaim = ExecutionClaim(status: ClaimStatus, response: Option<ExecutionResponse>, attempt: nat)

  datatype ClaimRequest = ClaimRequest(
    id: ExecutionId, hash: Hash, jti: Jti, ttl: int, owner: Owner, lease: int)

  datatype CompleteRequest = CompleteRequest(
    id: ExecutionId, hash: Hash, owner: Owner, attempt: nat, response: ExecutionResponse)

  datatype Phase = Running | Completed(response: ExecutionResponse)

  datatype Row = Row(hash: Hash, phase: Phase, owner: Owner, leaseUntil: int, attempt: nat)

  datatype Replay = Replay(expiresAt: int, id: ExecutionId)

  datatype Store = Store(replays: map<Jti, Replay>, rows: map<ExecutionId, Row>, expiry: map<ExecutionId, int>)

  const EMPTY := Store(map[], map[], map[])

  /** The row a caller sees at `now`: one whose retention has elapsed is gone. */
  function Visible(s: Store, id: ExecutionId, now: int): Option<Row> {
    if id in s.rows && (id in s.expiry ==> now <= s.expiry[id]) then Some(s.rows[id]) else None
  }

  function Unexpired(replays: map<Jti, Replay>, now: int): map<Jti, Replay> {
    map j | j in replays && replays[j].expiresAt >= now :: replays[j]
  }

  function Stamp(
    expiry: map<ExecutionId, int>, retention: Option<int>, id: ExecutionId, now: int): map<ExecutionId, int>
  {
    if retention.Some? then expiry[id := now + retention.value] else expiry
  }

  /** Write the running row of a new attempt. */
  function Grant(s: Store, retention: Option<int>, q: ClaimRequest, now: int, attempt: nat): Store {
    Store(s.replays,
          s.rows[q.id := Row(q.hash, Running, q.owner, now + q.lease, attempt)],
          Stamp(s.expiry, retention, q.id, now))
  }

  function ClaimStep(s: Store, retention: Option<int>, q: ClaimRequest, now: int): (Store, ExecutionClaim) {
    var live := s.(replays := Unexpired(s.replays, now));
    var row := Visible(s, q.id, now);
    if row.Some? && row.value.hash != q.hash then
      (live, ExecutionClaim(Conflict, None, 0))
    else if row.Some? && row.value.phase.Completed? then
      (live, ExecutionClaim(Cached, Some(row.value.phase.response), row.value.attempt))
    else if q.jti in live.replays then
      if live.replays[q.jti].id == q.id && row.Some? then
        (live, ExecutionClaim(InProgress, None, row.value.attempt))
      else
        (live, ExecutionClaim(Replayed, None, 0))
    else
      var recorded := live.(replays := live.replays[q.jti := Replay(now + q.ttl, q.id)]);
      if row.Some? && row.value.leaseUntil > now then
        (recorded, ExecutionClaim(InProgress, None, row.value.attempt))
      else
        var attempt := (if row.Some? then row.value.attempt else 0) + 1;
        (Grant(recorded, retention, q, now, attempt), ExecutionClaim(Acquired, None, attempt))
  }

  predicate MayComplete(row: Option<Row>, c: CompleteRequest, now: int) {
    && row.Some?
    && row.value.phase.Running?
    && row.value.hash == c.hash
    && row.value.owner == c.owner
    && row.value.attempt == c.attempt
    && row.value.leaseUntil > now
  }

  function CompleteStep(s: Store, retention: Option<int>, c: CompleteRequest, now: int): (Store, bool) {
    var row := Visible(s, c.id, now);
    if MayComplete(row, c, now) then
      (Store(s.replays,
             s.rows[c.id := row.value.(phase := Completed(c.response), leaseUntil := 0)],
             Stamp(s.expiry, retention, c.id, now)),
       true)
    else
      (s, false)
  }

  /** The in-process store: two dictionaries changed under a lock, so each call is one atomic step. */
  class MemoryExecutionStateStore {
    var replays: map<Jti, Replay>
    var executions: map<ExecutionId, Row>

    ghost function Contents(): Store
      reads this
    {
      Store(replays, executions, map[])
    }

    constructor ()
      ensures Contents() == EMPTY
    {
      replays := map[];
      executions := map[];
    }

    method Claim(q: ClaimRequest, now: int) returns (claim: ExecutionClaim)
      modifies this
      ensures (Contents(), claim) == ClaimStep(old(Contents()), None, q, now)
    {
      replays := map j | j in replays && replays[j].expiresAt >= now :: replays[j];
      var row := if q.id in executions then Some(executions[q.id]) else None;
      if row.Some? && row.value.hash != q.hash {
        return ExecutionClaim(Conflict, None, 0);
      }
      if row.Some? && row.value.phase.Completed? {
        return ExecutionClaim(Cached, Some(row.value.phase.response), row.value.attempt);
      }
      if q.jti in replays {
        if replays[q.jti].id == q.id && row.Some? && row.value.phase.Running? {
          return ExecutionClaim(InProgress, None, row.value.attempt);
        }
        return ExecutionClaim(Replayed, None, 0);
      }
      replays := replays[q.jti := Replay(now + q.ttl, q.id)];
      if row.Some? && row.value.leaseUntil > now {
        return ExecutionClaim(InProgress, None, row.value.attempt);
      }
      var attempt := (if row.Some? then row.value.attempt else 0) + 1;
      executions := executions[q.id := Row(q.hash, Running, q.owner, now + q.lease, attempt)];
      return ExecutionClaim(Acquired, None, attempt);
    }

    method Complete(c: CompleteRequest, now: int) returns (committed: bool)
      modifies this
      ensures (Contents(), committed) == CompleteStep(old(Contents()), None, c, now)
    {
      if c.id !in executions {
        return false;
      }
      var row := executions[c.id];
      if !row.phase.Running? || row.hash != c.hash || row.owner != c.owner
        || row.attempt != c.attempt || row.leaseUntil <= now {
        return false;
      }
      executions := executions[c.id := row.(phase := Completed(c.response), leaseUntil := 0)];
      return true;
    }
  }
}
