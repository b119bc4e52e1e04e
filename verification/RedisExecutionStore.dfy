/** The execution state store kept in Redis: two scripts over hash fields and expiring keys. */
module RedisExecutionStore {
  import opened Prelude
  import opened ExecutionProtocol
  import opened ExecutionStore
  import opened StoreRuns

  /** The hash of one execution; a field never set reads as nil. */
  datatype RedisHash = RedisHash(
    requestHash: Option<Hash>,
    state: Option<string>,
    owner: Option<Owner>,
    leaseUntil: Option<int>,
    attempt: Option<nat>,
    response: Option<ExecutionResponse>,
    expireAt: Option<int>)

  datatype RedisString = RedisString(value: ExecutionId, expireAt: int)

  type Hashes = map<ExecutionId, RedisHash>

  const NO_HASH := RedisHash(None, None, None, None, None, None, None)

  /** A key is expired once the clock has passed its expiry. */
  predicate Expired(expireAt: Option<int>, now: int) {
    expireAt.Some? && now > expireAt.value
  }

  /** The hash HGET, HSET, HINCRBY and EXPIRE work on: an empty one when the key is absent or expired. */
  function Live(hashes: Hashes, key: ExecutionId, now: int): RedisHash {
    if key in hashes && !Expired(hashes[key].expireAt, now) then hashes[key] else NO_HASH
  }

  /** Lua's `value or '0'` */
  function Or0(value: Option<int>): int {
    if value.Some? then value.value else 0
  }

  function NatOr0(value: Option<nat>): nat {
    if value.Some? then value.value else 0
  }

  // ----- The two scripts -----

  datatype Keys = Keys(strings: map<Jti, RedisString>, hashes: Hashes)

  /** What HINCRBY, HSET and EXPIRE leave of `h` when an attempt is granted. */
  function GrantFields(h: RedisHash, q: ClaimRequest, retention: int, now: int): RedisHash {
    h.(attempt := Some(NatOr0(h.attempt) + 1), requestHash := Some(q.hash), state := Some("running"),
       owner := Some(q.owner), leaseUntil := Some(now + q.lease), expireAt := Some(now + retention))
  }

  function ClaimScript(r: Keys, retention: int, q: ClaimRequest, now: int): (Keys, ExecutionClaim) {
    var h := Live(r.hashes, q.id, now);
    if h.requestHash.Some? && h.requestHash.value != q.hash then
      (r, ExecutionClaim(Conflict, None, 0))
    else if h.state == Some("completed") then
      (r, ExecutionClaim(Cached, h.response, NatOr0(h.attempt)))
    else if q.jti in r.strings && !Expired(Some(r.strings[q.jti].expireAt), now) then
      if r.strings[q.jti].value == q.id && h.state == Some("running") then
        (r, ExecutionClaim(InProgress, None, NatOr0(h.attempt)))
      else
        (r, ExecutionClaim(Replayed, None, 0))
    else
      var recorded := r.(strings := r.strings[q.jti := RedisString(q.id, now + Max(1, q.ttl))]);
      if h.state == Some("running") && Or0(h.leaseUntil) > now then
        (recorded, ExecutionClaim(InProgress, None, NatOr0(h.attempt)))
      else
        (recorded.(hashes := r.hashes[q.id := GrantFields(h, q, retention, now)]),
         ExecutionClaim(Acquired, None, NatOr0(h.attempt) + 1))
  }

  predicate CompleteAllowed(h: RedisHash, c: CompleteRequest, now: int) {
    && h.requestHash == Some(c.hash)
    && h.owner == Some(c.owner)
    && h.attempt == Some(c.attempt)
    && h.state == Some("running")
    && Or0(h.leaseUntil) > now
  }

  /** What HSET and EXPIRE leave of `h` when its result is committed. */
  function CommitFields(h: RedisHash, c: CompleteRequest, retention: int, now: int): RedisHash {
    h.(state := Some("completed"), response := Some(c.response), leaseUntil := Some(0),
       expireAt := Some(now + retention))
  }

  function CompleteScript(r: Keys, retention: int, c: CompleteRequest, now: int): (Keys, bool) {
    var h := Live(r.hashes, c.id, now);
    if CompleteAllowed(h, c, now) then
      (r.(hashes := r.hashes[c.id := CommitFields(h, c, retention, now)]), true)
    else
      (r, false)
  }

  class RedisExecutionStateStore {
    const retention: int
    var strings: map<Jti, RedisString>
    var hashes: Hashes

    ghost function Contents(): Keys
      reads this
    {
      Keys(strings, hashes)
    }

    constructor (retention: int)
      ensures Contents() == Keys(map[], map[]) && this.retention == retention
    {
      this.retention := retention;
      strings := map[];
      hashes := map[];
    }

    /** CLAIM_SCRIPT, command by command. */
    method Claim(q: ClaimRequest, now: int) returns (claim: ExecutionClaim)
      modifies this
      ensures (Contents(), claim) == ClaimScript(old(Contents()), retention, q, now)
    {
      var h := Live(hashes, q.id, now);
      if h.requestHash.Some? && h.requestHash.value != q.hash {
        return ExecutionClaim(Conflict, None, 0);
      }
      if h.state == Some("completed") {
        return ExecutionClaim(Cached, h.response, NatOr0(h.attempt));
      }
      if q.jti in strings && !Expired(Some(strings[q.jti].expireAt), now) {
        if strings[q.jti].value == q.id && h.state == Some("running") {
          return ExecutionClaim(InProgress, None, NatOr0(h.attempt));
        }
        return ExecutionClaim(Replayed, None, 0);
      }
      strings := strings[q.jti := RedisString(q.id, now + Max(1, q.ttl))];
      if h.state == Some("running") && Or0(h.leaseUntil) > now {
        return ExecutionClaim(InProgress, None, NatOr0(h.attempt));
      }
      var attempt := NatOr0(h.attempt) + 1;
      WriteGrant(q, now);
      return ExecutionClaim(Acquired, None, attempt);
    }

    method WriteGrant(q: ClaimRequest, now: int)
      modifies `hashes
      ensures hashes == old(hashes)[q.id := GrantFields(Live(old(hashes), q.id, now), q, retention, now)]
    {
      var h := Live(hashes, q.id, now);
      hashes := hashes[q.id := h.(attempt := Some(NatOr0(h.attempt) + 1))];
      h := hashes[q.id];
      hashes := hashes[q.id := h.(requestHash := Some(q.hash), state := Some("running"), owner := Some(q.owner),
                                  leaseUntil := Some(now + q.lease))];
      hashes := hashes[q.id := hashes[q.id].(expireAt := Some(now + retention))];
    }

    /** COMPLETE_SCRIPT, command by command. */
    method Complete(c: CompleteRequest, now: int) returns (committed: bool)
      modifies this
      ensures (Contents(), committed) == CompleteScript(old(Contents()), retention, c, now)
    {
      var h := Live(hashes, c.id, now);
      if h.requestHash != Some(c.hash) { return false; }
      if h.owner != Some(c.owner) { return false; }
      if h.attempt != Some(c.attempt) { return false; }
      if h.state != Some("running") { return false; }
      if Or0(h.leaseUntil) <= now { return false; }
      hashes := hashes[c.id := h.(state := Some("completed"), response := Some(c.response), leaseUntil := Some(0))];
      hashes := hashes[c.id := hashes[c.id].(expireAt := Some(now + retention))];
      assert hashes == old(hashes)[c.id := CommitFields(h, c, retention, now)];
      return true;
    }
  }

  // ----- The scripts refine the specification -----

  ghost predicate Encodes(h: RedisHash, row: Row, expiry: int) {
    && h.requestHash == Some(row.hash)
    && h.owner == Some(row.owner)
    && h.leaseUntil == Some(row.leaseUntil)
    && h.attempt == Some(row.attempt)
    && h.state == Some(if row.phase.Running? then "running" else "completed")
    && (row.phase.Completed? ==> h.response == Some(row.phase.response))
    && h.expireAt == Some(expiry)
  }

  ghost predicate HashesEncode(hashes: Hashes, rows: map<ExecutionId, Row>, expiry: map<ExecutionId, int>) {
    && (forall id :: id in rows ==> id in hashes)
    && (forall id :: id in hashes ==> id in rows && id in expiry && Encodes(hashes[id], rows[id], expiry[id]))
  }

  /** A record missing from the specification has expired by `clock`. */
  ghost predicate StringsEncode(strings: map<Jti, RedisString>, replays: map<Jti, Replay>, clock: int) {
    && (forall j :: j in replays ==> j in strings && strings[j] == RedisString(replays[j].id, replays[j].expiresAt))
    && (forall j :: j in strings && j !in replays ==> strings[j].expireAt < clock)
  }

  /** What the keys stand for: a store of the specification, seen at `clock`. */
  ghost predicate Refines(r: Keys, s: Store, clock: int) {
    HashesEncode(r.hashes, s.rows, s.expiry) && StringsEncode(r.strings, s.replays, clock)
  }

  lemma ReadsRow(hashes: Hashes, s: Store, id: ExecutionId, now: int)
    requires HashesEncode(hashes, s.rows, s.expiry)
    ensures var row, h := Visible(s, id, now), Live(hashes, id, now);
            (row.Some? ==> Encodes(h, row.value, s.expiry[id])) && (row.None? ==> h == NO_HASH)
  {
  }

  lemma RewrittenRow(hashes: Hashes, s: Store, id: ExecutionId, h: RedisHash, row: Row, expiry: int)
    requires HashesEncode(hashes, s.rows, s.expiry)
    requires Encodes(h, row, expiry)
    ensures HashesEncode(hashes[id := h], s.rows[id := row], s.expiry[id := expiry])
  {
  }

  lemma ReplayLookup(strings: map<Jti, RedisString>, s: Store, clock: int, jti: Jti, now: int)
    requires StringsEncode(strings, s.replays, clock) && clock <= now
    ensures (jti in strings && !Expired(Some(strings[jti].expireAt), now)) <==> jti in Unexpired(s.replays, now)
    ensures jti in Unexpired(s.replays, now) ==> strings[jti].value == s.replays[jti].id
  {
  }

  lemma PurgeKeepsStrings(strings: map<Jti, RedisString>, s: Store, clock: int, now: int)
    requires StringsEncode(strings, s.replays, clock) && clock <= now
    ensures StringsEncode(strings, Unexpired(s.replays, now), now)
  {
  }

  lemma ClaimAnswers(r: Keys, s: Store, clock: int, retention: int, q: ClaimRequest, now: int)
    requires Refines(r, s, clock) && clock <= now && q.ttl >= 1
    ensures ClaimScript(r, retention, q, now).1 == ClaimStep(s, Some(retention), q, now).1
  {
    ReadsRow(r.hashes, s, q.id, now);
    ReplayLookup(r.strings, s, clock, q.jti, now);
  }

  lemma ClaimKeepsStrings(r: Keys, s: Store, clock: int, retention: int, q: ClaimRequest, now: int)
    requires Refines(r, s, clock) && clock <= now && q.ttl >= 1
    ensures var keys, store := ClaimScript(r, retention, q, now).0, ClaimStep(s, Some(retention), q, now).0;
            StringsEncode(keys.strings, store.replays, now)
  {
    var live := Unexpired(s.replays, now);
    PurgeKeepsStrings(r.strings, s, clock, now);
    ClaimWritesReplays(s, Some(retention), q, now);
    ClaimScriptWritesStrings(r, retention, q, now);
    ClaimAnswers(r, s, clock, retention, q, now);
    ReplayLookup(r.strings, s, clock, q.jti, now);
    RecordKeepsStrings(r.strings, live, q, now);
  }

  lemma RecordKeepsStrings(strings: map<Jti, RedisString>, live: map<Jti, Replay>, q: ClaimRequest, now: int)
    requires StringsEncode(strings, live, now) && q.ttl >= 1
    ensures var until := now + q.ttl;
            StringsEncode(strings[q.jti := RedisString(q.id, until)], live[q.jti := Replay(until, q.id)], now)
  {
  }

  lemma ClaimScriptWritesStrings(r: Keys, retention: int, q: ClaimRequest, now: int)
    requires q.ttl >= 1
    ensures var (next, claim) := ClaimScript(r, retention, q, now);
            var replay := q.jti in r.strings && !Expired(Some(r.strings[q.jti].expireAt), now);
            var recorded := !replay && (claim.status == Acquired || claim.status == InProgress);
            next.strings == if recorded then r.strings[q.jti := RedisString(q.id, now + q.ttl)] else r.strings
  {
  }

  /** A claim records its assertion exactly when it was not refused, and keeps the unexpired records. */
  lemma ClaimWritesReplays(s: Store, retention: Option<int>, q: ClaimRequest, now: int)
    ensures var (next, claim) := ClaimStep(s, retention, q, now);
            var live := Unexpired(s.replays, now);
            var recorded := q.jti !in live && (claim.status == Acquired || claim.status == InProgress);
            next.replays == if recorded then live[q.jti := Replay(now + q.ttl, q.id)] else live
  {
  }

  lemma UngrantedKeepsRows(s: Store, retention: Option<int>, q: ClaimRequest, now: int)
    requires ClaimStep(s, retention, q, now).1.status != Acquired
    ensures ClaimStep(s, retention, q, now).0.rows == s.rows
    ensures ClaimStep(s, retention, q, now).0.expiry == s.expiry
  {
  }

  lemma GrantKeepsHashes(hashes: Hashes, s: Store, q: ClaimRequest, attempt: nat, retention: int, now: int)
    requires HashesEncode(hashes, s.rows, s.expiry)
    requires attempt == (if Visible(s, q.id, now).Some? then Visible(s, q.id, now).value.attempt else 0) + 1
    ensures var next := Grant(s, Some(retention), q, now, attempt);
            HashesEncode(
              hashes[q.id := GrantFields(Live(hashes, q.id, now), q, retention, now)], next.rows, next.expiry)
  {
    ReadsRow(hashes, s, q.id, now);
    var h := GrantFields(Live(hashes, q.id, now), q, retention, now);
    RewrittenRow(hashes, s, q.id, h, Row(q.hash, Running, q.owner, now + q.lease, attempt), now + retention);
  }

  lemma GrantedStep(s: Store, retention: Option<int>, q: ClaimRequest, now: int)
    requires ClaimStep(s, retention, q, now).1.status == Acquired
    ensures var (next, claim) := ClaimStep(s, retention, q, now);
            && claim.attempt == (if Visible(s, q.id, now).Some? then Visible(s, q.id, now).value.attempt else 0) + 1
            && next.rows == Grant(s, retention, q, now, claim.attempt).rows
            && next.expiry == Grant(s, retention, q, now, claim.attempt).expiry
  {
  }

  lemma ClaimScriptWritesHashes(r: Keys, retention: int, q: ClaimRequest, now: int)
    ensures var (next, claim) := ClaimScript(r, retention, q, now);
            next.hashes == if claim.status == Acquired
                           then r.hashes[q.id := GrantFields(Live(r.hashes, q.id, now), q, retention, now)]
                           else r.hashes
  {
  }

  lemma ClaimKeepsHashes(r: Keys, s: Store, clock: int, retention: int, q: ClaimRequest, now: int)
    requires Refines(r, s, clock) && clock <= now && q.ttl >= 1
    ensures var next := ClaimStep(s, Some(retention), q, now).0;
            HashesEncode(ClaimScript(r, retention, q, now).0.hashes, next.rows, next.expiry)
  {
    ClaimAnswers(r, s, clock, retention, q, now);
    ClaimScriptWritesHashes(r, retention, q, now);
    ClaimWritesRows(r.hashes, s, retention, q, now);
  }

  lemma ClaimWritesRows(hashes: Hashes, s: Store, retention: int, q: ClaimRequest, now: int)
    requires HashesEncode(hashes, s.rows, s.expiry)
    ensures var (next, claim) := ClaimStep(s, Some(retention), q, now);
            HashesEncode(if claim.status == Acquired
                         then hashes[q.id := GrantFields(Live(hashes, q.id, now), q, retention, now)] else hashes,
                         next.rows, next.expiry)
  {
    var claim := ClaimStep(s, Some(retention), q, now).1;
    if claim.status != Acquired {
      UngrantedKeepsRows(s, Some(retention), q, now);
    } else {
      GrantedStep(s, Some(retention), q, now);
      GrantKeepsHashes(hashes, s, q, claim.attempt, retention, now);
    }
  }

  /** CLAIM_SCRIPT answers as the specification with this retention does, and its writes keep the keys in step. */
  lemma ClaimScriptRefines(r: Keys, s: Store, clock: int, retention: int, q: ClaimRequest, now: int)
    requires Refines(r, s, clock) && clock <= now && q.ttl >= 1
    ensures ClaimScript(r, retention, q, now).1 == ClaimStep(s, Some(retention), q, now).1
    ensures Refines(ClaimScript(r, retention, q, now).0, ClaimStep(s, Some(retention), q, now).0, now)
  {
    ClaimAnswers(r, s, clock, retention, q, now);
    ClaimKeepsHashes(r, s, clock, retention, q, now);
    ClaimKeepsStrings(r, s, clock, retention, q, now);
  }

  /** So does COMPLETE_SCRIPT. */
  lemma CompleteScriptRefines(r: Keys, s: Store, clock: int, retention: int, c: CompleteRequest, now: int)
    requires Refines(r, s, clock) && clock <= now
    ensures CompleteScript(r, retention, c, now).1 == CompleteStep(s, Some(retention), c, now).1
    ensures Refines(CompleteScript(r, retention, c, now).0, CompleteStep(s, Some(retention), c, now).0, now)
  {
    ReadsRow(r.hashes, s, c.id, now);
    var h := Live(r.hashes, c.id, now);
    if CompleteAllowed(h, c, now) {
      var row := s.rows[c.id].(phase := Completed(c.response), leaseUntil := 0);
      RewrittenRow(r.hashes, s, c.id, CommitFields(h, c, retention, now), row, now + retention);
    }
  }

  // ----- Whole runs -----

  function ApplyScript(r: Keys, retention: int, op: Op): (Keys, Outcome) {
    match op
    case Claiming(at, q) => var (next, claim) := ClaimScript(r, retention, q, at); (next, Claimed(claim))
    case Completing(at, c) => var (next, ok) := CompleteScript(r, retention, c, at); (next, Settled(ok))
  }

  /** The keys after the first `k` calls. */
  function KeysAfter(retention: int, ops: seq<Op>, k: nat): Keys
    requires k <= |ops|
  {
    if k == 0 then Keys(map[], map[]) else ApplyScript(KeysAfter(retention, ops, k - 1), retention, ops[k - 1]).0
  }

  function ScriptAnswer(retention: int, ops: seq<Op>, k: nat): Outcome
    requires k < |ops|
  {
    ApplyScript(KeysAfter(retention, ops, k), retention, ops[k]).1
  }

  lemma ScriptRefines(r: Keys, s: Store, clock: int, retention: int, op: Op)
    requires Refines(r, s, clock) && clock <= op.at && (op.Claiming? ==> op.q.ttl >= 1)
    ensures var (next, outcome) := ApplyScript(r, retention, op);
            outcome == Apply(s, Some(retention), op).1 && Refines(next, Apply(s, Some(retention), op).0, op.at)
  {
    match op
    case Claiming(at, q) => ClaimScriptRefines(r, s, clock, retention, q, at);
    case Completing(at, c) => CompleteScriptRefines(r, s, clock, retention, c, at);
  }

  lemma OneMoreCall(run: Run, retention: int, k: nat)
    requires run.Valid() && run.retention == Some(retention) && k < |run.ops|
    requires run.ops[k].Claiming? ==> run.ops[k].q.ttl >= 1
    requires Refines(KeysAfter(retention, run.ops, k), run.states[k], run.ops[k].at)
    ensures Refines(KeysAfter(retention, run.ops, k + 1), run.states[k + 1], run.ops[k].at)
    ensures ScriptAnswer(retention, run.ops, k) == run.results[k]
  {
    assert run.Step(k);
    ScriptRefines(KeysAfter(retention, run.ops, k), run.states[k], run.ops[k].at, retention, run.ops[k]);
  }

  lemma SeenLater(r: Keys, s: Store, clock: int, later: int)
    requires Refines(r, s, clock) && clock <= later
    ensures Refines(r, s, later)
  {
  }

  lemma {:induction false} KeysRefine(run: Run, retention: int, k: nat, clock: int)
    requires run.Valid() && run.retention == Some(retention) && k <= |run.ops|
    requires forall i: nat :: i < |run.ops| && run.ops[i].Claiming? ==> run.ops[i].q.ttl >= 1
    requires k > 0 ==> run.ops[k - 1].at <= clock
    ensures Refines(KeysAfter(retention, run.ops, k), run.states[k], clock)
  {
    if k > 0 {
      KeysRefine(run, retention, k - 1, run.ops[k - 1].at);
      OneMoreCall(run, retention, k - 1);
      SeenLater(KeysAfter(retention, run.ops, k), run.states[k], run.ops[k - 1].at, clock);
    }
  }

  /** Any calls of the two scripts, on keys that start empty, are answered as in a run with that retention. */
  lemma ScriptsRefineRun(run: Run, retention: int, k: nat)
    requires run.Valid() && run.retention == Some(retention) && k < |run.ops|
    requires forall i: nat :: i < |run.ops| && run.ops[i].Claiming? ==> run.ops[i].q.ttl >= 1
    ensures ScriptAnswer(retention, run.ops, k) == run.results[k]
  {
    KeysRefine(run, retention, k, run.ops[k].at);
    OneMoreCall(run, retention, k);
  }

  /** So the scripts and the dictionaries give the same answers to the same calls, while no call finds its row
      dropped. */
  lemma RedisAgreesWithMemory(memory: Run, redis: Run, retention: int, k: nat)
    requires memory.Valid() && redis.Valid() && memory.ops == redis.ops && k < |redis.ops|
    requires memory.retention.None? && redis.retention == Some(retention)
    requires forall i: nat :: i < |redis.ops| && redis.ops[i].Claiming? ==> redis.ops[i].q.ttl >= 1
    requires forall i: nat :: i <= k ==> Addressed(redis.states[i], redis.ops[i])
    ensures ScriptAnswer(retention, redis.ops, k) == memory.results[k]
  {
    ScriptsRefineRun(redis, retention, k);
    StoresAgree(memory, redis, k + 1);
  }

  // ----- Agreement with the memory store -----

  /** The row an operation names has not been dropped. */
  predicate Addressed(s: Store, op: Op) {
    var id := if op.Claiming? then op.q.id else op.c.id;
    id in s.rows ==> Visible(s, id, op.at).Some?
  }

  /** As long as every operation finds its row retained, a store with a retention and the memory store
      give the same answers and hold the same rows and replay records. */
  lemma {:induction false} StoresAgree(memory: Run, redis: Run, k: nat)
    requires memory.Valid() && redis.Valid()
    requires memory.retention.None? && redis.retention.Some?
    requires memory.ops == redis.ops && k <= |redis.ops|
    requires forall i: nat :: i < k ==> Addressed(redis.states[i], redis.ops[i])
    ensures memory.states[k].rows == redis.states[k].rows
    ensures memory.states[k].replays == redis.states[k].replays
    ensures memory.states[k].expiry == map[]
    ensures forall i: nat :: i < k ==> memory.results[i] == redis.results[i]
  {
    if k > 0 {
      StoresAgree(memory, redis, k - 1);
      assert Addressed(redis.states[k - 1], redis.ops[k - 1]);
      StepsAgree(memory.states[k - 1], redis.states[k - 1], redis.retention.value, redis.ops[k - 1]);
      assert memory.Step(k - 1);
      assert redis.Step(k - 1);
    }
  }

  lemma StepsAgree(memory: Store, redis: Store, retention: int, op: Op)
    requires memory.rows == redis.rows && memory.replays == redis.replays && memory.expiry == map[]
    requires Addressed(redis, op)
    ensures var m, r := Apply(memory, None, op), Apply(redis, Some(retention), op);
            m.1 == r.1 && m.0.rows == r.0.rows && m.0.replays == r.0.replays && m.0.expiry == map[]
  {
    match op
    case Claiming(at, q) => ClaimStepsAgree(memory, redis, retention, q, at);
    case Completing(at, c) => assert Visible(memory, c.id, at) == Visible(redis, c.id, at);
  }

  lemma ClaimStepsAgree(memory: Store, redis: Store, retention: int, q: ClaimRequest, at: int)
    requires memory.rows == redis.rows && memory.replays == redis.replays && memory.expiry == map[]
    requires Visible(memory, q.id, at) == Visible(redis, q.id, at)
    ensures var m, r := ClaimStep(memory, None, q, at), ClaimStep(redis, Some(retention), q, at);
            m.1 == r.1 && m.0.rows == r.0.rows && m.0.replays == r.0.replays && m.0.expiry == map[]
  {
    assert Unexpired(memory.replays, at) == Unexpired(redis.replays, at);
  }

  /** Exactly when one claim gets the same answer from both stores: its row is retained, or the claim
      is refused for its assertion without looking at the row. */
  lemma ClaimsAgreeIff(memory: Store, redis: Store, retention: int, q: ClaimRequest, now: int)
    requires memory.rows == redis.rows && memory.replays == redis.replays && memory.expiry == map[]
    requires q.id in memory.rows ==> memory.rows[q.id].attempt >= 1
    ensures ClaimStep(memory, None, q, now).1 == ClaimStep(redis, Some(retention), q, now).1 <==>
              || Addressed(redis, Claiming(now, q))
              || (&& memory.rows[q.id].hash == q.hash
                  && memory.rows[q.id].phase.Running?
                  && q.jti in Unexpired(memory.replays, now)
                  && memory.replays[q.jti].id != q.id)
  {
  }

  /** A dropped row lets a stale worker's completion through, whatever the retention: its owner acquires the id
      again, is numbered 1 again, and the first worker's ticket now names the second attempt. */
  lemma StaleTicketAfterEviction(q: ClaimRequest, later: Jti, response: ExecutionResponse, retention: nat)
    requires q.lease >= 1 && later != q.jti
    ensures var ops := [Claiming(0, q), Claiming(retention + 1, q.(jti := later)),
                        Completing(retention + 1, CompleteRequest(q.id, q.hash, q.owner, 1, response))];
            exists run: Run :: run.Valid() && run.retention == Some(retention) && run.ops == ops
                     && run.Acquires(0, q.id) && run.Acquires(1, q.id)
                     && run.results[0].claim.attempt == 1 == run.results[1].claim.attempt
                     && run.Commits(2, q.id)
  {
    var again, at := q.(jti := later), retention + 1;
    var c := CompleteRequest(q.id, q.hash, q.owner, 1, response);
    var state1 := Grant(EMPTY.(replays := map[q.jti := Replay(q.ttl, q.id)]), Some(retention), q, 0, 1);
    var recorded := state1.(replays := Unexpired(state1.replays, at)[later := Replay(at + q.ttl, q.id)]);
    var state2 := Grant(recorded, Some(retention), again, at, 1);
    var state3 := CompleteStep(state2, Some(retention), c, at).0;
    var granted := Claimed(ExecutionClaim(Acquired, None, 1));
    var run := Run(Some(retention), [Claiming(0, q), Claiming(at, again), Completing(at, c)],
                   [EMPTY, state1, state2, state3], [granted, granted, Settled(true)]);
    FirstClaim(q, retention);
    ClaimAfterEviction(state1, q, again, retention, at);
    assert run.Step(0) && run.Step(1) && run.Step(2);
    assert run.Acquires(0, q.id) && run.Acquires(1, q.id) && run.Commits(2, q.id);
  }

  lemma FirstClaim(q: ClaimRequest, retention: nat)
    ensures var state1 := Grant(EMPTY.(replays := map[q.jti := Replay(q.ttl, q.id)]), Some(retention), q, 0, 1);
            ClaimStep(EMPTY, Some(retention), q, 0) == (state1, ExecutionClaim(Acquired, None, 1))
  {
    assert Unexpired(EMPTY.replays, 0) == map[];
    assert map[][q.jti := Replay(q.ttl, q.id)] == map[q.jti := Replay(q.ttl, q.id)];
  }

  lemma ClaimAfterEviction(s: Store, q: ClaimRequest, again: ClaimRequest, retention: nat, at: int)
    requires again.id == q.id && again.jti !in s.replays && Visible(s, q.id, at).None?
    ensures var recorded := s.(replays := Unexpired(s.replays, at)[again.jti := Replay(at + again.ttl, q.id)]);
            var granted := (Grant(recorded, Some(retention), again, at, 1), ExecutionClaim(Acquired, None, 1));
            ClaimStep(s, Some(retention), again, at) == granted
  {
  }
}
