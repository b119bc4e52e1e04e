/** The execution plane: what one instance does with a request, and every interleaving of
    any number of instances, clients, crashes and retries over one shared store. */
module ExecutionPlane {
  import opened Prelude
  import opened ExecutionProtocol
  import opened ExecutionStore
  import opened StoreRuns

  const CLOCK_SKEW_SECONDS := 5

  datatype Settings = Settings(grace: int, retention: int, allowedImages: set<string>, allowedCommands: set<string>)
  {
    /** What start-up validation demands of the retention. */
    predicate Validated() {
      retention >= MAX_TIMEOUT_SECONDS + grace
    }
  }

  datatype Assertion = Assertion(jti: Jti, issuedAt: int, exp: int, hash: Hash, subject: string)

  /** A correctly signed and scoped assertion is accepted for the request it is bound to, within the clock skew. */
  predicate Accepts(a: Assertion, hash: Hash, now: int) {
    && a.issuedAt <= now + CLOCK_SKEW_SECONDS
    && a.exp >= now - CLOCK_SKEW_SECONDS
    && a.hash == hash
  }

  predicate Allowlisted(settings: Settings, request: ExecutionRequest) {
    request.image in settings.allowedImages && request.command in settings.allowedCommands
  }

  function LeaseSeconds(settings: Settings, request: ExecutionRequest): int {
    request.timeoutSeconds + Max(10, settings.grace)
  }

  function ClaimFor(
    settings: Settings, instance: Owner, request: ExecutionRequest, a: Assertion, current: int): ClaimRequest
  {
    ClaimRequest(
      request.executionId, Sha256(request), a.jti, Max(1, a.exp - current), instance,
      LeaseSeconds(settings, request))
  }

  datatype Reply = Ok(response: ExecutionResponse, replayed: bool) | Error(status: int, retryAfter: bool)

  datatype Admission = Answered(reply: Reply) | Granted(attempt: nat)

  function Admitted(claim: ExecutionClaim): Admission {
    match claim.status
    case Cached => if claim.response.Some? then Answered(Ok(claim.response.value, true)) else Granted(claim.attempt)
    case InProgress => Answered(Error(409, true))
    case Conflict => Answered(Error(409, false))
    case Replayed => Answered(Error(401, false))
    case Acquired => Granted(claim.attempt)
  }

  /** What a request that is let in is due, from the store it finds: a request to wait when its execution is running,
      under this very assertion or a live lease; a refusal when the id is bound to another request, or its assertion is
      used up; the response once there is one; and otherwise the execution itself. */
  ghost predicate Due(s: Store, q: ClaimRequest, now: int, admission: Admission) {
    var row := Visible(s, q.id, now);
    var inForce := q.jti in s.replays && now <= s.replays[q.jti].expiresAt;
    var own := row.Some? && row.value.hash == q.hash;
    var running := own && row.value.phase == Running;
    && (admission == Answered(Error(409, true)) <==>
          running && if inForce then s.replays[q.jti].id == q.id else now < row.value.leaseUntil)
    && (admission == Answered(Error(409, false)) <==> row.Some? && !own)
    && (admission == Answered(Error(401, false)) <==>
          (row.None? || running) && inForce && (row.None? || s.replays[q.jti].id != q.id))
    && (forall response ::
          admission == Answered(Ok(response, true)) <==> own && row.value.phase == Completed(response))
    && (admission == Granted((if row.Some? then row.value.attempt else 0) + 1) <==>
          (row.None? || (running && row.value.leaseUntil <= now)) && !inForce)
  }

  /** One of the five is what every such request gets. */
  lemma AdmittedIsDue(s: Store, retention: Option<int>, q: ClaimRequest, now: int)
    ensures Due(s, q, now, Admitted(ClaimStep(s, retention, q, now).1))
  {
  }

  class ExecutionPlane {
    const settings: Settings
    const instance: Owner
    const store: MemoryExecutionStateStore

    constructor (settings: Settings, instance: Owner, store: MemoryExecutionStateStore)
      ensures this.settings == settings && this.instance == instance && this.store == store
    {
      this.settings := settings;
      this.instance := instance;
      this.store := store;
    }

    /** The handler up to the point where it either answers or starts the backend run.
        The clock is read when the assertion is verified, for its time to live, and by the store before its step. */
    method Admit(request: ExecutionRequest, a: Assertion, verifiedAt: int, current: int, now: int)
      returns (admission: Admission)
      modifies store
      ensures !Accepts(a, Sha256(request), verifiedAt) ==>
                admission == Answered(Error(401, false)) && store.Contents() == old(store.Contents())
      ensures && Accepts(a, Sha256(request), verifiedAt)
              && (request.image !in settings.allowedImages || request.command !in settings.allowedCommands) ==>
                admission == Answered(Error(403, false)) && store.Contents() == old(store.Contents())
      ensures && Accepts(a, Sha256(request), verifiedAt)
              && request.image in settings.allowedImages && request.command in settings.allowedCommands ==>
                var q := ClaimFor(settings, instance, request, a, current);
                var (next, claim) := ClaimStep(old(store.Contents()), None, q, now);
                && store.Contents() == next && admission == Admitted(claim)
                && Due(old(store.Contents()), q, now, admission)
    {
      AdmittedIsDue(store.Contents(), None, ClaimFor(settings, instance, request, a, current), now);
      if !Accepts(a, Sha256(request), verifiedAt) {
        return Answered(Error(401, false));
      }
      if !Allowlisted(settings, request) {
        return Answered(Error(403, false));
      }
      var claim := store.Claim(ClaimFor(settings, instance, request, a, current), now);
      if claim.status == Cached && claim.response.Some? {
        return Answered(Ok(claim.response.value, true));
      }
      if claim.status == InProgress {
        return Answered(Error(409, true));
      }
      if claim.status == Conflict {
        return Answered(Error(409, false));
      }
      if claim.status == Replayed {
        return Answered(Error(401, false));
      }
      return Granted(claim.attempt);
    }

    /** The handler after a backend run: the result is committed before it is returned, or not returned. */
    method Finish(request: ExecutionRequest, attempt: nat, response: ExecutionResponse, now: int) returns (reply: Reply)
      modifies store
      ensures var c := CompleteRequest(request.executionId, Sha256(request), instance, attempt, response);
              var (next, committed) := CompleteStep(old(store.Contents()), None, c, now);
              store.Contents() == next && reply == if committed then Ok(response, false) else Error(409, false)
    {
      var committed := store.Complete(
        CompleteRequest(request.executionId, Sha256(request), instance, attempt, response), now);
      if !committed {
        return Error(409, false);
      }
      return Ok(response, false);
    }
  }

  // ----- Every interleaving -----

  datatype Handler = Handler(instance: Owner, request: ExecutionRequest, assertion: Assertion, verifiedAt: int)

  /** A backend run in progress; `granted` is the operation that acquired it. */
  datatype Worker = Worker(instance: Owner, request: ExecutionRequest, attempt: nat, granted: nat)

  datatype Origin = FromHandler(handler: Handler, current: int) | FromWorker(worker: Worker)

  datatype Sent = Sent(at: int, id: ExecutionId, response: ExecutionResponse)

  /** `origins[k]` made the store operation `run.ops[k]`, and on its outcome did `answers[k]`; `replies` are the
      successful answers sent, whether or not their client receives them. */
  datatype World = World(
    now: int, run: Run, origins: seq<Origin>, answers: seq<Admission>, handlers: map<nat, Handler>,
    workers: map<nat, Worker>, replies: seq<Sent>)

  datatype Step =
    | Tick(seconds: nat)
    | Verify(call: nat, instance: Owner, request: ExecutionRequest, assertion: Assertion)
    | Claim(call: nat, current: int)
    | Finish(call: nat, response: ExecutionResponse)
    | Crash(call: nat)

  function Start(retention: Option<int>): World {
    World(0, FRESH.(retention := retention), [], [], map[], map[], [])
  }

  function Next(settings: Settings, w: World, step: Step): World
    requires w.run.states != []
    ensures Next(settings, w, step).run.states != []
  {
    match step
    case Tick(seconds) => w.(now := w.now + seconds)
    case Verify(call, instance, request, a) =>
      if && request.Valid() && Accepts(a, Sha256(request), w.now) && Allowlisted(settings, request)
         && call !in w.workers then
        w.(handlers := w.handlers[call := Handler(instance, request, a, w.now)])
      else w
    case Claim(call, current) =>
      if call in w.handlers && w.handlers[call].verifiedAt <= current <= w.now then
        AfterClaim(settings, w, call, current)
      else w
    case Finish(call, response) =>
      if call in w.workers then AfterFinish(w, call, response) else w
    case Crash(call) => w.(handlers := w.handlers - {call}, workers := w.workers - {call})
  }

  function AfterClaim(settings: Settings, w: World, call: nat, current: int): (w': World)
    requires w.run.states != [] && call in w.handlers
    ensures w'.run.states != []
  {
    var h := w.handlers[call];
    var op := Claiming(w.now, ClaimFor(settings, h.instance, h.request, h.assertion, current));
    var claim := Apply(w.run.states[|w.run.states| - 1], w.run.retention, op).1.claim;
    var admission := Admitted(claim);
    w.(run := w.run.Then(op),
       origins := w.origins + [FromHandler(h, current)],
       answers := w.answers + [admission],
       handlers := w.handlers - {call},
       workers := if admission.Granted?
                  then w.workers[call := Worker(h.instance, h.request, admission.attempt, |w.run.ops|)] else w.workers,
       replies := if admission.Answered? && admission.reply.Ok?
                  then w.replies + [Sent(w.now, h.request.executionId, admission.reply.response)] else w.replies)
  }

  function AfterFinish(w: World, call: nat, response: ExecutionResponse): (w': World)
    requires w.run.states != [] && call in w.workers
    ensures w'.run.states != []
  {
    var k := w.workers[call];
    var op := Completing(
      w.now, CompleteRequest(k.request.executionId, Sha256(k.request), k.instance, k.attempt, response));
    var committed := Apply(w.run.states[|w.run.states| - 1], w.run.retention, op).1.committed;
    w.(run := w.run.Then(op),
       origins := w.origins + [FromWorker(k)],
       answers := w.answers + [Answered(if committed then Ok(response, false) else Error(409, false))],
       workers := w.workers - {call},
       replies := if committed then w.replies + [Sent(w.now, k.request.executionId, response)] else w.replies)
  }

  function Play(settings: Settings, retention: Option<int>, steps: seq<Step>): (w: World)
    ensures w.run.states != []
    decreases |steps|
  {
    if steps == [] then Start(retention)
    else Next(settings, Play(settings, retention, steps[..|steps| - 1]), steps[|steps| - 1])
  }

  // ----- The invariant of every interleaving -----

  predicate Admissible(settings: Settings, request: ExecutionRequest) {
    request.Valid() && Allowlisted(settings, request)
  }

  predicate Attested(settings: Settings, h: Handler) {
    Admissible(settings, h.request) && Accepts(h.assertion, Sha256(h.request), h.verifiedAt)
  }

  ghost predicate GrantedAt(run: Run, k: Worker) {
    && run.Acquires(k.granted, k.request.executionId)
    && run.results[k.granted].claim.attempt == k.attempt
  }

  /** The operation was made by its origin. */
  ghost predicate MadeBy(settings: Settings, run: Run, k: nat, origin: Origin)
    requires k < |run.ops|
  {
    var op := run.ops[k];
    match origin
    case FromHandler(h, current) =>
      && Attested(settings, h) && h.verifiedAt <= current <= op.at
      && op.Claiming? && op.q == ClaimFor(settings, h.instance, h.request, h.assertion, current)
    case FromWorker(w) =>
      && GrantedAt(run, w) && w.granted < k
      && op.Completing? && op.c.id == w.request.executionId && op.c.attempt == w.attempt
      && op.c.owner == w.instance && op.c.hash == Sha256(w.request)
  }

  ghost predicate Committed(run: Run, sent: Sent) {
    exists i: nat :: run.Commits(i, sent.id) && run.ops[i].c.response == sent.response && run.ops[i].at <= sent.at
  }

  ghost predicate Inv(settings: Settings, w: World) {
    && w.run.Valid()
    && (w.run.ops != [] ==> w.run.ops[|w.run.ops| - 1].at <= w.now)
    && |w.origins| == |w.run.ops|
    && (forall k: nat :: k < |w.origins| ==> MadeBy(settings, w.run, k, w.origins[k]))
    && (forall c :: c in w.handlers ==> Attested(settings, w.handlers[c]) && w.handlers[c].verifiedAt <= w.now)
    && (forall c :: c in w.workers ==> GrantedAt(w.run, w.workers[c]))
    && (forall r: nat :: r < |w.replies| ==> Committed(w.run, w.replies[r]))
  }

  /** A longer run keeps everything said about its operations. */
  lemma ThenKeeps(run: Run, op: Op)
    requires run.Valid()
    ensures forall k: nat, id :: run.Acquires(k, id) ==> run.Then(op).Acquires(k, id)
    ensures forall k: nat, id :: run.Commits(k, id) ==> run.Then(op).Commits(k, id)
    ensures forall k: nat :: k < |run.ops| ==>
              run.Then(op).ops[k] == run.ops[k] && run.Then(op).results[k] == run.results[k]
  {
  }

  lemma HistoryKept(settings: Settings, w: World, op: Op)
    requires Inv(settings, w)
    ensures var next := w.run.Then(op);
            && (forall k: nat :: k < |w.origins| ==> MadeBy(settings, next, k, w.origins[k]))
            && (forall c :: c in w.workers ==> GrantedAt(next, w.workers[c]))
            && (forall r: nat :: r < |w.replies| ==> Committed(next, w.replies[r]))
  {
    var next := w.run.Then(op);
    ThenKeeps(w.run, op);
    forall k: nat | k < |w.origins|
      ensures MadeBy(settings, next, k, w.origins[k])
    {
      assert MadeBy(settings, w.run, k, w.origins[k]);
    }
    forall r: nat | r < |w.replies|
      ensures Committed(next, w.replies[r])
    {
      var sent := w.replies[r];
      assert Committed(w.run, sent);
      var i: nat :| w.run.Commits(i, sent.id) && w.run.ops[i].c.response == sent.response && w.run.ops[i].at <= sent.at;
      assert next.Commits(i, sent.id) && next.ops[i] == w.run.ops[i];
    }
  }

  lemma ClaimKeepsInv(settings: Settings, w: World, call: nat, current: int)
    requires Inv(settings, w)
    requires call in w.handlers && w.handlers[call].verifiedAt <= current <= w.now
    ensures Inv(settings, AfterClaim(settings, w, call, current))
  {
    var h := w.handlers[call];
    var op := Claiming(w.now, ClaimFor(settings, h.instance, h.request, h.assertion, current));
    var w', n := AfterClaim(settings, w, call, current), |w.run.ops|;
    ThenIsValid(w.run, op);
    HistoryKept(settings, w, op);
    assert w'.run.Step(n);
    var claim := w'.run.results[n].claim;
    if claim.status == Cached {
      var i := CachedWasCommitted(w'.run, n);
      assert w'.run.Commits(i, h.request.executionId);
      assert Committed(w'.run, Sent(w.now, h.request.executionId, claim.response.value));
    } else if claim.status == Acquired {
      assert GrantedAt(w'.run, w'.workers[call]);
    }
    assert MadeBy(settings, w'.run, n, w'.origins[n]);
  }

  lemma FinishKeepsInv(settings: Settings, w: World, call: nat, response: ExecutionResponse)
    requires Inv(settings, w)
    requires call in w.workers
    ensures Inv(settings, AfterFinish(w, call, response))
  {
    var k := w.workers[call];
    var op := Completing(
      w.now, CompleteRequest(k.request.executionId, Sha256(k.request), k.instance, k.attempt, response));
    var w', n := AfterFinish(w, call, response), |w.run.ops|;
    ThenIsValid(w.run, op);
    HistoryKept(settings, w, op);
    if w'.run.results[n].committed {
      assert w'.run.Commits(n, k.request.executionId);
      assert Committed(w'.run, Sent(w.now, k.request.executionId, response));
    }
    assert MadeBy(settings, w'.run, n, w'.origins[n]);
  }

  lemma {:induction false} InvHolds(settings: Settings, retention: Option<int>, steps: seq<Step>)
    ensures Inv(settings, Play(settings, retention, steps))
    ensures Play(settings, retention, steps).run.retention == retention
    decreases |steps|
  {
    if steps != [] {
      InvHolds(settings, retention, steps[..|steps| - 1]);
      NextKeepsInv(settings, Play(settings, retention, steps[..|steps| - 1]), steps[|steps| - 1]);
    }
  }

  lemma NextKeepsInv(settings: Settings, w: World, step: Step)
    requires Inv(settings, w)
    ensures Inv(settings, Next(settings, w, step)) && Next(settings, w, step).run.retention == w.run.retention
  {
    match step
    case Claim(call, current) =>
      if call in w.handlers && w.handlers[call].verifiedAt <= current <= w.now {
        ClaimKeepsInv(settings, w, call, current);
      }
    case Finish(call, response) =>
      if call in w.workers {
        FinishKeepsInv(settings, w, call, response);
      }
    case _ =>
  }

  // ----- What every request is answered -----

  ghost predicate AnswersInv(w: World) {
    && w.run.Valid() && |w.answers| == |w.run.ops|
    && (forall k: nat :: k < |w.answers| ==> AnswersTo(w.answers[k], w.run.ops[k], w.run.results[k]))
  }

  /** `answer` is what follows on the outcome of `op`. */
  predicate AnswersTo(answer: Admission, op: Op, outcome: Outcome) {
    match outcome
    case Claimed(claim) => answer == Admitted(claim)
    case Settled(committed) =>
      op.Completing? && answer == Answered(if committed then Ok(op.c.response, false) else Error(409, false))
  }

  lemma {:induction false} AnswersHold(settings: Settings, retention: Option<int>, steps: seq<Step>)
    ensures AnswersInv(Play(settings, retention, steps))
    decreases |steps|
  {
    InvHolds(settings, retention, steps);
    if steps != [] {
      var before, step := steps[..|steps| - 1], steps[|steps| - 1];
      AnswersHold(settings, retention, before);
      AnswersKept(settings, Play(settings, retention, before), step);
    }
  }

  lemma AnswersKept(settings: Settings, w: World, step: Step)
    requires AnswersInv(w) && Next(settings, w, step).run.Valid()
    ensures AnswersInv(Next(settings, w, step))
  {
  }

  /** Every answer to a claim in every interleaving, exactly, from what happened to its execution and its assertion
      before: the client is told to wait exactly while the execution is running for this request. */
  lemma AnswersIff(settings: Settings, retention: Option<int>, steps: seq<Step>, k: nat)
    requires var w := Play(settings, retention, steps); k < |w.origins| && w.origins[k].FromHandler?
    ensures var w := Play(settings, retention, steps);
            && |w.answers| == |w.origins| == |w.run.ops| && w.run.ops[k].Claiming?
            && var run, q, now, answer := w.run, w.run.ops[k].q, w.run.ops[k].at, w.answers[k];
            && q.id == w.origins[k].handler.request.executionId && q.hash == Sha256(w.origins[k].handler.request)
            && q.jti == w.origins[k].handler.assertion.jti
            && (answer == Answered(Error(409, true)) <==> Busy(run, k, q, now))
            && (answer == Answered(Error(409, false)) <==> BoundElsewhere(run, k, q, now))
            && (answer == Answered(Error(401, false)) <==> UsedUp(run, k, q, now))
            && (forall response :: answer == Answered(Ok(response, true)) <==>
                  AlreadyCommitted(run, k, q, now) && run.ops[LastWrite(run, k, q.id)].c.response == response)
            && (answer.Granted? <==> run.Acquires(k, q.id))
            && (answer.Answered? ==>
                  || answer.reply in {Error(409, true), Error(409, false), Error(401, false)}
                  || (answer.reply.Ok? && answer.reply.replayed))
  {
    InvHolds(settings, retention, steps);
    AnswersHold(settings, retention, steps);
    var w := Play(settings, retention, steps);
    assert MadeBy(settings, w.run, k, w.origins[k]);
    assert AnswersTo(w.answers[k], w.run.ops[k], w.run.results[k]);
    ClaimAnswersIff(w.run, k);
  }

  /** A worker answers with its result exactly when that was committed, and else tells the client not to try again. */
  lemma WorkerAnswersIff(settings: Settings, retention: Option<int>, steps: seq<Step>, k: nat)
    requires var w := Play(settings, retention, steps); k < |w.origins| && w.origins[k].FromWorker?
    ensures var w := Play(settings, retention, steps);
            && |w.answers| == |w.origins| == |w.run.ops| && w.run.ops[k].Completing?
            && var id := w.origins[k].worker.request.executionId;
            && (w.answers[k] == Answered(Ok(w.run.ops[k].c.response, false)) <==> w.run.Commits(k, id))
            && (w.answers[k] == Answered(Error(409, false)) <==> !w.run.Commits(k, id))
  {
    InvHolds(settings, retention, steps);
    AnswersHold(settings, retention, steps);
    var w := Play(settings, retention, steps);
    assert MadeBy(settings, w.run, k, w.origins[k]);
    assert AnswersTo(w.answers[k], w.run.ops[k], w.run.results[k]);
  }

  /** Every claim records its assertion for a second at least, and as long as it is valid, and asks for a lease that
      outlives the longest the request may run by ten seconds or more. */
  lemma ClaimsLastLongEnough(settings: Settings, retention: Option<int>, steps: seq<Step>, k: nat)
    requires var w := Play(settings, retention, steps); k < |w.origins| && w.origins[k].FromHandler?
    ensures var w := Play(settings, retention, steps);
            && k < |w.run.ops| && w.run.ops[k].Claiming?
            && var h, q := w.origins[k].handler, w.run.ops[k].q;
            && q.ttl >= 1 && w.run.ops[k].at + q.ttl >= h.assertion.exp
            && (w.origins[k].current < h.assertion.exp ==> w.origins[k].current + q.ttl == h.assertion.exp)
            && q.lease >= h.request.timeoutSeconds + 10 && q.lease >= h.request.timeoutSeconds + settings.grace
            && q.owner == h.instance
  {
    InvHolds(settings, retention, steps);
    var w := Play(settings, retention, steps);
    assert MadeBy(settings, w.run, k, w.origins[k]);
  }

  /** No operation on the store is ever made for an image, a command or a timeout that is not allowed, or under an
      assertion issued for another request. */
  lemma OnlyAllowedReachTheStore(settings: Settings, retention: Option<int>, steps: seq<Step>, k: nat)
    requires k < |Play(settings, retention, steps).origins|
    ensures var w := Play(settings, retention, steps);
            && k < |w.run.ops|
            && var hash := if w.run.ops[k].Claiming? then w.run.ops[k].q.hash else w.run.ops[k].c.hash;
            && hash.bound.image in settings.allowedImages && hash.bound.command in settings.allowedCommands
            && 1 <= hash.bound.timeoutSeconds <= 3600
            && (w.origins[k].FromHandler? ==> w.origins[k].handler.assertion.hash == hash)
  {
    InvHolds(settings, retention, steps);
    var w := Play(settings, retention, steps);
    assert MadeBy(settings, w.run, k, w.origins[k]);
    if w.origins[k].FromWorker? {
      WorkersAreAllowed(settings, retention, steps);
    }
  }

  /** A worker runs a request that was let in. */
  ghost predicate WorkersInv(settings: Settings, w: World) {
    && (forall c :: c in w.handlers ==> Admissible(settings, w.handlers[c].request))
    && (forall c :: c in w.workers ==> Admissible(settings, w.workers[c].request))
    && (forall k: nat :: k < |w.origins| && w.origins[k].FromWorker? ==>
          Admissible(settings, w.origins[k].worker.request))
  }

  lemma WorkersKept(settings: Settings, w: World, step: Step)
    requires w.run.states != [] && WorkersInv(settings, w)
    ensures WorkersInv(settings, Next(settings, w, step))
  {
  }

  lemma {:induction false} WorkersAreAllowed(settings: Settings, retention: Option<int>, steps: seq<Step>)
    ensures WorkersInv(settings, Play(settings, retention, steps))
    decreases |steps|
  {
    if steps != [] {
      WorkersAreAllowed(settings, retention, steps[..|steps| - 1]);
      WorkersKept(settings, Play(settings, retention, steps[..|steps| - 1]), steps[|steps| - 1]);
    }
  }

  // ----- Theorems -----

  /** No result is returned before it is committed: every successful answer, fresh or cached,
      is a response committed earlier for that execution. */
  lemma CommittedBeforeReply(settings: Settings, retention: Option<int>, steps: seq<Step>, r: nat) returns (i: nat)
    requires r < |Play(settings, retention, steps).replies|
    ensures var w := Play(settings, retention, steps);
            && w.run.Commits(i, w.replies[r].id)
            && w.run.ops[i].c.response == w.replies[r].response
            && w.run.ops[i].at <= w.replies[r].at
  {
    InvHolds(settings, retention, steps);
    var w := Play(settings, retention, steps);
    assert Committed(w.run, w.replies[r]);
    var sent := w.replies[r];
    i :| w.run.Commits(i, sent.id) && w.run.ops[i].c.response == sent.response && w.run.ops[i].at <= sent.at;
  }

  /** With the memory store all successful answers for one execution are the same response. */
  lemma OneResponsePerExecution(settings: Settings, steps: seq<Step>, r: nat, t: nat)
    requires var w := Play(settings, None, steps);
             r < |w.replies| && t < |w.replies| && w.replies[r].id == w.replies[t].id
    ensures var w := Play(settings, None, steps); w.replies[r].response == w.replies[t].response
  {
    InvHolds(settings, None, steps);
    var w := Play(settings, None, steps);
    var i := CommittedBeforeReply(settings, None, steps, r);
    var j := CommittedBeforeReply(settings, None, steps, t);
    if i != j {
      CommitsFarApart(w.run, Min(i, j), if i < j then j else i, w.replies[r].id);
    }
  }

  /** With a retention, two different answers for one execution come from commits further apart than it. */
  lemma AnswersDifferOnlyAfterRetention(settings: Settings, retention: int, steps: seq<Step>, r: nat, t: nat)
    returns (i: nat, j: nat)
    requires var w := Play(settings, Some(retention), steps);
             r < |w.replies| && t < |w.replies| && w.replies[r].id == w.replies[t].id
             && w.replies[r].response != w.replies[t].response
    ensures var w := Play(settings, Some(retention), steps);
            && w.run.Commits(i, w.replies[r].id) && w.run.ops[i].c.response == w.replies[r].response
            && w.run.Commits(j, w.replies[r].id) && w.run.ops[j].c.response == w.replies[t].response
            && (w.run.ops[j].at > w.run.ops[i].at + retention || w.run.ops[i].at > w.run.ops[j].at + retention)
  {
    InvHolds(settings, Some(retention), steps);
    var w := Play(settings, Some(retention), steps);
    i := CommittedBeforeReply(settings, Some(retention), steps, r);
    j := CommittedBeforeReply(settings, Some(retention), steps, t);
    CommitsFarApart(w.run, Min(i, j), if i < j then j else i, w.replies[r].id);
  }

  /** The worker whose result is committed is the last one that acquired the execution, and its lease is live. With
      a retention the only exception is a worker granted more than the retention ago, on the instance granted last. */
  lemma OnlyLatestWorkerCommits(settings: Settings, retention: Option<int>, steps: seq<Step>, k: nat)
    requires var w := Play(settings, retention, steps);
             && k < |w.origins| && w.origins[k].FromWorker?
             && w.run.Commits(k, w.origins[k].worker.request.executionId)
    ensures var w := Play(settings, retention, steps);
            var worker := w.origins[k].worker;
            var i, last := worker.granted, LastAcquisition(w.run, k, worker.request.executionId);
            && 0 <= i <= last < |w.run.ops|
            && w.run.ops[i].Claiming? && w.run.ops[last].Claiming?
            && w.run.ops[k].at < w.run.ops[last].at + w.run.ops[last].q.lease
            && w.run.ops[last].q.owner == worker.instance && w.run.ops[last].q.hash == Sha256(worker.request)
            && (i == last || (retention.Some? && w.run.ops[k].at > w.run.ops[i].at + retention.value))
  {
    InvHolds(settings, retention, steps);
    var w := Play(settings, retention, steps);
    var worker := w.origins[k].worker;
    var id := worker.request.executionId;
    assert MadeBy(settings, w.run, k, w.origins[k]);
    Fenced(w.run, k, id);
    var last := LastAcquisition(w.run, k, id);
    if worker.granted < last {
      StaleCommitNeedsEviction(w.run, worker.granted, last, k, id);
    }
  }

  ghost predicate RunsOf(settings: Settings, w: World, k: nat, a: Assertion) {
    && k < |w.origins| && w.origins[k].FromHandler?
    && w.origins[k].handler.assertion == a
    && w.run.Acquires(k, w.origins[k].handler.request.executionId)
  }

  /** One assertion starts at most one backend run among the claims made by its expiry,
      whatever the client retries: a second run is claimed strictly after `exp`. */
  lemma OneRunPerAssertionByExpiry(
    settings: Settings, retention: Option<int>, steps: seq<Step>, i: nat, j: nat, a: Assertion)
    requires var w := Play(settings, retention, steps); i < j && RunsOf(settings, w, i, a) && RunsOf(settings, w, j, a)
    ensures Play(settings, retention, steps).run.ops[j].at > a.exp
  {
    InvHolds(settings, retention, steps);
    var w := Play(settings, retention, steps);
    assert MadeBy(settings, w.run, i, w.origins[i]) && MadeBy(settings, w.run, j, w.origins[j]);
    NoSecondAcquisition(
      w.run, i, j, w.origins[i].handler.request.executionId, w.origins[j].handler.request.executionId);
  }

  /** How long a grant of `request` keeps its execution: for its lease, or until its row may have been dropped. */
  function HoldSeconds(settings: Settings, retention: Option<int>, request: ExecutionRequest): int {
    Held(retention, 0, LeaseSeconds(settings, request))
  }

  /** Past the expiry the clock skew lets an assertion start one more backend run; a third is claimed later after its
      verification than a grant keeps the execution, but for four seconds. With any retention of ten seconds or more
      that is over six seconds later. */
  lemma AtMostTwoRunsPerAssertion(
    settings: Settings, retention: Option<int>, steps: seq<Step>, i: nat, j: nat, k: nat, a: Assertion)
    requires var w := Play(settings, retention, steps);
             i < j < k && RunsOf(settings, w, i, a) && RunsOf(settings, w, j, a) && RunsOf(settings, w, k, a)
    ensures var w := Play(settings, retention, steps);
            w.run.ops[k].at >= w.origins[k].handler.verifiedAt + HoldSeconds(settings, retention, a.hash.bound) - 4
    ensures var w := Play(settings, retention, steps);
            (retention.Some? ==> retention.value >= 10) ==> w.run.ops[k].at > w.origins[k].handler.verifiedAt + 6
  {
    InvHolds(settings, retention, steps);
    var w := Play(settings, retention, steps);
    assert MadeBy(settings, w.run, i, w.origins[i]) && MadeBy(settings, w.run, j, w.origins[j]);
    assert MadeBy(settings, w.run, k, w.origins[k]);
    OneRunPerAssertionByExpiry(settings, retention, steps, i, j, a);
    AcquisitionsApart(w.run, 0, j, k, w.origins[j].handler.request.executionId);
  }

  lemma PlayMore(settings: Settings, retention: Option<int>, steps: seq<Step>, step: Step)
    ensures Play(settings, retention, steps + [step]) == Next(settings, Play(settings, retention, steps), step)
  {
    assert (steps + [step])[..|steps|] == steps;
  }

  // ----- When leases overlap -----

  /** Two acquisitions of one id of which the second comes while the first lease is live. */
  ghost predicate Overlap(run: Run, i: nat, j: nat, id: ExecutionId) {
    && i < j && run.Acquires(i, id) && run.Acquires(j, id)
    && run.ops[j].at < run.ops[i].at + run.ops[i].q.lease
  }

  /** The leases of one execution never overlap, Redis evictions included, when no request outlives the retention by
      more than a second. */
  lemma LeasesNeverOverlap(
    settings: Settings, retention: Option<int>, steps: seq<Step>, i: nat, j: nat, id: ExecutionId)
    requires forall request :: Admissible(settings, request) ==> Covers(settings, retention, request)
    ensures !Overlap(Play(settings, retention, steps).run, i, j, id)
  {
    InvHolds(settings, retention, steps);
    var w := Play(settings, retention, steps);
    if Overlap(w.run, i, j, id) {
      assert MadeBy(settings, w.run, i, w.origins[i]);
      assert Covers(settings, retention, w.origins[i].handler.request);
      LeasesDisjoint(w.run, i, j, id);
    }
  }

  /** A row of `request` is not dropped before its lease ends. */
  predicate Covers(settings: Settings, retention: Option<int>, request: ExecutionRequest) {
    retention.Some? ==> LeaseSeconds(settings, request) <= retention.value + 1
  }

  /** The row of a claim made at 0 is gone by `at`, so a claim under another assertion acquires. */
  lemma ClaimAfterDrop(s: Store, retention: int, q: ClaimRequest, at: int)
    requires q.jti !in s.replays && q.id in s.expiry && s.expiry[q.id] < at
    ensures ClaimStep(s, Some(retention), q, at).1.status == Acquired
  {
  }

  /** The first claim, `at` later. */
  lemma GrantedAndDropped(
    settings: Settings, retention: int, instance: Owner, request: ExecutionRequest, a: Assertion, at: nat)
    returns (steps: seq<Step>)
    requires Admissible(settings, request) && a.issuedAt == 5 && a.exp >= 5 && a.hash == Sha256(request)
    ensures var w := Play(settings, Some(retention), steps);
            w.now == at && w.run.retention == Some(retention) && RanOnce(settings, w, instance, request, a)
  {
    var s1 := FirstRun(settings, Some(retention), instance, request, a);
    steps := s1 + [Tick(at)];
    PlayMore(settings, Some(retention), s1, Tick(at));
  }

  /** A second claim, under another assertion, is granted once the row is gone. */
  lemma DroppedIsGrantedAgain(
    settings: Settings, retention: int, instance: Owner, request: ExecutionRequest, a: Assertion, b: Assertion, at: nat,
    s1: seq<Step>)
    returns (steps: seq<Step>)
    requires Admissible(settings, request) && retention < at < LeaseSeconds(settings, request)
    requires b.issuedAt == 5 && b.exp == 5 + at && b.hash == Sha256(request) && b.jti != a.jti
    requires var w := Play(settings, Some(retention), s1);
             w.now == at && w.run.retention == Some(retention) && RanOnce(settings, w, instance, request, a)
    ensures Overlap(Play(settings, Some(retention), steps).run, 0, 1, request.executionId)
  {
    var s2 := s1 + [Verify(1, instance, request, b)];
    steps := s2 + [Claim(1, at)];
    PlayMore(settings, Some(retention), s1, Verify(1, instance, request, b));
    PlayMore(settings, Some(retention), s2, Claim(1, at));
    OverlapsNext(settings, retention, instance, request, a, b, Play(settings, Some(retention), s2));
  }

  lemma OverlapsNext(
    settings: Settings, retention: int, instance: Owner, request: ExecutionRequest, a: Assertion, b: Assertion,
    w: World)
    requires w.run.states != [] && w.run.retention == Some(retention)
    requires RanOnce(settings, w, instance, request, a) && retention < w.now < LeaseSeconds(settings, request)
    requires 1 in w.handlers && w.handlers[1] == Handler(instance, request, b, w.now) && b.jti != a.jti
    ensures Overlap(Next(settings, w, Claim(1, w.now)).run, 0, 1, request.executionId)
  {
    ClaimAfterDrop(w.run.states[1], retention, ClaimFor(settings, instance, request, b, w.now), w.now);
    FirstLease(settings, w, instance, request, a);
  }

  /** The operation that ran once asked for the lease of its request. */
  lemma FirstLease(settings: Settings, w: World, instance: Owner, request: ExecutionRequest, a: Assertion)
    requires RanOnce(settings, w, instance, request, a)
    ensures w.run.ops[0].Claiming? && w.run.ops[0].q.lease == LeaseSeconds(settings, request)
  {
  }

  /** When a request does outlive the retention by more, its row is dropped under a live worker and granted again. */
  lemma LeaseDisplaced(settings: Settings, retention: int, request: ExecutionRequest) returns (steps: seq<Step>)
    requires Admissible(settings, request) && !Covers(settings, Some(retention), request)
    ensures Overlap(Play(settings, Some(retention), steps).run, 0, 1, request.executionId)
  {
    var at, instance := Max(0, retention + 1), Instance("plane");
    var a := Assertion(Jti("first"), 5, 5 + at, Sha256(request), "broker");
    var b := a.(jti := Jti("second"));
    var s1 := GrantedAndDropped(settings, retention, instance, request, a, at);
    steps := DroppedIsGrantedAgain(settings, retention, instance, request, a, b, at, s1);
  }

  /** In some interleaving an execution is granted again while a lease of it is live. */
  ghost predicate MayOverlap(settings: Settings, retention: Option<int>) {
    exists steps: seq<Step>, i: nat, j: nat, id :: Overlap(Play(settings, retention, steps).run, i, j, id)
  }

  /** Exactly when a live lease can be displaced: some request that is let in outlives the retention by more than a
      second. */
  lemma LeasesOverlapIff(settings: Settings, retention: Option<int>)
    ensures MayOverlap(settings, retention) <==>
            exists request :: Admissible(settings, request) && !Covers(settings, retention, request)
  {
    if request :| Admissible(settings, request) && !Covers(settings, retention, request) {
      var steps := LeaseDisplaced(settings, retention.value, request);
      assert Overlap(Play(settings, retention, steps).run, 0, 1, request.executionId);
    } else {
      forall steps: seq<Step>, i: nat, j: nat, id ensures !Overlap(Play(settings, retention, steps).run, i, j, id) {
        LeasesNeverOverlap(settings, retention, steps, i, j, id);
      }
    }
  }

  /** Of the settings start-up validation admits, exactly those with a retention under 3609 seconds let a live lease
      be displaced, which takes a grace under nine. */
  lemma ValidatedOverlapIff(settings: Settings)
    requires settings.Validated() && settings.allowedImages != {} && settings.allowedCommands != {}
    ensures MayOverlap(settings, Some(settings.retention)) <==> settings.retention < MAX_TIMEOUT_SECONDS + 9
    ensures MayOverlap(settings, Some(settings.retention)) ==> settings.grace < 9
  {
    var image :| image in settings.allowedImages;
    var command :| command in settings.allowedCommands;
    var longest := ExecutionRequest(Uuid("longest"), "", command, "", image, "", MAX_TIMEOUT_SECONDS);
    assert Admissible(settings, longest);
    assert LeaseSeconds(settings, longest) == MAX_TIMEOUT_SECONDS + Max(10, settings.grace);
    LeasesOverlapIff(settings, Some(settings.retention));
  }

  // ----- When one assertion starts two runs -----

  /** A claim made within `d` of the verification of its assertion. */
  ghost predicate PromptRun(settings: Settings, w: World, k: nat, a: Assertion, d: nat) {
    && RunsOf(settings, w, k, a)
    && k < |w.run.ops| && w.run.ops[k].at <= w.origins[k].handler.verifiedAt + d
  }

  /** Two runs of one assertion need a grant that keeps its execution no longer than the assertion is accepted, plus
      the delay of the claim. */
  lemma SecondRunNeedsShortLease(
    settings: Settings, retention: Option<int>, steps: seq<Step>, i: nat, j: nat, a: Assertion, d: nat)
    requires var w := Play(settings, retention, steps);
             i < j && RunsOf(settings, w, i, a) && PromptRun(settings, w, j, a, d)
    ensures HoldSeconds(settings, retention, a.hash.bound) <= a.exp - a.issuedAt + 2 * CLOCK_SKEW_SECONDS + d
  {
    InvHolds(settings, retention, steps);
    var w := Play(settings, retention, steps);
    assert MadeBy(settings, w.run, i, w.origins[i]) && MadeBy(settings, w.run, j, w.origins[j]);
    AcquisitionsApart(w.run, 0, i, j, a.hash.bound.executionId);
  }

  /** One operation has been made: the acquisition of `request` at time 0 under `a`. */
  ghost predicate RanOnce(settings: Settings, w: World, instance: Owner, request: ExecutionRequest, a: Assertion) {
    && |w.run.ops| == 1 && |w.run.states| == 2 && |w.run.results| == 1
    && w.run.ops[0].at == 0 && 1 !in w.workers
    && w.run.ops[0] == Claiming(0, ClaimFor(settings, instance, request, a, 0))
    && w.origins == [FromHandler(Handler(instance, request, a, 0), 0)]
    && w.run.Acquires(0, request.executionId)
    && w.run.states[1].replays == map[a.jti := Replay(a.exp, request.executionId)]
    && w.run.states[1].rows
    == map[request.executionId := Row(Sha256(request), Running, instance, LeaseSeconds(settings, request), 1)]
    && w.run.states[1].expiry
    == if w.run.retention.Some? then map[request.executionId := w.run.retention.value] else map[]
  }

  /** A first run, granted at time 0 under an assertion accepted from then on. */
  lemma FirstRun(settings: Settings, retention: Option<int>, instance: Owner, request: ExecutionRequest, a: Assertion)
    returns (steps: seq<Step>)
    requires Admissible(settings, request)
    requires a.issuedAt == 5 && a.exp >= 5 && a.hash == Sha256(request)
    ensures var w := Play(settings, retention, steps);
            w.now == 0 && w.run.retention == retention && RanOnce(settings, w, instance, request, a)
  {
    var s1 := [] + [Verify(0, instance, request, a)];
    steps := s1 + [Claim(0, 0)];
    PlayMore(settings, retention, [], Verify(0, instance, request, a));
    PlayMore(settings, retention, s1, Claim(0, 0));
  }

  /** The assertion is verified once more at the last moment it is accepted, and `d` passes. */
  lemma VerifiedAgain(
    settings: Settings, retention: Option<int>, instance: Owner, request: ExecutionRequest, a: Assertion, d: nat,
    s0: seq<Step>)
    returns (steps: seq<Step>)
    requires Admissible(settings, request)
    requires a.issuedAt == 5 && a.exp >= 5 && a.hash == Sha256(request)
    requires var w := Play(settings, retention, s0);
             w.now == 0 && w.run.retention == retention && RanOnce(settings, w, instance, request, a)
    ensures var w := Play(settings, retention, steps);
            && w.run.retention == retention && w.now == a.exp + CLOCK_SKEW_SECONDS + d
            && RanOnce(settings, w, instance, request, a)
            && 1 in w.handlers && w.handlers[1] == Handler(instance, request, a, a.exp + CLOCK_SKEW_SECONDS)
  {
    var s1 := s0 + [Tick(a.exp + CLOCK_SKEW_SECONDS)];
    var s2 := s1 + [Verify(1, instance, request, a)];
    steps := s2 + [Tick(d)];
    PlayMore(settings, retention, s0, Tick(a.exp + CLOCK_SKEW_SECONDS));
    PlayMore(settings, retention, s1, Verify(1, instance, request, a));
    PlayMore(settings, retention, s2, Tick(d));
  }

  /** The second claim: the replay record is gone, and so is the first lease or its row. */
  lemma ClaimAfterLease(s: Store, retention: Option<int>, q: ClaimRequest, now: int, until: int)
    requires s.replays == map[q.jti := Replay(until, q.id)] && until < now
    requires q.id in s.rows && s.rows[q.id].hash == q.hash && s.rows[q.id].phase.Running?
    requires s.rows[q.id].leaseUntil <= now || (q.id in s.expiry && s.expiry[q.id] < now)
    ensures ClaimStep(s, retention, q, now).1.status == Acquired
  {
  }

  /** The second claim is granted. */
  lemma ClaimsAgain(
    settings: Settings, retention: Option<int>, instance: Owner, request: ExecutionRequest, a: Assertion, d: nat,
    w: World)
    requires w.run.states != [] && RanOnce(settings, w, instance, request, a) && a.hash == Sha256(request)
    requires 1 in w.handlers && w.handlers[1] == Handler(instance, request, a, a.exp + CLOCK_SKEW_SECONDS)
    requires w.now == a.exp + CLOCK_SKEW_SECONDS + d && HoldSeconds(settings, w.run.retention, request) <= w.now
    ensures var next := Next(settings, w, Claim(1, w.now));
            PromptRun(settings, next, 0, a, d) && PromptRun(settings, next, 1, a, d)
  {
    ClaimAfterLease(w.run.states[1], w.run.retention, ClaimFor(settings, instance, request, a, w.now), w.now, a.exp);
  }

  /** ... and then a second run does happen: as the assertion is about to be refused for good, its replay record has
      expired, and the lease of a crashed first run is over or its row dropped. */
  lemma SecondRunWithinSkew(
    settings: Settings, retention: Option<int>, instance: Owner, request: ExecutionRequest, lifetime: nat, d: nat)
    returns (steps: seq<Step>, a: Assertion)
    requires Admissible(settings, request)
    requires HoldSeconds(settings, retention, request) <= lifetime + 2 * CLOCK_SKEW_SECONDS + d
    ensures a.hash == Sha256(request) && a.exp - a.issuedAt == lifetime
    ensures var w := Play(settings, retention, steps);
            PromptRun(settings, w, 0, a, d) && PromptRun(settings, w, 1, a, d)
  {
    a := Assertion(Jti("once"), 5, 5 + lifetime, Sha256(request), "broker");
    var s1 := FirstRun(settings, retention, instance, request, a);
    var s2 := VerifiedAgain(settings, retention, instance, request, a, d, s1);
    var w := Play(settings, retention, s2);
    steps := s2 + [Claim(1, w.now)];
    PlayMore(settings, retention, s2, Claim(1, w.now));
    ClaimsAgain(settings, retention, instance, request, a, d, w);
  }

  ghost predicate RunTwice(
    settings: Settings, retention: Option<int>, request: ExecutionRequest, lifetime: nat, d: nat,
    steps: seq<Step>, a: Assertion)
  {
    && a.hash == Sha256(request) && a.exp - a.issuedAt == lifetime
    && exists i: nat, j: nat ::
         && i < j
         && PromptRun(settings, Play(settings, retention, steps), i, a, d)
         && PromptRun(settings, Play(settings, retention, steps), j, a, d)
  }

  /** Exactly which settings let one assertion start two backend runs of a request, for handlers that claim within
      `d` of verifying it: those under which a grant keeps its execution no longer than the assertion, with its skew,
      can be used. */
  lemma RunTwiceIff(settings: Settings, retention: Option<int>, request: ExecutionRequest, lifetime: nat, d: nat)
    requires Admissible(settings, request)
    ensures (exists steps, a :: RunTwice(settings, retention, request, lifetime, d, steps, a)) <==>
            HoldSeconds(settings, retention, request) <= lifetime + 2 * CLOCK_SKEW_SECONDS + d
  {
    if HoldSeconds(settings, retention, request) <= lifetime + 2 * CLOCK_SKEW_SECONDS + d {
      var steps, a := SecondRunWithinSkew(settings, retention, Instance("plane"), request, lifetime, d);
      assert RunTwice(settings, retention, request, lifetime, d, steps, a);
    }
    forall steps, a | RunTwice(settings, retention, request, lifetime, d, steps, a)
      ensures HoldSeconds(settings, retention, request) <= lifetime + 2 * CLOCK_SKEW_SECONDS + d
    {
      var i: nat, j: nat :|
        && i < j
        && PromptRun(settings, Play(settings, retention, steps), i, a, d)
        && PromptRun(settings, Play(settings, retention, steps), j, a, d);
      SecondRunNeedsShortLease(settings, retention, steps, i, j, a, d);
    }
  }

  /** How many backend runs the first `n` operations started under `a`. */
  ghost function RunCount(settings: Settings, w: World, a: Assertion, n: nat): nat {
    if n == 0 then 0 else RunCount(settings, w, a, n - 1) + if RunsOf(settings, w, n - 1, a) then 1 else 0
  }

  lemma {:induction false} AtMostOneCounted(settings: Settings, w: World, a: Assertion, n: nat) returns (i: int)
    requires forall i: nat, j: nat :: i < j && RunsOf(settings, w, i, a) ==> !RunsOf(settings, w, j, a)
    ensures -1 <= i < n && (i >= 0 ==> RunsOf(settings, w, i, a))
    ensures RunCount(settings, w, a, n) == if i >= 0 then 1 else 0
  {
    if n == 0 {
      i := -1;
    } else {
      i := AtMostOneCounted(settings, w, a, n - 1);
      if RunsOf(settings, w, n - 1, a) {
        i := n - 1;
      }
    }
  }

  /** Every claim under `a` is made within `d` of its verification. */
  ghost predicate Prompt(w: World, a: Assertion, d: nat) {
    forall k: nat ::
      && k < |w.origins| && k < |w.run.ops|
      && w.origins[k].FromHandler? && w.origins[k].handler.assertion == a
      ==> w.run.ops[k].at <= w.origins[k].handler.verifiedAt + d
  }

  /** So an assertion whose request is kept for longer starts at most one backend run, however often it is posted. */
  lemma LongLeaseRunsOnce(settings: Settings, retention: Option<int>, steps: seq<Step>, a: Assertion, d: nat)
    requires Prompt(Play(settings, retention, steps), a, d)
    requires HoldSeconds(settings, retention, a.hash.bound) > a.exp - a.issuedAt + 2 * CLOCK_SKEW_SECONDS + d
    ensures var w := Play(settings, retention, steps); RunCount(settings, w, a, |w.origins|) <= 1
  {
    InvHolds(settings, retention, steps);
    var w := Play(settings, retention, steps);
    forall i: nat, j: nat | i < j && RunsOf(settings, w, i, a) ensures !RunsOf(settings, w, j, a) {
      if RunsOf(settings, w, j, a) {
        SecondRunNeedsShortLease(settings, retention, steps, i, j, a, d);
      }
    }
    var i := AtMostOneCounted(settings, w, a, |w.origins|);
  }
}
