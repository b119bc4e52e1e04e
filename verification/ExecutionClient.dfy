/** The client of the execution plane: a bounded retry loop that posts one request under one assertion. */
module ExecutionClient {
  import opened Prelude
  import opened ExecutionProtocol
  import opened StoreRuns
  import Plane = ExecutionPlane

  /** A `Retry-After` header, and the number in it when it is one. */
  datatype RetryAfter = Absent | Present(seconds: Option<real>)

  datatype Post = Answer(status: int, retryAfter: RetryAfter, body: ExecutionResponse) | TransportError

  datatype Result = Returned(response: ExecutionResponse) | StatusError(status: int) | Unreachable | Unbound

  /** What another post with the same execution id may still turn into an answer. */
  predicate Retryable(post: Post) {
    post.TransportError? || (post.status == 409 && post.retryAfter.Present?)
  }

  /** The result a last post stands for. */
  function Verdict(request: ExecutionRequest, post: Post): Result {
    match post
    case TransportError => Unreachable
    case Answer(status, _, body) =>
      if !(200 <= status < 300) then StatusError(status)
      else if body.executionId != request.executionId || body.archiveSha256 != request.archiveSha256 then Unbound
      else Returned(body)
  }

  /** What each result means: a response is returned exactly when a post succeeded with this request's id and archive,
      whether its tests passed or not. */
  ghost predicate Means(result: Result, request: ExecutionRequest, post: Post) {
    && (forall response :: result == Returned(response) <==>
          && post.Answer? && 200 <= post.status < 300 && post.body == response
          && response.executionId == request.executionId && response.archiveSha256 == request.archiveSha256)
    && (forall status :: result == StatusError(status) <==>
          post.Answer? && post.status == status && !(200 <= status < 300))
    && (result == Unreachable <==> post.TransportError?)
    && (result == Unbound <==>
          && post.Answer? && 200 <= post.status < 300
          && (post.body.executionId != request.executionId || post.body.archiveSha256 != request.archiveSha256))
  }

  lemma VerdictMeans(request: ExecutionRequest, post: Post)
    ensures Means(Verdict(request, post), request, post)
  {
  }

  function Clamped(retryAfter: RetryAfter): real
    requires retryAfter.Present?
  {
    var seconds := if retryAfter.seconds.Some? then retryAfter.seconds.value else 1.0;
    var capped := if seconds < 2.0 then seconds else 2.0;
    if capped > 0.0 then capped else 0.0
  }

  /** A number of seconds is obeyed from 0 to 2, and anything else counts as one second. */
  lemma ClampedIs(retryAfter: RetryAfter)
    requires retryAfter.Present?
    ensures retryAfter.seconds.None? ==> Clamped(retryAfter) == 1.0
    ensures retryAfter.seconds.Some? && 0.0 <= retryAfter.seconds.value <= 2.0 ==>
              Clamped(retryAfter) == retryAfter.seconds.value
    ensures retryAfter.seconds.Some? && retryAfter.seconds.value > 2.0 ==> Clamped(retryAfter) == 2.0
    ensures retryAfter.seconds.Some? && retryAfter.seconds.value < 0.0 ==> Clamped(retryAfter) == 0.0
  {
  }

  /** The waits after the first `n` posts: as long as the plane asked for, or longer with every lost post. */
  function Waited(posts: seq<Post>, n: nat): real
    requires n <= |posts| && forall k :: 0 <= k < n ==> Retryable(posts[k])
  {
    if n == 0 then 0.0
    else
      assert Retryable(posts[n - 1]);
      Waited(posts, n - 1) +
      match posts[n - 1]
      case TransportError => 0.25 * n as real
      case Answer(_, retryAfter, _) => Clamped(retryAfter)
  }

  /** No wait is longer than two seconds, or than a quarter of a second for each attempt so far. */
  lemma {:induction false} WaitedIsBounded(posts: seq<Post>, n: nat, most: real)
    requires n <= |posts| && forall k :: 0 <= k < n ==> Retryable(posts[k])
    requires most >= 2.0 + 0.25 * n as real
    ensures 0.0 <= Waited(posts, n) <= most * n as real
  {
    if n > 0 {
      assert Retryable(posts[n - 1]);
      WaitedIsBounded(posts, n - 1, most);
      OneMoreWait(n, most);
    }
  }

  lemma OneMoreWait(n: nat, most: real)
    requires n > 0
    ensures most * (n - 1) as real + most == most * n as real
  {
  }

  /** `posts[k]` is what the network gives the k-th post. The loop stops at the first post that is not retryable, or at
      the last one allowed. */
  method PostUntilAnswered(posts: seq<Post>, maxAttempts: int) returns (used: nat, slept: real)
    requires |posts| >= Max(1, maxAttempts)
    ensures 1 <= used <= Max(1, maxAttempts)
    ensures forall k :: 0 <= k < used - 1 ==> Retryable(posts[k])
    ensures Retryable(posts[used - 1]) ==> used == Max(1, maxAttempts)
    ensures slept == Waited(posts, used - 1)
  {
    slept := 0.0;
    var attempt := 0;
    while attempt < Max(1, maxAttempts)
      invariant 0 <= attempt <= Max(1, maxAttempts)
      invariant attempt == Max(1, maxAttempts) ==> attempt == 0
      invariant forall k :: 0 <= k < attempt ==> Retryable(posts[k])
      invariant slept == Waited(posts, attempt)
    {
      match posts[attempt] {
        case Answer(status, retryAfter, _) =>
          if status == 409 && retryAfter.Present? && attempt + 1 < maxAttempts {
            slept := slept + Clamped(retryAfter);
            attempt := attempt + 1;
            continue;
          }
          return attempt + 1, slept;
        case TransportError =>
          if attempt + 1 >= maxAttempts {
            return attempt + 1, slept;
          }
          slept := slept + 0.25 * (attempt + 1) as real;
      }
      attempt := attempt + 1;
    }
    assert false;
  }

  /** The retry budget is never exhausted without a verdict. */
  method Execute(request: ExecutionRequest, posts: seq<Post>, maxAttempts: int)
    returns (result: Result, used: nat, slept: real)
    requires |posts| >= Max(1, maxAttempts)
    ensures 1 <= used <= Max(1, maxAttempts)
    ensures forall k :: 0 <= k < used - 1 ==> Retryable(posts[k])
    ensures Retryable(posts[used - 1]) ==> used == Max(1, maxAttempts)
    ensures result == Verdict(request, posts[used - 1]) && Means(result, request, posts[used - 1])
    ensures slept == Waited(posts, used - 1)
    ensures 0.0 <= slept <= (2.0 + 0.25 * Max(1, maxAttempts) as real) * (used - 1) as real
  {
    used, slept := PostUntilAnswered(posts, maxAttempts);
    WaitedIsBounded(posts, used - 1, 2.0 + 0.25 * Max(1, maxAttempts) as real);
    VerdictMeans(request, posts[used - 1]);
    match posts[used - 1] {
      case TransportError => result := Unreachable;
      case Answer(status, _, body) =>
        if !(200 <= status < 300) {
          result := StatusError(status);
        } else if body.executionId != request.executionId || body.archiveSha256 != request.archiveSha256 {
          result := Unbound;
        } else {
          result := Returned(body);
        }
    }
  }

  // ----- The client and the plane together -----

  /** What a client receives when an answer of the plane reaches it. */
  predicate Carries(post: Post, reply: Plane.Reply) {
    && post.Answer?
    && match reply
       case Ok(response, _) => post.status == 200 && post.retryAfter == Absent && post.body == response
       case Error(status, retryAfter) =>
         post.status == status && post.retryAfter == if retryAfter then Present(Some(1.0)) else Absent
  }

  /** The client posts again exactly when its execution is running for this very request; an id bound to another
      request and a used-up assertion end the call at once. */
  lemma RetriedIffBusy(
    settings: Plane.Settings, retention: Option<int>, steps: seq<Plane.Step>, k: nat, request: ExecutionRequest,
    post: Post)
    requires var w := Plane.Play(settings, retention, steps);
             && k < |w.origins| && w.origins[k].FromHandler? && k < |w.answers|
             && w.answers[k].Answered? && Carries(post, w.answers[k].reply)
    ensures var w := Plane.Play(settings, retention, steps);
            && k < |w.run.ops| && w.run.ops[k].Claiming?
            && var run, q, now := w.run, w.run.ops[k].q, w.run.ops[k].at;
            && (Retryable(post) <==> Busy(run, k, q, now))
            && (Verdict(request, post) == StatusError(409) <==>
                  Busy(run, k, q, now) || BoundElsewhere(run, k, q, now))
            && (Verdict(request, post) == StatusError(401) <==> UsedUp(run, k, q, now))
            && (Verdict(request, post) in {Unbound, Returned(post.body)} <==> AlreadyCommitted(run, k, q, now))
  {
    Plane.AnswersIff(settings, retention, steps, k);
    var reply := Plane.Play(settings, retention, steps).answers[k].reply;
    CarriedMeans(request, post, reply);
    if reply.Ok? {
      assert Plane.Answered(reply) == Plane.Answered(Plane.Ok(reply.response, true));
    }
  }

  /** What the client makes of each answer. */
  lemma CarriedMeans(request: ExecutionRequest, post: Post, reply: Plane.Reply)
    requires Carries(post, reply)
    requires reply in {Plane.Error(409, true), Plane.Error(409, false), Plane.Error(401, false)} || reply.Ok?
    ensures Retryable(post) <==> reply == Plane.Error(409, true)
    ensures Verdict(request, post) == StatusError(409) <==> reply in {Plane.Error(409, true), Plane.Error(409, false)}
    ensures Verdict(request, post) == StatusError(401) <==> reply == Plane.Error(401, false)
    ensures Verdict(request, post) in {Unbound, Returned(post.body)} <==> reply.Ok?
  {
  }

  /** It never posts again on the answer of a worker: it has the result, or another worker has taken over. */
  lemma WorkersAnswerIsFinal(
    settings: Plane.Settings, retention: Option<int>, steps: seq<Plane.Step>, k: nat, post: Post)
    requires var w := Plane.Play(settings, retention, steps);
             && k < |w.origins| && w.origins[k].FromWorker? && k < |w.answers|
             && w.answers[k].Answered? && Carries(post, w.answers[k].reply)
    ensures !Retryable(post)
  {
    Plane.WorkerAnswersIff(settings, retention, steps, k);
  }

  /** Every successful answer the client got is one the plane sent for its execution. */
  ghost predicate SentByPlane(w: Plane.World, request: ExecutionRequest, posts: seq<Post>) {
    forall k :: 0 <= k < |posts| && posts[k].Answer? && 200 <= posts[k].status < 300 ==>
      exists r: nat :: r < |w.replies|
        && w.replies[r].id == request.executionId && w.replies[r].response == posts[k].body
  }

  /** How long an assertion can be used, from its first use to a claim made within `d` of its last. */
  function Usable(a: Plane.Assertion, d: nat): int {
    a.exp - a.issuedAt + 2 * Plane.CLOCK_SKEW_SECONDS + d
  }

  /** What one call of the client amounts to, whatever it retries under its one execution id and one assertion: a
      response it returns was committed for its execution, it never stands for a failed or unbound post, and when
      a grant keeps the execution for longer than the assertion can be used, at most one backend run was started. */
  lemma CallOutcome(
    settings: Plane.Settings, retention: Option<int>, steps: seq<Plane.Step>, request: ExecutionRequest,
    a: Plane.Assertion, posts: seq<Post>, used: nat, result: Result, d: nat)
    requires 1 <= used <= |posts| && result == Verdict(request, posts[used - 1])
    requires SentByPlane(Plane.Play(settings, retention, steps), request, posts)
    requires a.hash == Sha256(request)
    ensures var w := Plane.Play(settings, retention, steps);
            && (result.Returned? ==>
                  && result.response.executionId == request.executionId
                  && result.response.archiveSha256 == request.archiveSha256
                  && exists i: nat ::
                       w.run.Commits(i, request.executionId) && w.run.ops[i].c.response == result.response)
            && (Plane.Prompt(w, a, d) && Plane.HoldSeconds(settings, retention, request) > Usable(a, d) ==>
                  Plane.RunCount(settings, w, a, |w.origins|) <= 1)
  {
    var w := Plane.Play(settings, retention, steps);
    if result.Returned? {
      var r: nat :| r < |w.replies|
        && w.replies[r].id == request.executionId && w.replies[r].response == posts[used - 1].body;
      var i := Plane.CommittedBeforeReply(settings, retention, steps, r);
      assert w.run.Commits(i, request.executionId) && w.run.ops[i].c.response == result.response;
    }
    if Plane.Prompt(w, a, d) && Plane.HoldSeconds(settings, retention, request) > Usable(a, d) {
      Plane.LongLeaseRunsOnce(settings, retention, steps, a, d);
    }
  }

  /** Two calls for one execution that both return give the same response, over the memory store. */
  lemma CallsAgree(
    settings: Plane.Settings, steps: seq<Plane.Step>, request: ExecutionRequest, other: ExecutionRequest,
    posts: seq<Post>, used: nat, result: Result, posts': seq<Post>, used': nat, result': Result)
    requires request.executionId == other.executionId
    requires 1 <= used <= |posts| && result == Verdict(request, posts[used - 1]) && result.Returned?
    requires 1 <= used' <= |posts'| && result' == Verdict(other, posts'[used' - 1]) && result'.Returned?
    requires SentByPlane(Plane.Play(settings, None, steps), request, posts)
    requires SentByPlane(Plane.Play(settings, None, steps), other, posts')
    ensures result.response == result'.response
  {
    var w := Plane.Play(settings, None, steps);
    var r: nat :| r < |w.replies|
      && w.replies[r].id == request.executionId && w.replies[r].response == posts[used - 1].body;
    var t: nat :| t < |w.replies|
      && w.replies[t].id == other.executionId && w.replies[t].response == posts'[used' - 1].body;
    Plane.OneResponsePerExecution(settings, steps, r, t);
  }
}
