/** The durable recovery queue: requests, their attempts, retry delays and manual requeues. */
module RecoveryQueues {
  import opened Sequences

  datatype RequestStatus = PendingRequest | SucceededRequest | FailedRequest

  datatype AttemptOutcome = AttemptSucceeded(run: string) | AttemptFailed(error: string)

  datatype Attempt = Attempt(number: nat, outcome: AttemptOutcome)

  /** `trigger` is the first receipt of the delivery that caused the request, if it had any row. */
  datatype Request = Request(createdAt: int, asOf: int, trigger: Option<string>, batch: Option<int>,
                             status: RequestStatus,
                             attemptCount: nat, maxAttempts: nat, baseDelay: nat, nextAt: int,
                             lastError: Option<string>,
                             resultRun: Option<string>, completedAt: Option<int>)

  datatype Queue = Queue(requests: map<int, Request>, attempts: map<int, seq<Attempt>>)

  datatype QueueError = NoSuchRequest | NotPending | AttemptLimitExceeded | NotFailed | NonPositiveAttempts

  const MAX_ATTEMPTS := 5
  const BASE_DELAY := 30
  const LONGEST_DELAY := 3600

  // ---- Retry delays ----

  function Power2(n: nat): nat {
    if n == 0 then 1 else 2 * Power2(n - 1)
  }

  function Min(a: int, b: int): int {
    if a < b then a else b
  }

  /** The exponent is capped at 12. */
  function RetryDelay(base: nat, attempt: nat): int
    requires attempt > 0
  {
    Min(LONGEST_DELAY, base * Power2(Min(attempt - 1, 12)))
  }

  lemma {:induction false} Power2Grows(m: nat, n: nat)
    requires m <= n
    ensures Power2(m) <= Power2(n)
  {
    if m < n {
      Power2Grows(m, n - 1);
    }
  }

  /** The cap on the exponent never shows: the delay is the doubling delay, cut at one hour. */
  lemma RetryDelayIsExponential(base: nat, attempt: nat)
    requires attempt > 0
    ensures RetryDelay(base, attempt) == Min(LONGEST_DELAY, base * Power2(attempt - 1))
  {
    if attempt - 1 > 12 {
      assert Power2(12) == 4096;
      Power2Grows(12, attempt - 1);
      if base > 0 {
        assert base * Power2(12) >= Power2(12) && base * Power2(attempt - 1) >= Power2(attempt - 1) by {
          Scaled(base, Power2(12));
          Scaled(base, Power2(attempt - 1));
        }
      }
    }
  }

  lemma Scaled(base: nat, x: nat)
    requires base > 0
    ensures base * x >= x
  {
    assert base * x == (base - 1) * x + x;
  }

  // ---- Row updates ----

  function NewRequest(trigger: Option<string>, batch: Option<int>, asOf: int, now: int): Request {
    Request(now, asOf, trigger, batch, PendingRequest, 0, MAX_ATTEMPTS, BASE_DELAY, now, None, None, None)
  }

  function Enqueued(q: Queue, id: int, r: Request): Queue {
    Queue(q.requests[id := r], q.attempts[id := []])
  }

  function AttemptsOf(q: Queue, id: int): seq<Attempt> {
    if id in q.attempts then q.attempts[id] else []
  }

  function WithAttempt(q: Queue, id: int, r: Request, outcome: AttemptOutcome): Queue
    requires id in q.requests
  {
    Queue(q.requests[id := r],
          q.attempts[id := AttemptsOf(q, id) + [Attempt(q.requests[id].attemptCount + 1, outcome)]])
  }

  /** The queue after the publishing transaction completes the request. */
  function Succeeded(q: Queue, id: int, run: string, now: int): Queue
    requires id in q.requests
  {
    var r := q.requests[id];
    WithAttempt(q, id, r.(status := SucceededRequest, attemptCount := r.attemptCount + 1, lastError := None,
                          resultRun := Some(run),
                          completedAt := Some(now)), AttemptSucceeded(run))
  }

  /** The queue after a failed attempt: pending again after a delay, or exhausted. */
  function Failed(q: Queue, id: int, error: string, now: int): Queue
    requires id in q.requests
  {
    var r := q.requests[id];
    var number := r.attemptCount + 1;
    var exhausted := number >= r.maxAttempts;
    WithAttempt(q, id, r.(attemptCount := number, lastError := Some(error), status := if exhausted then FailedRequest
                          else PendingRequest,
                          nextAt := now + RetryDelay(r.baseDelay, number), completedAt := if exhausted then Some(now)
                          else None),
                AttemptFailed(error))
  }

  function Requeued(q: Queue, id: int, additional: nat, now: int): Queue
    requires id in q.requests
  {
    var r := q.requests[id];
    q.(requests := q.requests[id :=
                              r.(status := PendingRequest, maxAttempts := r.attemptCount + additional, nextAt := now,
                                 completedAt := None)])
  }

  predicate Ready(r: Request, now: int) {
    r.status == PendingRequest && r.attemptCount < r.maxAttempts && r.nextAt <= now
  }

  function ReadyKey(q: Queue, id: int): Key
    requires id in q.requests
  {
    [N(q.requests[id].nextAt), N(q.requests[id].createdAt), N(id)]
  }

  /** The eligible request that comes first by due time, creation time and id. */
  ghost predicate IsNext(q: Queue, now: int, id: int) {
    id in q.requests && Ready(q.requests[id], now) &&
    forall j :: j in q.requests && Ready(q.requests[j], now) ==> j == id || KeyLess(ReadyKey(q, id), ReadyKey(q, j))
  }

  // ---- History ----

  /** One request and its attempts: numbered without gaps, at most one success and only as the last, and a
      status that agrees with the row's other columns and with the attempts. */
  ghost predicate RequestHistory(r: Request, attempts: seq<Attempt>) {
    |attempts| == r.attemptCount && (forall i :: 0 <= i < |attempts| ==> attempts[i].number == i + 1) &&
    (forall i :: 0 <= i < |attempts| && attempts[i].outcome.AttemptSucceeded? ==>
     i == |attempts| - 1 && r.status == SucceededRequest) &&
    r.maxAttempts >= 1 &&
    match r.status
    case PendingRequest => r.attemptCount < r.maxAttempts && r.resultRun.None? && r.completedAt.None?
    case FailedRequest => r.attemptCount <= r.maxAttempts && r.resultRun.None? && r.completedAt.Some? &&
      r.lastError.Some?
    case SucceededRequest =>
      r.attemptCount <= r.maxAttempts && r.resultRun.Some? && r.completedAt.Some? && attempts != [] &&
      attempts[|attempts| - 1].outcome == AttemptSucceeded(r.resultRun.value)
  }

  ghost predicate History(q: Queue) {
    q.attempts.Keys == q.requests.Keys && forall id :: id in q.requests ==>
    RequestHistory(q.requests[id], q.attempts[id])
  }

  lemma EnqueuedHistory(q: Queue, id: int, trigger: Option<string>, batch: Option<int>, asOf: int, now: int)
    requires History(q) && id !in q.requests
    ensures History(Enqueued(q, id, NewRequest(trigger, batch, asOf, now)))
  {
  }

  lemma SucceededHistory(q: Queue, id: int, run: string, now: int)
    requires History(q) && id in q.requests && q.requests[id].status == PendingRequest
    ensures History(Succeeded(q, id, run, now))
  {
    assert RequestHistory(q.requests[id], q.attempts[id]);
  }

  lemma FailedHistory(q: Queue, id: int, error: string, now: int)
    requires History(q) && id in q.requests && q.requests[id].status == PendingRequest
    ensures History(Failed(q, id, error, now))
  {
    assert RequestHistory(q.requests[id], q.attempts[id]);
  }

  lemma RequeuedHistory(q: Queue, id: int, additional: nat, now: int)
    requires History(q) && id in q.requests && q.requests[id].status == FailedRequest && additional >= 1
    ensures History(Requeued(q, id, additional, now))
  {
    assert RequestHistory(q.requests[id], q.attempts[id]);
  }

  /** Nothing but one request and its attempts changed. */
  ghost predicate OthersKept(before: Queue, after: Queue, id: int) {
    after.requests.Keys == before.requests.Keys && after.attempts.Keys == before.attempts.Keys &&
    forall j :: j != id && j in before.requests && j in before.attempts ==>
      after.requests[j] == before.requests[j] && after.attempts[j] == before.attempts[j]
  }

  /** The request gained one attempt, numbered next, with this outcome. */
  ghost predicate OneMoreAttempt(before: Queue, after: Queue, id: int, outcome: AttemptOutcome) {
    id in before.requests && id in after.requests && id in before.attempts && id in after.attempts &&
    OthersKept(before, after, id) &&
    after.requests[id].attemptCount == before.requests[id].attemptCount + 1 &&
    after.attempts[id] == before.attempts[id] + [Attempt(|before.attempts[id]| + 1, outcome)]
  }

  predicate CompletedBy(r: Request, run: string, now: int) {
    r.status == SucceededRequest && r.resultRun == Some(run) && r.completedAt == Some(now) && r.lastError.None?
  }

  /** Due again after the doubling delay, or exhausted when the attempts are used up. */
  predicate Postponed(r: Request, error: string, now: int) {
    r.lastError == Some(error) && r.attemptCount > 0 &&
    r.status == (if r.attemptCount == r.maxAttempts then FailedRequest else PendingRequest) &&
    r.nextAt == now + Min(LONGEST_DELAY, r.baseDelay * Power2(r.attemptCount - 1))
  }

  /** Due now, with exactly `additional` attempts left. */
  predicate Granted(r: Request, additional: int, now: int) {
    r.status == PendingRequest && r.maxAttempts - r.attemptCount == additional && r.nextAt == now
  }

  /** The queue operations, each inside the caller's transaction. */
  class RecoveryQueue {
    var state: Queue

    ghost predicate Valid()
      reads this
    {
      History(state)
    }

    constructor ()
      ensures Valid() && state == Queue(map[], map[])
    {
      state := Queue(map[], map[]);
    }

    /** The queue as a connection finds it. */
    constructor Over(q: Queue)
      requires History(q)
      ensures Valid() && state == q
    {
      state := q;
    }

    /** The first eligible request, if any. */
    method NextReady(now: int) returns (next: Option<int>)
      ensures next.Some? ==> IsNext(state, now, next.value)
      ensures next.None? ==> forall id :: id in state.requests ==> !Ready(state.requests[id], now)
    {
      var eligible := set id | id in state.requests && Ready(state.requests[id], now);
      next := None;
      var rest := eligible;
      while rest != {}
        invariant rest <= eligible
        invariant next.Some? ==> next.value in eligible
        invariant next.None? ==> rest == eligible
        invariant next.Some? ==> forall j :: j in eligible && j !in rest ==>
          j == next.value || KeyLess(ReadyKey(state, next.value), ReadyKey(state, j))
        decreases rest
      {
        Inhabited(rest);
        var id :| id in rest;
        if next.None? || KeyLess(ReadyKey(state, id), ReadyKey(state, next.value)) {
          Overtakes(state, eligible, rest, next, id);
          next := Some(id);
        } else {
          ReadyKeysDiffer(state, id, next.value);
        }
        rest := rest - {id};
      }
      assert forall id :: id in state.requests && Ready(state.requests[id], now) ==> id in eligible;
    }

    method MarkSucceeded(id: int, run: string, now: int) returns (r: Result<(), QueueError>)
      requires Valid()
      modifies this
      ensures Valid()
      ensures r.Success? <==> id in old(state).requests && old(state).requests[id].status == PendingRequest
      ensures r.Failure? ==> r.error == if id in old(state).requests then NotPending else NoSuchRequest
      ensures state == if r.Success? then Succeeded(old(state), id, run, now) else old(state)
      ensures r.Success? ==>
        OneMoreAttempt(old(state), state, id, AttemptSucceeded(run)) && CompletedBy(state.requests[id], run, now)
    {
      if id !in state.requests {
        return Failure(NoSuchRequest);
      }
      var request := state.requests[id];
      if request.status != PendingRequest {
        return Failure(NotPending);
      }
      assert RequestHistory(request, state.attempts[id]);
      if request.attemptCount + 1 > request.maxAttempts {
        return Failure(AttemptLimitExceeded);
      }
      SucceededHistory(state, id, run, now);
      state := Succeeded(state, id, run, now);
      r := Success(());
    }

    /** Records one failed attempt; a request that is no longer pending is never overwritten. */
    method RecordFailure(id: int, error: string, now: int) returns (r: Result<(), QueueError>)
      requires Valid()
      modifies this
      ensures Valid()
      ensures r == if id in old(state).requests then Success(()) else Failure(NoSuchRequest)
      ensures state == if id in old(state).requests && old(state).requests[id].status == PendingRequest
                       then Failed(old(state), id, error, now) else old(state)
      ensures id in old(state).requests && old(state).requests[id].status == PendingRequest ==>
        OneMoreAttempt(old(state), state, id, AttemptFailed(error)) && Postponed(state.requests[id], error, now)
    {
      if id !in state.requests {
        return Failure(NoSuchRequest);
      }
      if state.requests[id].status != PendingRequest {
        return Success(());
      }
      FailedHistory(state, id, error, now);
      assert RequestHistory(state.requests[id], state.attempts[id]);
      RetryDelayIsExponential(state.requests[id].baseDelay, state.requests[id].attemptCount + 1);
      state := Failed(state, id, error, now);
      r := Success(());
    }

    method RequeueFailed(id: int, additional: int, now: int) returns (r: Result<(), QueueError>)
      requires Valid()
      modifies this
      ensures Valid()
      ensures r.Success? <==>
        additional >= 1 && id in old(state).requests && old(state).requests[id].status == FailedRequest
      ensures r.Failure? ==> r.error == if additional < 1 then NonPositiveAttempts else NotFailed
      ensures state == if r.Success? then Requeued(old(state), id, additional, now) else old(state)
      ensures r.Success? ==>
        id in state.requests && OthersKept(old(state), state, id) && state.attempts == old(state).attempts
      ensures r.Success? ==> Granted(state.requests[id], additional, now)
    {
      if additional < 1 {
        return Failure(NonPositiveAttempts);
      }
      if id !in state.requests || state.requests[id].status != FailedRequest {
        return Failure(NotFailed);
      }
      RequeuedHistory(state, id, additional, now);
      state := Requeued(state, id, additional, now);
      r := Success(());
    }
  }

  lemma ReadyKeysDiffer(q: Queue, i: int, j: int)
    requires i in q.requests && j in q.requests
    ensures i == j || KeyLess(ReadyKey(q, i), ReadyKey(q, j)) || KeyLess(ReadyKey(q, j), ReadyKey(q, i))
  {
    KeyLessOrder(ReadyKey(q, i), ReadyKey(q, j), ReadyKey(q, i));
    assert ReadyKey(q, i)[2] == N(i) && ReadyKey(q, j)[2] == N(j);
  }

  lemma Overtakes(q: Queue, eligible: set<int>, rest: set<int>, next: Option<int>, id: int)
    requires eligible <= q.requests.Keys && rest <= eligible && id in rest
    requires next.None? ==> rest == eligible
    requires next.Some? ==> next.value in eligible && KeyLess(ReadyKey(q, id), ReadyKey(q, next.value))
    requires next.Some? ==> forall j :: j in eligible && j !in rest ==>
      j == next.value || KeyLess(ReadyKey(q, next.value), ReadyKey(q, j))
    ensures forall j :: j in eligible && j !in rest ==> KeyLess(ReadyKey(q, id), ReadyKey(q, j))
  {
    forall j | j in eligible && j !in rest
      ensures KeyLess(ReadyKey(q, id), ReadyKey(q, j))
    {
      if j != next.value {
        KeyLessOrder(ReadyKey(q, id), ReadyKey(q, next.value), ReadyKey(q, j));
      }
    }
  }
}
