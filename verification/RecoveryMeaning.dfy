/** The recovery queue and the worker's transaction, column by column. */
module RecoveryMeaning {
  import opened Sequences
  import opened Rules
  import opened Reconciliation
  import P = Publication
  import opened RecoveryQueues
  import opened Recovery

  /** The delay starts at the base and doubles with every failure, but never exceeds an hour. */
  lemma RetryDelayInSeconds(base: nat, attempt: nat)
    requires attempt > 0
    ensures RetryDelay(base, 1) == if base < 3600 then base else 3600
    ensures RetryDelay(base, attempt + 1) ==
      if 2 * RetryDelay(base, attempt) < 3600 then 2 * RetryDelay(base, attempt) else 3600
    ensures RetryDelay(30, 1) == 30 && RetryDelay(30, 2) == 60 && RetryDelay(30, 7) == 1920 && RetryDelay(30, 8) == 3600
  {
    RetryDelayIsExponential(base, attempt);
    RetryDelayIsExponential(base, attempt + 1);
    assert Power2(attempt) == 2 * Power2(attempt - 1);
    assert base * Power2(attempt) == 2 * (base * Power2(attempt - 1)) by {
      Twice(base, Power2(attempt - 1));
    }
    assert Power2(6) == 64 && Power2(7) == 128;
  }

  lemma Twice(base: int, x: int)
    ensures base * (2 * x) == 2 * (base * x)
  {
  }

  /** The request may be tried now. */
  predicate Due(r: Request, now: int) {
    r.status == PendingRequest && r.attemptCount < r.maxAttempts && r.nextAt <= now
  }

  /** Earlier due time, else earlier creation, else smaller id. */
  predicate Earlier(r: Request, i: int, s: Request, j: int) {
    r.nextAt < s.nextAt || (r.nextAt == s.nextAt && r.createdAt < s.createdAt) ||
    (r.nextAt == s.nextAt && r.createdAt == s.createdAt && i < j)
  }

  lemma ReadyKeyRead(q: Queue, i: int, j: int)
    requires i in q.requests && j in q.requests
    ensures KeyLess(ReadyKey(q, i), ReadyKey(q, j)) <==> Earlier(q.requests[i], i, q.requests[j], j)
  {
    var a, b := ReadyKey(q, i), ReadyKey(q, j);
    FirstDecides(a, b);
    FirstDecides(a[1..], b[1..]);
    assert a[1..][1..] == [N(i)] && b[1..][1..] == [N(j)];
    LastDecides(N(i), N(j));
  }

  /** The request that the worker takes: a due one, before every other due one. */
  lemma NextInFull(q: Queue, now: int, id: int)
    ensures IsNext(q, now, id) <==>
      id in q.requests && Due(q.requests[id], now) &&
      forall j :: j in q.requests && Due(q.requests[j], now) && j != id ==>
        Earlier(q.requests[id], id, q.requests[j], j)
  {
    forall j | id in q.requests && j in q.requests
      ensures KeyLess(ReadyKey(q, id), ReadyKey(q, j)) <==> Earlier(q.requests[id], id, q.requests[j], j)
    {
      ReadyKeyRead(q, id, j);
    }
  }

  /** A failed attempt leaves the request as it was but for its count, its error, its next time and, when the attempts
      are used up, its end. */
  lemma FailedInFull(q: Queue, id: int, error: string, now: int)
    requires History(q) && id in q.requests && q.requests[id].status == PendingRequest
    ensures var r, s := q.requests[id], Failed(q, id, error, now).requests[id];
      s.createdAt == r.createdAt && s.asOf == r.asOf && s.trigger == r.trigger && s.batch == r.batch &&
      s.attemptCount == r.attemptCount + 1 && s.maxAttempts == r.maxAttempts && s.baseDelay == r.baseDelay &&
      s.nextAt == now + RetryDelay(r.baseDelay, r.attemptCount + 1) && s.lastError == Some(error) &&
      s.resultRun == None &&
      (if r.attemptCount + 1 == r.maxAttempts then s.status == FailedRequest && s.completedAt == Some(now)
       else s.status == PendingRequest && s.completedAt == None)
    ensures Failed(q, id, error, now).attempts[id] ==
      q.attempts[id] + [Attempt(q.requests[id].attemptCount + 1, AttemptFailed(error))]
    ensures OthersKept(q, Failed(q, id, error, now), id)
  {
    assert RequestHistory(q.requests[id], q.attempts[id]);
  }

  lemma SucceededInFull(q: Queue, id: int, run: string, now: int)
    requires History(q) && id in q.requests && q.requests[id].status == PendingRequest
    ensures var r, s := q.requests[id], Succeeded(q, id, run, now).requests[id];
      s.createdAt == r.createdAt && s.asOf == r.asOf && s.trigger == r.trigger && s.batch == r.batch &&
      s.status == SucceededRequest && s.attemptCount == r.attemptCount + 1 && s.maxAttempts == r.maxAttempts &&
      s.baseDelay == r.baseDelay && s.nextAt == r.nextAt && s.lastError == None && s.resultRun == Some(run) &&
      s.completedAt == Some(now)
    ensures Succeeded(q, id, run, now).attempts[id] ==
      q.attempts[id] + [Attempt(q.requests[id].attemptCount + 1, AttemptSucceeded(run))]
    ensures OthersKept(q, Succeeded(q, id, run, now), id)
  {
    assert RequestHistory(q.requests[id], q.attempts[id]);
  }

  lemma RequeuedInFull(q: Queue, id: int, additional: nat, now: int)
    requires History(q) && id in q.requests && q.requests[id].status == FailedRequest
    ensures var r, s := q.requests[id], Requeued(q, id, additional, now).requests[id];
      s.createdAt == r.createdAt && s.asOf == r.asOf && s.trigger == r.trigger && s.batch == r.batch &&
      s.status == PendingRequest && s.attemptCount == r.attemptCount && s.maxAttempts == r.attemptCount + additional &&
      s.baseDelay == r.baseDelay && s.nextAt == now && s.lastError == r.lastError && s.resultRun == None &&
      s.completedAt == None
    ensures Requeued(q, id, additional, now).attempts == q.attempts
    ensures OthersKept(q, Requeued(q, id, additional, now), id)
  {
    assert RequestHistory(q.requests[id], q.attempts[id]);
  }

  // ---- The store ----

  /** A committed delivery adds its batch, its receipts and one request, due at once: five attempts, thirty seconds
      after the first failure. */
  lemma DeliveredInFull(s: Store, batch: int, receipts: seq<string>, request: int, asOf: int, now: int)
    ensures var t := Delivered(s, batch, receipts, request, asOf, now);
      t.batches == s.batches + {batch} && t.runs == s.runs && t.results == s.results && t.pointer == s.pointer &&
      t.receipts.Keys == s.receipts.Keys + set id | id in receipts &&
      (forall id :: id in t.receipts ==>
         t.receipts[id] == if id in receipts then batch else s.receipts[id]) &&
      t.queue.requests.Keys == s.queue.requests.Keys + {request} &&
      t.queue.attempts.Keys == s.queue.attempts.Keys + {request} && t.queue.attempts[request] == [] &&
      t.queue.requests[request] == Request(now, asOf, if receipts == [] then None else Some(receipts[0]), Some(batch),
                                           PendingRequest, 0, 5, 30, now, None, None, None)
    ensures var t := Delivered(s, batch, receipts, request, asOf, now);
      (forall id :: id in s.queue.requests && id != request ==> t.queue.requests[id] == s.queue.requests[id]) &&
      forall id :: id in s.queue.attempts && id != request ==> t.queue.attempts[id] == s.queue.attempts[id]
  {
  }

  /** A fault interrupts the publishing transaction at each of its seven points before the commit, and at no other. */
  lemma PreCommitInFull(f: Fault)
    ensures PreCommit(f) <==>
      f != NoFault &&
      (f.point == AfterValidation || f.point == AfterRunInsert || f.point == AfterResultInsert ||
       f.point == BeforePointerUpdate || f.point == AfterPointerUpdate || f.point == AfterQueueCompletion ||
       f.point == BeforeCommit)
  {
  }

  ghost predicate Passes(x: ReconciliationResult, runId: string, r: Request) {
    x.run.runId == runId && x.run.detectedAt == r.asOf && P.Publishable(x) && P.ArithmeticHolds(x)
  }

  /** The worker publishes what it built for this run and the time of the request, if that passes both checks. */
  lemma PublishesInFull(build: Builder, s: Store, id: int, runId: string)
    requires id in s.queue.requests
    ensures Publishes(build, s, id, runId) <==>
      exists x ::
      build(s.batches, Run(runId, s.queue.requests[id].asOf)) == Some(x) && Passes(x, runId, s.queue.requests[id])
  {
  }

  /** The publishing transaction adds the published run and its result under the run's id, points at it and completes
      the request; it changes nothing else. */
  lemma PublishRunInFull(s: Store, id: int, runId: string, inputs: set<int>, x: ReconciliationResult,
                         fingerprint: Fingerprinter, now: int)
    requires id in s.queue.requests
    ensures var t := PublishRun(s, id, runId, inputs, x, fingerprint, now);
      t.batches == s.batches && t.receipts == s.receipts && t.pointer == Some(runId) &&
      t.queue == Succeeded(s.queue, id, runId, now) && t.runs.Keys == s.runs.Keys + {runId} &&
      t.runs[runId] == RunRow(PublishedRun, s.queue.requests[id].asOf, fingerprint(x)) &&
      t.results.Keys == s.results.Keys + {runId} && t.results[runId] == StoredResult(inputs, fingerprint(x), x) &&
      (forall other :: other in s.runs && other != runId ==> t.runs[other] == s.runs[other]) &&
      forall other :: other in s.results && other != runId ==> t.results[other] == s.results[other]
  {
  }

  // ---- Inspection of any store, consistent or not ----

  /** The request's trigger receipt belongs to a committed batch. */
  predicate FromCommittedBatch(s: Store, r: Request) {
    exists id :: id in s.receipts && r.trigger == Some(id) && s.receipts[id] in s.batches
  }

  /** A completed request points at a published run that has a result. */
  predicate HasResult(s: Store, r: Request) {
    exists run :: run in s.runs && run in s.results && r.resultRun == Some(run) && r.completedAt.Some? &&
      s.runs[run].status == PublishedRun
  }

  /** The advice on a request, and each way the stored state can contradict itself. */
  lemma InspectInFull(s: Store, fingerprint: Fingerprinter, id: int, now: int, connected: bool)
    ensures var a := Inspect(s, fingerprint, id, now, connected);
      (a == Success(CheckAgain) <==> !connected) &&
      (a == Success(InvestigateMissingRequest) <==> connected && id !in s.queue.requests)
    ensures connected && id in s.queue.requests ==>
      (Inspect(s, fingerprint, id, now, connected) == Failure(UncommittedSource) <==>
       !FromCommittedBatch(s, s.queue.requests[id]))
    ensures connected && id in s.queue.requests && FromCommittedBatch(s, s.queue.requests[id]) ==>
      Inspect(s, fingerprint, id, now, connected) == Advice(s, fingerprint, s.queue.requests[id], now)
  {
  }

  function Advice(s: Store, fingerprint: Fingerprinter, r: Request, now: int): Result<Action, StateError> {
    if r.status == SucceededRequest && !HasResult(s, r) then Failure(MissingResult)
    else if r.status == SucceededRequest then
      var stored := s.results[r.resultRun.value];
      if s.runs[r.resultRun.value].resultHash != stored.logicalHash then Failure(HashesDisagree)
      else if fingerprint(stored.payload) != stored.logicalHash then Failure(ArtifactInvalid)
      else Success(DoNotRepeat)
    else if r.status == FailedRequest then
      if r.resultRun == None && r.completedAt != None && r.lastError != None then Success(ManualRequeue)
      else Failure(InconsistentFailure)
    else if r.resultRun == None && r.completedAt == None && r.attemptCount < r.maxAttempts then
      Success(if now < r.nextAt then WaitForRetry else RetryNow)
    else Failure(InconsistentPending)
  }
}
