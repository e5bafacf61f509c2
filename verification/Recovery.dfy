/** The recovery worker: one transaction that rebuilds, validates, publishes and completes a request, with
    named failure points; and the inspection that decides what to do about a request. */
module Recovery {
  import opened Sequences
  import opened Rules
  import opened Reconciliation
  import opened Publication
  import opened RecoveryQueues

  datatype RunStatus = CandidateRun | PublishedRun

  datatype RunRow = RunRow(status: RunStatus, asOf: int, resultHash: string)

  /** `inputs` are the batches whose evidence the run was built from. */
  datatype StoredResult = StoredResult(inputs: set<int>, logicalHash: string, payload: ReconciliationResult)

  /** `batches` are the committed ones, `receipts` their receipts. */
  datatype Store = Store(batches: set<int>, receipts: map<string, int>, queue: Queue, runs: map<string, RunRow>,
                         results: map<string, StoredResult>, pointer: Option<string>)

  /** Where a run can be interrupted, in order. `CommitUnconfirmed` loses the answer to a commit that took effect. */
  datatype Point =
    | AfterValidation
    | AfterRunInsert
    | AfterResultInsert
    | BeforePointerUpdate
    | AfterPointerUpdate
    | AfterQueueCompletion
    | BeforeCommit
    | CommitUnconfirmed
    | AfterCommit

  datatype Fault = NoFault | Raise(point: Point) | Crash(point: Point)

  datatype RunOutcome = NoWork | Completed(request: int, run: string) | AttemptRecorded(failed: int) | Interrupted

  type Builder = (set<int>, Run) -> Option<ReconciliationResult>

  type Fingerprinter = ReconciliationResult -> string

  predicate PreCommit(f: Fault) {
    f != NoFault && f.point != CommitUnconfirmed && f.point != AfterCommit
  }

  // ---- The transaction ----

  /** The candidate passes every check the worker makes before it writes anything. */
  ghost predicate Publishes(build: Builder, s: Store, id: int, runId: string)
    requires id in s.queue.requests
  {
    var run := Run(runId, s.queue.requests[id].asOf);
    build(s.batches, run).Some? && build(s.batches, run).value.run == run &&
    Publishable(build(s.batches, run).value) && ArithmeticHolds(build(s.batches, run).value)
  }

  /** Everything the publishing transaction commits. */
  function PublishRun(s: Store, id: int, runId: string, inputs: set<int>, x: ReconciliationResult,
                      fingerprint: Fingerprinter, now: int): Store
    requires id in s.queue.requests
  {
    s.(runs := s.runs[runId := RunRow(PublishedRun, s.queue.requests[id].asOf, fingerprint(x))],
       results := s.results[runId := StoredResult(inputs, fingerprint(x), x)],
       pointer := Some(runId),
       queue := Succeeded(s.queue, id, runId, now))
  }

  /** What one committed ingestion adds: the batch, its receipts and a pending request that names the first of them. */
  function Delivered(s: Store, batch: int, receipts: seq<string>, request: int, asOf: int, now: int): Store {
    s.(batches := s.batches + {batch},
       receipts := s.receipts + map id | id in receipts :: batch,
       queue := Enqueued(s.queue, request,
                         NewRequest(if receipts == [] then None else Some(receipts[0]), Some(batch), asOf, now)))
  }

  // ---- What every committed state satisfies ----

  ghost predicate RunCommitted(s: Store, fingerprint: Fingerprinter, run: string) {
    run in s.runs && run in s.results && s.runs[run].status == PublishedRun &&
    s.runs[run].resultHash == s.results[run].logicalHash == fingerprint(s.results[run].payload)
  }

  ghost predicate Traceable(s: Store, r: Request) {
    r.trigger.Some? ==> r.trigger.value in s.receipts && s.receipts[r.trigger.value] in s.batches
  }

  ghost predicate Consistent(s: Store, fingerprint: Fingerprinter) {
    History(s.queue) && (s.pointer.Some? ==> RunCommitted(s, fingerprint, s.pointer.value)) &&
    forall id :: id in s.queue.requests ==>
      Traceable(s, s.queue.requests[id]) &&
      (s.queue.requests[id].status == SucceededRequest ==>
       RunCommitted(s, fingerprint, s.queue.requests[id].resultRun.value))
  }

  /** The batch is among the inputs of the published run, or a request for it is still open. */
  ghost predicate Accounted(s: Store, batch: int) {
    (s.pointer.Some? && s.pointer.value in s.results && batch in s.results[s.pointer.value].inputs) ||
    exists id ::
    id in s.queue.requests && s.queue.requests[id].batch == Some(batch) &&
    s.queue.requests[id].status != SucceededRequest
  }

  ghost predicate NothingLost(s: Store) {
    forall b :: b in s.batches ==> Accounted(s, b)
  }

  lemma PublishedConsistent(s: Store, id: int, runId: string, inputs: set<int>, x: ReconciliationResult,
                            fingerprint: Fingerprinter, now: int)
    requires Consistent(s, fingerprint) && id in s.queue.requests && s.queue.requests[id].status == PendingRequest
    requires runId !in s.runs && runId !in s.results
    ensures Consistent(PublishRun(s, id, runId, inputs, x, fingerprint, now), fingerprint)
    ensures inputs == s.batches ==> NothingLost(PublishRun(s, id, runId, inputs, x, fingerprint, now))
  {
    SucceededHistory(s.queue, id, runId, now);
    var after := PublishRun(s, id, runId, inputs, x, fingerprint, now);
    forall j | j in after.queue.requests && after.queue.requests[j].status == SucceededRequest
      ensures RunCommitted(after, fingerprint, after.queue.requests[j].resultRun.value)
    {
      if j != id {
        assert RunCommitted(s, fingerprint, s.queue.requests[j].resultRun.value);
      }
    }
  }

  /** A failed attempt touches nothing but its request, which stays open. */
  lemma FailedConsistent(s: Store, id: int, error: string, fingerprint: Fingerprinter, now: int)
    requires Consistent(s, fingerprint) && id in s.queue.requests && s.queue.requests[id].status == PendingRequest
    ensures Consistent(s.(queue := Failed(s.queue, id, error, now)), fingerprint)
    ensures NothingLost(s) ==> NothingLost(s.(queue := Failed(s.queue, id, error, now)))
  {
    FailedHistory(s.queue, id, error, now);
    var after := s.(queue := Failed(s.queue, id, error, now));
    forall b | b in s.batches && Accounted(s, b)
      ensures Accounted(after, b)
    {
      StillOpen(s, after, b);
    }
  }

  lemma StillOpen(s: Store, after: Store, b: int)
    requires Accounted(s, b) && after.pointer == s.pointer && after.results == s.results
    requires forall id :: id in s.queue.requests && s.queue.requests[id].status != SucceededRequest ==>
      id in after.queue.requests && after.queue.requests[id].status != SucceededRequest &&
      after.queue.requests[id].batch == s.queue.requests[id].batch
    ensures Accounted(after, b)
  {
    if !(s.pointer.Some? && s.pointer.value in s.results && b in s.results[s.pointer.value].inputs) {
      var id :| id in s.queue.requests && s.queue.requests[id].batch == Some(b) &&
        s.queue.requests[id].status != SucceededRequest;
      assert id in after.queue.requests && after.queue.requests[id].batch == Some(b);
    }
  }

  lemma RequeuedConsistent(s: Store, id: int, additional: nat, fingerprint: Fingerprinter, now: int)
    requires Consistent(s, fingerprint) && id in s.queue.requests && s.queue.requests[id].status == FailedRequest &&
      additional >= 1
    ensures Consistent(s.(queue := Requeued(s.queue, id, additional, now)), fingerprint)
    ensures NothingLost(s) ==> NothingLost(s.(queue := Requeued(s.queue, id, additional, now)))
  {
    RequeuedHistory(s.queue, id, additional, now);
    var after := s.(queue := Requeued(s.queue, id, additional, now));
    forall b | b in s.batches && Accounted(s, b)
      ensures Accounted(after, b)
    {
      StillOpen(s, after, b);
    }
  }

  lemma DeliveredConsistent(s: Store, batch: int, receipts: seq<string>, request: int, asOf: int,
                            fingerprint: Fingerprinter, now: int)
    requires Consistent(s, fingerprint) && request !in s.queue.requests && forall id :: id in receipts ==>
      id !in s.receipts
    ensures Consistent(Delivered(s, batch, receipts, request, asOf, now), fingerprint)
    ensures NothingLost(s) ==> NothingLost(Delivered(s, batch, receipts, request, asOf, now))
  {
    var after := Delivered(s, batch, receipts, request, asOf, now);
    EnqueuedHistory(s.queue, request, after.queue.requests[request].trigger, Some(batch), asOf, now);
    forall id | id in after.queue.requests
      ensures Traceable(after, after.queue.requests[id])
    {
      if id != request {
        assert Traceable(s, s.queue.requests[id]);
      }
    }
    forall b | NothingLost(s) && b in after.batches
      ensures Accounted(after, b)
    {
      if b in s.batches {
        StillOpen(s, after, b);
      } else {
        assert after.queue.requests[request].batch == Some(b);
      }
    }
  }

  // ---- The worker ----

  class FullRebuildRecovery {
    const build: Builder
    const fingerprint: Fingerprinter
    var store: Store

    ghost predicate Valid()
      reads this
    {
      Consistent(store, fingerprint) && NothingLost(store)
    }

    constructor (build: Builder, fingerprint: Fingerprinter)
      ensures Valid() && this.build == build && this.fingerprint == fingerprint
      ensures store == Store({}, map[], Queue(map[], map[]), map[], map[], None)
    {
      this.build := build;
      this.fingerprint := fingerprint;
      store := Store({}, map[], Queue(map[], map[]), map[], map[], None);
    }

    /** Builds the candidate and makes every check on it. */
    method CheckedCandidate(id: int, runId: string) returns (x: Option<ReconciliationResult>)
      requires id in store.queue.requests
      ensures x == if Publishes(build, store, id, runId)
        then build(store.batches, Run(runId, store.queue.requests[id].asOf)) else None
    {
      var asOf := store.queue.requests[id].asOf;
      x := build(store.batches, Run(runId, asOf));
      if x.None? || x.value.run.runId != runId || x.value.run.detectedAt != asOf {
        return None;
      }
      var publishable := ValidateForPublication(x.value);
      var arithmetic := ValidateArithmetic(x.value);
      if !publishable || !arithmetic {
        return None;
      }
    }

    /** The transaction body, on a copy of the store: a failure leaves the copy behind. */
    method Transaction(id: int, runId: string, now: int, fault: Fault) returns (r: Result<Store, bool>)
      requires Valid() && id in store.queue.requests && store.queue.requests[id].status == PendingRequest
      requires runId !in store.runs && runId !in store.results
      ensures r.Success? <==> Publishes(build, store, id, runId) && !PreCommit(fault)
      ensures r.Success? ==>
        r.value == PublishRun(store, id, runId, store.batches,
                              build(store.batches, Run(runId, store.queue.requests[id].asOf)).value, fingerprint, now)
      ensures r.Failure? ==> (r.error <==> Publishes(build, store, id, runId) && fault.Crash?)
    {
      var asOf := store.queue.requests[id].asOf;
      var candidate := CheckedCandidate(id, runId);
      if candidate.None? {
        return Failure(false);
      }
      var x := candidate.value;
      var written := WriteRun(store, runId, asOf, x, fault);
      if written.Failure? {
        return Failure(written.error);
      }
      r := PublishWritten(written.value, id, runId, now, fault);
    }

    /** The candidate run row and its result. */
    method WriteRun(s: Store, runId: string, asOf: int, x: ReconciliationResult, fault: Fault)
      returns (r: Result<Store, bool>)
      ensures r == if fault != NoFault &&
        fault.point in {AfterValidation, AfterRunInsert, AfterResultInsert, BeforePointerUpdate}
                   then Failure(fault.Crash?)
                   else Success(s.(runs := s.runs[runId := RunRow(CandidateRun, asOf, fingerprint(x))],
                                   results := s.results[runId := StoredResult(s.batches, fingerprint(x), x)]))
    {
      var hash := fingerprint(x);
      if Fires(fault, AfterValidation) {
        return Failure(fault.Crash?);
      }
      var tx := s.(runs := s.runs[runId := RunRow(CandidateRun, asOf, hash)]);
      if Fires(fault, AfterRunInsert) {
        return Failure(fault.Crash?);
      }
      tx := tx.(results := tx.results[runId := StoredResult(s.batches, hash, x)]);
      if Fires(fault, AfterResultInsert) || Fires(fault, BeforePointerUpdate) {
        return Failure(fault.Crash?);
      }
      r := Success(tx);
    }

    /** The run's status, the pointer and the completed request. */
    method PublishWritten(s: Store, id: int, runId: string, now: int, fault: Fault) returns (r: Result<Store, bool>)
      requires History(s.queue) && id in s.queue.requests && s.queue.requests[id].status == PendingRequest &&
        runId in s.runs
      ensures r == if fault != NoFault &&
        fault.point in {AfterPointerUpdate, AfterQueueCompletion, BeforeCommit} then Failure(fault.Crash?)
                   else Success(s.(runs := s.runs[runId := s.runs[runId].(status := PublishedRun)],
                                   pointer := Some(runId),
                                   queue := Succeeded(s.queue, id, runId, now)))
    {
      var tx := s.(runs := s.runs[runId := s.runs[runId].(status := PublishedRun)]);
      tx := tx.(pointer := Some(runId));
      if Fires(fault, AfterPointerUpdate) {
        return Failure(fault.Crash?);
      }
      var queue := new RecoveryQueue.Over(tx.queue);
      var marked := queue.MarkSucceeded(id, runId, now);
      tx := tx.(queue := queue.state);
      if Fires(fault, AfterQueueCompletion) || Fires(fault, BeforeCommit) {
        return Failure(fault.Crash?);
      }
      r := Success(tx);
    }

    /** Publishes one eligible request. A failure before the commit changes nothing but one recorded attempt, a
        crash changes nothing at all, and nothing that happens after the commit undoes it. */
    method RunNext(runId: string, now: int, error: string, fault: Fault) returns (r: RunOutcome)
      requires Valid() && runId !in store.runs && runId !in store.results
      modifies this
      ensures Valid()
      ensures (forall id :: id in old(store).queue.requests ==> !Ready(old(store).queue.requests[id], now)) ==>
        store == old(store) && r == NoWork
      ensures forall id :: IsNext(old(store).queue, now, id) ==>
        if Publishes(build, old(store), id, runId) && !PreCommit(fault) then
          store == PublishRun(old(store), id, runId, old(store).batches,
                             build(old(store).batches, Run(runId, old(store).queue.requests[id].asOf)).value,
                             fingerprint, now) &&
          r == if fault == NoFault then Completed(id, runId) else Interrupted
        else if Publishes(build, old(store), id, runId) && fault.Crash? then
          store == old(store) && r == Interrupted
        else
          store == old(store).(queue := Failed(old(store).queue, id, error, now)) && r == AttemptRecorded(id)
    {
      var queue := new RecoveryQueue.Over(store.queue);
      var next := queue.NextReady(now);
      if next.None? {
        NoNext(store.queue, now);
        return NoWork;
      }
      var id := next.value;
      OneNext(store.queue, now, id);
      var tx := Transaction(id, runId, now, fault);
      if tx.Failure? {
        if tx.error {
          return Interrupted;
        }
        FailedConsistent(store, id, error, fingerprint, now);
        var recorded := queue.RecordFailure(id, error, now);
        store := store.(queue := queue.state);
        return AttemptRecorded(id);
      }
      PublishedConsistent(store, id, runId, store.batches,
                          build(store.batches, Run(runId, store.queue.requests[id].asOf)).value, fingerprint, now);
      store := tx.value;
      if fault == Raise(CommitUnconfirmed) {
        // The handler tries to record a failure, and finds the request already completed.
        var committed := new RecoveryQueue.Over(store.queue);
        var recorded := committed.RecordFailure(id, error, now);
        store := store.(queue := committed.state);
        return Interrupted;
      }
      r := if fault == NoFault then Completed(id, runId) else Interrupted;
    }
  }

  predicate Fires(f: Fault, p: Point) {
    f != NoFault && f.point == p
  }

  lemma OneNext(q: Queue, now: int, id: int)
    requires IsNext(q, now, id)
    ensures forall j :: IsNext(q, now, j) ==> j == id
  {
    forall j | IsNext(q, now, j)
      ensures j == id
    {
      KeyLessOrder(ReadyKey(q, id), ReadyKey(q, j), ReadyKey(q, id));
    }
  }

  lemma NoNext(q: Queue, now: int)
    requires forall id :: id in q.requests ==> !Ready(q.requests[id], now)
    ensures forall id :: !IsNext(q, now, id)
  {
  }

  // ---- Inspection ----

  datatype Action = RetryNow | WaitForRetry | DoNotRepeat | ManualRequeue | CheckAgain | InvestigateMissingRequest

  datatype StateError =
    | UncommittedSource
    | MissingResult
    | HashesDisagree
    | ArtifactInvalid
    | InconsistentFailure
    | InconsistentPending

  /** Joined through the trigger receipt: a request without one has no batch status. */
  predicate SourceCommitted(s: Store, r: Request) {
    r.trigger.Some? && r.trigger.value in s.receipts && s.receipts[r.trigger.value] in s.batches
  }

  function Inspect(s: Store, fingerprint: Fingerprinter, id: int, now: int, connected: bool)
    : Result<Action, StateError>
  {
    if !connected then Success(CheckAgain)
    else if id !in s.queue.requests then Success(InvestigateMissingRequest)
    else
      var r := s.queue.requests[id];
      if !SourceCommitted(s, r) then Failure(UncommittedSource)
      else match r.status
        case SucceededRequest =>
          if r.resultRun.None? || r.completedAt.None? || r.resultRun.value !in s.runs ||
            s.runs[r.resultRun.value].status != PublishedRun
             || r.resultRun.value !in s.results then Failure(MissingResult)
          else if s.runs[r.resultRun.value].resultHash != s.results[r.resultRun.value].logicalHash
          then Failure(HashesDisagree)
          else if fingerprint(s.results[r.resultRun.value].payload) != s.results[r.resultRun.value].logicalHash
          then Failure(ArtifactInvalid)
          else Success(DoNotRepeat)
        case FailedRequest =>
          if r.resultRun.Some? || r.completedAt.None? ||
            r.lastError.None? then Failure(InconsistentFailure) else Success(ManualRequeue)
        case PendingRequest =>
          if r.resultRun.Some? || r.completedAt.Some? ||
            r.attemptCount >= r.maxAttempts then Failure(InconsistentPending)
          else if r.nextAt <= now then Success(RetryNow)
          else Success(WaitForRetry)
  }

  /** On every committed state the inspection of a known request fails exactly when the request has no trigger
      receipt, and otherwise advises by the request's status. */
  lemma InspectionExact(s: Store, fingerprint: Fingerprinter, id: int, now: int)
    requires Consistent(s, fingerprint) && id in s.queue.requests
    ensures Inspect(s, fingerprint, id, now, true).Failure? <==> s.queue.requests[id].trigger.None?
    ensures s.queue.requests[id].trigger.Some? ==> Inspect(s, fingerprint, id, now, true) == Success(
      match s.queue.requests[id].status
      case SucceededRequest => DoNotRepeat
      case FailedRequest => ManualRequeue
      case PendingRequest => if s.queue.requests[id].nextAt <= now then RetryNow else WaitForRetry)
  {
    assert RequestHistory(s.queue.requests[id], s.queue.attempts[id]);
  }

  /** The failing family is reachable: the request of any delivery without rows cannot be inspected, although its
      batch is committed. */
  lemma EmptyReportNotInspectable(s: Store, fingerprint: Fingerprinter, batch: int, request: int, asOf: int, now: int)
    requires Consistent(s, fingerprint) && request !in s.queue.requests
    ensures var after := Delivered(s, batch, [], request, asOf, now);
      Consistent(after, fingerprint) && batch in after.batches &&
      Inspect(after, fingerprint, request, now, true) == Failure(UncommittedSource)
  {
    DeliveredConsistent(s, batch, [], request, asOf, fingerprint, now);
  }
}
