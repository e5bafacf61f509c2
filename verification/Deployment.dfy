/** The evidence store, the rebuild and the recovery store as parts of one database. */
module Deployment {
  import opened Sequences
  import opened Contracts
  import opened Rules
  import opened Ledger
  import opened Reconciliation
  import opened Canonicalize
  import opened Rebuild
  import Publication
  import DI = DurableIngestion
  import RC = Recovery
  import RecoveryQueues
  import RP = RecoveryProtocol

  // ---- Ingestion as the recovery protocol sees it ----

  /** The recovery store lists the batches, receipts and requests of the evidence tables. */
  ghost predicate Reflects(t: DI.Tables, s: RC.Store) {
    s.batches == t.batches.Values && ReceiptsListed(t.receipts, s.receipts) &&
    RequestsListed(t.requests, s.queue.requests)
  }

  ghost predicate ReceiptsListed(rows: seq<StoredReceipt>, m: map<string, int>) {
    (forall id :: id in m ==> exists r :: r in rows && r.receiptId == id) &&
    (forall r :: r in rows ==> r.receiptId in m && m[r.receiptId] == r.batchId)
  }

  ghost predicate RequestsListed(byBatch: map<int, int>, requests: map<int, RecoveryQueues.Request>) {
    forall b :: b in byBatch ==> byBatch[b] in requests && requests[byBatch[b]].batch == Some(b)
  }

  lemma MoreReceipts(rows: seq<StoredReceipt>, added: seq<StoredReceipt>, ids: seq<string>, batch: int,
                     m: map<string, int>)
    requires ReceiptsListed(rows, m) && |added| == |ids| && forall r :: r in rows ==> r.receiptId !in ids
    requires forall i :: 0 <= i < |ids| ==> added[i].receiptId == ids[i] && added[i].batchId == batch
    ensures ReceiptsListed(rows + added, m + map id | id in ids :: batch)
  {
    var next := m + map id | id in ids :: batch;
    forall id | id in next
      ensures exists r :: r in rows + added && r.receiptId == id
    {
      if id in ids {
        var i :| 0 <= i < |ids| && ids[i] == id;
        assert added[i] in rows + added;
      } else {
        var r :| r in rows && r.receiptId == id;
        assert r in rows + added;
      }
    }
    forall r | r in rows + added
      ensures r.receiptId in next && next[r.receiptId] == r.batchId
    {
      if r in added {
        var i :| 0 <= i < |added| && added[i] == r;
        assert r.receiptId == ids[i];
      }
    }
  }

  /** Resolution changes neither the id nor the batch of a receipt. */
  lemma SameIdAndBatch(rows: seq<StoredReceipt>, after: seq<StoredReceipt>, i: nat)
    requires DI.SameColumns(rows, after) && i < |rows|
    ensures |after| == |rows| && after[i].receiptId == rows[i].receiptId && after[i].batchId == rows[i].batchId
  {
  }

  lemma ResolvedReceipts(rows: seq<StoredReceipt>, after: seq<StoredReceipt>, m: map<string, int>)
    requires ReceiptsListed(rows, m) && DI.SameColumns(rows, after)
    ensures ReceiptsListed(after, m)
  {
    forall r | r in after
      ensures r.receiptId in m && m[r.receiptId] == r.batchId
    {
      var i :| 0 <= i < |after| && after[i] == r;
      SameIdAndBatch(rows, after, i);
      assert rows[i] in rows;
    }
    forall id | id in m
      ensures exists r :: r in after && r.receiptId == id
    {
      var x :| x in rows && x.receiptId == id;
      var i :| 0 <= i < |rows| && rows[i] == x;
      SameIdAndBatch(rows, after, i);
      assert after[i] in after;
    }
  }

  lemma MoreBatches(batches: map<string, int>, key: string, batch: int)
    requires key !in batches
    ensures batches[key := batch].Values == batches.Values + {batch}
  {
    var more := batches[key := batch];
    forall b | b in batches.Values
      ensures b in more.Values
    {
      var k :| k in batches && batches[k] == b;
      assert more[k] == b;
    }
    assert more[key] == batch;
  }

  lemma MoreRequests(byBatch: map<int, int>, q: RecoveryQueues.Queue, batch: int, id: int, r: RecoveryQueues.Request)
    requires RequestsListed(byBatch, q.requests) && id !in q.requests && r.batch == Some(batch)
    ensures RequestsListed(byBatch[batch := id], RecoveryQueues.Enqueued(q, id, r).requests)
  {
  }

  lemma CommittedDeliveryReflected(t: DI.Tables, after: DI.Tables, s: RC.Store, key: string, added: seq<StoredReceipt>,
                                   batch: int, ids: seq<string>,
                                   request: int, asOf: int, now: int)
    requires Reflects(t, s) && key !in t.batches && request !in s.queue.requests && |added| == |ids|
    requires forall i :: 0 <= i < |ids| ==> added[i].receiptId == ids[i] && added[i].batchId == batch
    requires forall r :: r in t.receipts ==> r.receiptId !in ids
    requires DI.SameColumns(t.receipts + added, after.receipts)
    requires after.batches == t.batches[key := batch] && after.requests == t.requests[batch := request]
    ensures Reflects(after, RC.Delivered(s, batch, ids, request, asOf, now))
  {
    MoreBatches(t.batches, key, batch);
    MoreReceipts(t.receipts, added, ids, batch, s.receipts);
    ResolvedReceipts(t.receipts + added, after.receipts, s.receipts + map id | id in ids :: batch);
    MoreRequests(t.requests, s.queue, batch, request,
                 RecoveryQueues.NewRequest(if ids == [] then None else Some(ids[0]), Some(batch), asOf, now));
  }

  /** Every ingestion is one delivery step of the recovery protocol, or no step: whatever the fault, the tables are
      reflected either by the store as it was or by the store after exactly this delivery. */
  method IngestStep(store: DI.EvidenceStore, ghost s: RC.Store, d: DI.Delivery, batchId: int, requestId: int, at: int,
                    asOf: int, ids: seq<string>,
                    fault: DI.Fault)
    returns (r: DI.IngestionOutcome, ghost after: RC.Store)
    requires store.Valid() && DI.Deliverable(store.tables, d, ids) && batchId !in store.tables.requests
    requires forall x :: x in store.tables.receipts ==> x.batchId != batchId
    requires Reflects(store.tables, s) && requestId !in s.queue.requests
    modifies store
    ensures store.Valid() && Reflects(store.tables, after)
    ensures r.Reused? || r.Aborted? ==> after == s
    ensures r.Ingested? || r.Unacknowledged? ==> after == RC.Delivered(s, batchId, ids, requestId, asOf, at)
  {
    ghost var before := store.tables;
    r := store.Ingest(d, batchId, requestId, at, ids, fault);
    after := s;
    if r.Ingested? || r.Unacknowledged? {
      after := RC.Delivered(s, batchId, ids, requestId, asOf, at);
      CommittedDeliveryReflected(before, store.tables, s, d.key, DI.NewReceipts(store.hash, d, batchId, at, ids),
                                 batchId, ids, requestId, asOf, at);
    }
  }

  // ---- The worker as the recovery protocol sees it ----

  /** The protocol steps of one run of the worker, by its outcome and by where it was interrupted. */
  ghost predicate StepsOf(steps: seq<RP.Step>, r: RC.RunOutcome, a: RP.Actor, runId: string, now: int, error: string,
                          fault: RC.Fault) {
    var opening := [RP.Acquire(a), RP.BeginRun(a, runId, now)];
    match r
    case NoWork => steps == [RP.Acquire(a), RP.Release(a)]
    case Completed(_, _) => exists x :: steps == opening + [RP.Rebuild(a, Some(x)), RP.CommitRun(a, now), RP.Release(a)]
    case AttemptRecorded(_) => steps == opening + [RP.FailRun(a), RP.RecordFailedRun(a, error, now), RP.Release(a)]
    case Interrupted =>
      if RC.PreCommit(fault) then steps == opening + [RP.CrashProcess(a)]
      else exists x :: steps == opening + [RP.Rebuild(a, Some(x)), RP.CommitRun(a, now), RP.Leave(a, fault.Crash?)]
  }

  /** These steps lead from the world to the one where the process has left and `store` is committed. */
  ghost predicate Leads(w: RP.World, a: RP.Actor, store: RC.Store, fingerprint: RC.Fingerprinter,
                        trace: seq<RP.World>, steps: seq<RP.Step>) {
    RP.Executes(trace, steps, fingerprint) && trace[0] == w && trace[|steps|] == RP.Standing(w, a, store, RP.Outside)
  }

  ghost predicate CanBegin(w: RP.World, a: RP.Actor, runId: string) {
    w.holder.None? && RP.PhaseOf(w, a) == RP.Outside && runId !in w.store.runs && runId !in w.store.results
  }

  lemma IdleWorker(w: RP.World, a: RP.Actor, runId: string, now: int, error: string, fault: RC.Fault,
                   fingerprint: RC.Fingerprinter)
    returns (trace: seq<RP.World>, steps: seq<RP.Step>)
    requires CanBegin(w, a, runId)
    ensures Leads(w, a, w.store, fingerprint, trace, steps)
    ensures StepsOf(steps, RC.NoWork, a, runId, now, error, fault)
  {
    RP.IdleSteps(w, a, fingerprint);
    trace := [w, RP.Standing(w, a, w.store, RP.Holding), RP.Standing(w, a, w.store, RP.Outside)];
    steps := [RP.Acquire(a), RP.Release(a)];
  }

  lemma CommittedWorker(w: RP.World, a: RP.Actor, id: int, runId: string, x: ReconciliationResult, now: int,
                        error: string, fault: RC.Fault, fingerprint: RC.Fingerprinter)
    returns (trace: seq<RP.World>, steps: seq<RP.Step>)
    requires CanBegin(w, a, runId) && RecoveryQueues.IsNext(w.store.queue, now, id) && !RC.PreCommit(fault)
    ensures Leads(w, a, RC.PublishRun(w.store, id, runId, w.store.batches, x, fingerprint, now), fingerprint, trace,
                  steps)
    ensures StepsOf(steps, if fault == RC.NoFault then RC.Completed(id, runId) else RC.Interrupted,
                    a, runId, now, error, fault)
  {
    trace := RP.CommittedRun(w, a, id, runId, x, now, fault.Crash?, fingerprint);
    var closing := [RP.Rebuild(a, Some(x)), RP.CommitRun(a, now), RP.Leave(a, fault.Crash?)];
    steps := [RP.Acquire(a), RP.BeginRun(a, runId, now)] + closing;
    assert steps == [RP.Acquire(a), RP.BeginRun(a, runId, now), RP.Rebuild(a, Some(x)), RP.CommitRun(a, now),
                     RP.Leave(a, fault.Crash?)];
  }

  lemma CrashedWorker(w: RP.World, a: RP.Actor, id: int, runId: string, now: int, error: string, fault: RC.Fault,
                      fingerprint: RC.Fingerprinter)
    returns (trace: seq<RP.World>, steps: seq<RP.Step>)
    requires CanBegin(w, a, runId) && RecoveryQueues.IsNext(w.store.queue, now, id) && RC.PreCommit(fault)
    ensures Leads(w, a, w.store, fingerprint, trace, steps)
    ensures StepsOf(steps, RC.Interrupted, a, runId, now, error, fault)
  {
    trace := RP.CrashedRun(w, a, id, runId, now, fingerprint);
    steps := [RP.Acquire(a), RP.BeginRun(a, runId, now), RP.CrashProcess(a)];
  }

  lemma FailedWorker(w: RP.World, a: RP.Actor, id: int, runId: string, now: int, error: string, fault: RC.Fault,
                     fingerprint: RC.Fingerprinter)
    returns (trace: seq<RP.World>, steps: seq<RP.Step>)
    requires CanBegin(w, a, runId) && RecoveryQueues.IsNext(w.store.queue, now, id)
    ensures Leads(w, a, w.store.(queue := RecoveryQueues.Failed(w.store.queue, id, error, now)), fingerprint, trace,
                  steps)
    ensures StepsOf(steps, RC.AttemptRecorded(id), a, runId, now, error, fault)
  {
    trace := RP.RecordedRun(w, a, id, runId, error, now, fingerprint);
    steps := [RP.Acquire(a), RP.BeginRun(a, runId, now), RP.FailRun(a), RP.RecordFailedRun(a, error, now),
              RP.Release(a)];
  }

  /** Every run of the worker is a sequence of protocol steps from the world it finds to the world it leaves: it takes
      the lock, begins and commits, or fails and records the failure, or dies, and no longer holds the lock. */
  method WorkerStep(worker: RC.FullRebuildRecovery, ghost w: RP.World, ghost a: RP.Actor, runId: string, now: int,
                    error: string, fault: RC.Fault)
    returns (r: RC.RunOutcome, ghost trace: seq<RP.World>, ghost steps: seq<RP.Step>)
    requires worker.Valid() && worker.store == w.store && CanBegin(w, a, runId)
    modifies worker
    ensures worker.Valid() && Leads(w, a, worker.store, worker.fingerprint, trace, steps)
    ensures StepsOf(steps, r, a, runId, now, error, fault)
  {
    var queue := new RecoveryQueues.RecoveryQueue.Over(worker.store.queue);
    var next := queue.NextReady(now);
    r := worker.RunNext(runId, now, error, fault);
    if next.None? {
      trace, steps := IdleWorker(w, a, runId, now, error, fault, worker.fingerprint);
      return;
    }
    ghost var id := next.value;
    if RC.Publishes(worker.build, w.store, id, runId) && !RC.PreCommit(fault) {
      ghost var x := worker.build(w.store.batches, Run(runId, w.store.queue.requests[id].asOf)).value;
      trace, steps := CommittedWorker(w, a, id, runId, x, now, error, fault, worker.fingerprint);
    } else if RC.Publishes(worker.build, w.store, id, runId) && fault.Crash? {
      trace, steps := CrashedWorker(w, a, id, runId, now, error, fault, worker.fingerprint);
    } else {
      trace, steps := FailedWorker(w, a, id, runId, now, error, fault, worker.fingerprint);
    }
  }

  // ---- The rebuild as the worker's candidate ----

  /** What the rebuild makes of readable tables, as the worker's builder returns it. */
  ghost predicate BuildsFrom(hash: FinancialRecord -> string, table: seq<StoredReceipt>,
                             completeness: seq<CompletenessResult>, run: Run,
                             candidate: Option<ReconciliationResult>)
    requires Readable(table)
  {
    exists c :: IsCanonicalization(Received(hash, table), c) &&
      candidate == match Outcome(run, c, completeness) case Success(x) => Some(x) case Failure(_) => None
  }

  lemma OutcomeRun(run: Run, c: CanonicalizationResult, completeness: seq<CompletenessResult>)
    requires Outcome(run, c, completeness).Success?
    ensures Outcome(run, c, completeness).value.run == run
  {
  }

  /** The builder's candidate is the outcome of any canonicalization, since there is only one. */
  lemma BuiltOutcome(hash: FinancialRecord -> string, table: seq<StoredReceipt>, completeness: seq<CompletenessResult>,
                     run: Run,
                     candidate: Option<ReconciliationResult>, c: CanonicalizationResult)
    requires Injective(hash) && Stored(hash, table) && Readable(table) && IsCanonicalization(Received(hash, table), c)
    requires BuildsFrom(hash, table, completeness, run, candidate)
    ensures candidate == match Outcome(run, c, completeness) case Success(x) => Some(x) case Failure(_) => None
  {
    var d :| IsCanonicalization(Received(hash, table), d) &&
      candidate == match Outcome(run, d, completeness) case Success(x) => Some(x) case Failure(_) => None;
    ReceivedAgrees(hash, table);
    CanonicalizationUnique(Received(hash, table), c, d);
  }

  /** The builder reads the receipts of the committed batches out of these tables. */
  ghost predicate RebuildsTables(hash: FinancialRecord -> string, t: DI.Tables, completeness: seq<CompletenessResult>,
                                 build: RC.Builder)
    requires Readable(t.receipts)
  {
    forall run :: BuildsFrom(hash, t.receipts, completeness, run, build(t.batches.Values, run))
  }

  /** With the rebuild of the stored evidence as its builder, the worker publishes exactly when the rebuild succeeds
      and no two captures collide on a synthetic fee id. */
  lemma WorkerPublishesRebuild(hash: FinancialRecord -> string, t: DI.Tables, completeness: seq<CompletenessResult>,
                               build: RC.Builder,
                               s: RC.Store, id: int, runId: string, c: CanonicalizationResult)
    requires Injective(hash) && DI.Consistent(hash, t) && DI.Settled(t) && Reflects(t, s) && id in s.queue.requests
    requires Readable(t.receipts) && IsCanonicalization(Received(hash, t.receipts), c) &&
      RebuildsTables(hash, t, completeness, build)
    ensures RC.Publishes(build, s, id, runId) <==>
      Outcome(Run(runId, s.queue.requests[id].asOf), c, completeness).Success? &&
      !Publication.SyntheticCollision(Split(c.records))
  {
    var run := Run(runId, s.queue.requests[id].asOf);
    DI.StoreReadable(hash, t);
    assert BuildsFrom(hash, t.receipts, completeness, run, build(s.batches, run));
    BuiltOutcome(hash, t.receipts, completeness, run, build(s.batches, run), c);
    if Outcome(run, c, completeness).Success? {
      ReceivedAgrees(hash, t.receipts);
      RebuiltPublishable(Received(hash, t.receipts), c, run, completeness);
      OutcomeRun(run, c, completeness);
    }
  }
}
