/** Ingesters, recovery workers and operators interleaved at the granularity of their lock, their transactions
    and their crashes. Transactions are private until they commit; the financial lock is a field of the world. */
module RecoveryProtocol {
  import opened Sequences
  import opened Rules
  import opened Reconciliation
  import opened RecoveryQueues
  import opened Recovery

  type Actor = int

  /** Where one process stands. `inputs` are the batches its open transaction has read. */
  datatype Phase =
    | Outside
    | Holding
    | Rebuilding(request: int, run: string, inputs: set<int>, candidate: Option<ReconciliationResult>)
    | RollingBack(failed: int)
    | Delivering

  datatype World = World(store: Store, holder: Option<Actor>, phases: map<Actor, Phase>)

  function PhaseOf(w: World, a: Actor): Phase {
    if a in w.phases then w.phases[a] else Outside
  }

  datatype Step =
    | Acquire(a: Actor)
    | Release(a: Actor)
    | BeginRun(a: Actor, run: string, now: int)
    | Rebuild(a: Actor, result: Option<ReconciliationResult>)
    | CommitRun(a: Actor, now: int)
    | FailRun(a: Actor)
    | RecordFailedRun(a: Actor, error: string, now: int)
    | BeginDelivery(a: Actor)
    | CommitDelivery(a: Actor, batch: int, receipts: seq<string>, request: int, asOf: int, now: int)
    | AbortDelivery(a: Actor)
    | Requeue(request: int, additional: nat, now: int)
    | CrashProcess(a: Actor)

  /** The store after a step that commits something. */
  function Committed(w: World, s: Step, fingerprint: Fingerprinter): Store {
    match s
    case CommitRun(a, now) =>
      var p := PhaseOf(w, a);
      if p.Rebuilding? && p.candidate.Some? && p.request in w.store.queue.requests
      then PublishRun(w.store, p.request, p.run, p.inputs, p.candidate.value, fingerprint, now) else w.store
    case RecordFailedRun(a, error, now) =>
      var p := PhaseOf(w, a);
      if p.RollingBack? &&
        p.failed in w.store.queue.requests then w.store.(queue := Failed(w.store.queue, p.failed, error, now))
        else w.store
    case CommitDelivery(a, batch, receipts, request, asOf, now) => Delivered(w.store, batch, receipts, request, asOf,
        now)
    case Requeue(request, additional, now) =>
      if request in w.store.queue.requests then w.store.(queue := Requeued(w.store.queue, request, additional, now))
        else w.store
    case _ => w.store
  }

  /** When a step can happen. Every transaction but an operator's requeue runs under the financial lock. */
  ghost predicate Enabled(w: World, s: Step) {
    match s
    case Acquire(a) => w.holder.None? && PhaseOf(w, a) == Outside
    case Release(a) => PhaseOf(w, a) == Holding
    case BeginRun(a, run, now) =>
      PhaseOf(w, a) == Holding && run !in w.store.runs && run !in w.store.results &&
      exists id :: IsNext(w.store.queue, now, id)
    case Rebuild(a, result) => PhaseOf(w, a).Rebuilding? && PhaseOf(w, a).candidate.None?
    case CommitRun(a, now) => PhaseOf(w, a).Rebuilding? && PhaseOf(w, a).candidate.Some?
    case FailRun(a) => PhaseOf(w, a).Rebuilding?
    case RecordFailedRun(a, error, now) => PhaseOf(w, a).RollingBack?
    case BeginDelivery(a) => PhaseOf(w, a) == Holding
    case CommitDelivery(a, batch, receipts, request, asOf, now) =>
      PhaseOf(w, a) == Delivering && batch !in w.store.batches && request !in w.store.queue.requests &&
      forall r :: r in receipts ==> r !in w.store.receipts
    case AbortDelivery(a) => PhaseOf(w, a) == Delivering
    case Requeue(request, additional, now) =>
      request in w.store.queue.requests && w.store.queue.requests[request].status == FailedRequest && additional >= 1
    case CrashProcess(a) => PhaseOf(w, a) != Outside
  }

  /** How a step moves the lock and its process. */
  ghost predicate Moves(w: World, s: Step, after: World) {
    match s
    case Acquire(a) => after.holder == Some(a) && after.phases == w.phases[a := Holding]
    case Release(a) => after.holder == None && after.phases == w.phases[a := Outside]
    case BeginRun(a, run, now) =>
      after.holder == w.holder &&
      exists id ::
      IsNext(w.store.queue, now, id) && after.phases == w.phases[a := Rebuilding(id, run, w.store.batches, None)]
    case Rebuild(a, result) =>
      after.holder == w.holder &&
      after.phases == w.phases[a := if PhaseOf(w, a).Rebuilding? then PhaseOf(w, a).(candidate := result)
                               else PhaseOf(w, a)]
    case CommitRun(a, now) => after.holder == w.holder && after.phases == w.phases[a := Holding]
    case FailRun(a) =>
      after.holder == w.holder &&
      after.phases == w.phases[a := if PhaseOf(w, a).Rebuilding? then RollingBack(PhaseOf(w, a).request)
                               else PhaseOf(w, a)]
    case RecordFailedRun(a, error, now) => after.holder == w.holder && after.phases == w.phases[a := Holding]
    case BeginDelivery(a) => after.holder == w.holder && after.phases == w.phases[a := Delivering]
    case CommitDelivery(a, batch, receipts, request, asOf, now) => after.holder == w.holder &&
      after.phases == w.phases[a := Holding]
    case AbortDelivery(a) => after.holder == w.holder && after.phases == w.phases[a := Holding]
    case Requeue(request, additional, now) => after.holder == w.holder && after.phases == w.phases
    case CrashProcess(a) =>
      after.holder == (if w.holder == Some(a) then None else w.holder) && after.phases == w.phases[a := Outside]
  }

  ghost predicate Next(w: World, s: Step, after: World, fingerprint: Fingerprinter) {
    Enabled(w, s) && after.store == Committed(w, s, fingerprint) && Moves(w, s, after)
  }

  ghost predicate Initial(w: World) {
    w == World(Store({}, map[], Queue(map[], map[]), map[], map[], None), None, map[])
  }

  // ---- The invariant ----

  /** What an open transaction relies on, which the lock protects. */
  ghost predicate Undisturbed(s: Store, p: Phase) {
    match p
    case Rebuilding(request, run, inputs, candidate) =>
      request in s.queue.requests && s.queue.requests[request].status == PendingRequest && run !in s.runs &&
      run !in s.results && inputs == s.batches
    case RollingBack(request) => request in s.queue.requests && s.queue.requests[request].status == PendingRequest
    case _ => true
  }

  ghost predicate Invariant(w: World, fingerprint: Fingerprinter) {
    Consistent(w.store, fingerprint) && NothingLost(w.store) &&
    (forall a :: PhaseOf(w, a) != Outside ==> w.holder == Some(a)) && (forall a :: Undisturbed(w.store, PhaseOf(w, a)))
  }

  lemma StorePreserved(w: World, s: Step, after: World, fingerprint: Fingerprinter)
    requires Invariant(w, fingerprint) && Next(w, s, after, fingerprint)
    ensures Consistent(after.store, fingerprint) && NothingLost(after.store)
  {
    match s
    case CommitRun(a, now) =>
      var p := PhaseOf(w, a);
      assert Undisturbed(w.store, p);
      PublishedConsistent(w.store, p.request, p.run, p.inputs, p.candidate.value, fingerprint, now);
    case RecordFailedRun(a, error, now) =>
      assert Undisturbed(w.store, PhaseOf(w, a));
      FailedConsistent(w.store, PhaseOf(w, a).failed, error, fingerprint, now);
    case CommitDelivery(a, batch, receipts, request, asOf, now) =>
      DeliveredConsistent(w.store, batch, receipts, request, asOf, fingerprint, now);
    case Requeue(request, additional, now) => RequeuedConsistent(w.store, request, additional, fingerprint, now);
    case _ =>
  }

  /** Only the lock holder changes what a transaction has read; a requeue touches no pending request. */
  lemma PhasesPreserved(w: World, s: Step, after: World, fingerprint: Fingerprinter, b: Actor)
    requires Invariant(w, fingerprint) && Next(w, s, after, fingerprint)
    ensures PhaseOf(after, b) != Outside ==> after.holder == Some(b)
    ensures Undisturbed(after.store, PhaseOf(after, b))
  {
    assert Undisturbed(w.store, PhaseOf(w, b)) && (PhaseOf(w, b) != Outside ==> w.holder == Some(b));
    match s
    case BeginRun(a, run, now) =>
      var id :| IsNext(w.store.queue, now, id) &&
        after.phases == w.phases[a := Rebuilding(id, run, w.store.batches, None)];
    case _ =>
  }

  lemma InvariantStep(w: World, s: Step, after: World, fingerprint: Fingerprinter)
    requires Invariant(w, fingerprint) && Next(w, s, after, fingerprint)
    ensures Invariant(after, fingerprint)
  {
    StorePreserved(w, s, after, fingerprint);
    forall b
      ensures PhaseOf(after, b) != Outside ==> after.holder == Some(b)
      ensures Undisturbed(after.store, PhaseOf(after, b))
    {
      PhasesPreserved(w, s, after, fingerprint, b);
    }
  }

  // ---- Runs ----

  /** Consecutive steps, each enabled where it is taken. */
  ghost predicate Executes(trace: seq<World>, steps: seq<Step>, fingerprint: Fingerprinter) {
    |trace| == |steps| + 1 && forall i :: 0 <= i < |steps| ==> Next(trace[i], steps[i], trace[i + 1], fingerprint)
  }

  /** A run of the system: any interleaving of enabled steps from the empty store. */
  ghost predicate IsTrace(trace: seq<World>, steps: seq<Step>, fingerprint: Fingerprinter) {
    Executes(trace, steps, fingerprint) && Initial(trace[0])
  }

  lemma {:induction false} EveryStateInvariant(trace: seq<World>, steps: seq<Step>, fingerprint: Fingerprinter, i: nat)
    requires IsTrace(trace, steps, fingerprint) && i < |trace|
    ensures Invariant(trace[i], fingerprint)
  {
    if i > 0 {
      EveryStateInvariant(trace, steps, fingerprint, i - 1);
      InvariantStep(trace[i - 1], steps[i - 1], trace[i], fingerprint);
    }
  }

  /** In every state of every run, each committed batch is among the inputs of the published run or still has a
      pending or failed recovery request. */
  lemma NoCommittedEvidenceLost(trace: seq<World>, steps: seq<Step>, fingerprint: Fingerprinter, i: nat, batch: int)
    requires IsTrace(trace, steps, fingerprint) && i < |trace| && batch in trace[i].store.batches
    ensures Accounted(trace[i].store, batch)
  {
    EveryStateInvariant(trace, steps, fingerprint, i);
  }

  /** In every state of every run, each request has a well-formed attempt history, and inspecting it reports an
      inconsistency only when it has no trigger receipt. */
  lemma RecoveryHistoryHolds(trace: seq<World>, steps: seq<Step>, fingerprint: Fingerprinter, i: nat, id: int, now: int)
    requires IsTrace(trace, steps, fingerprint) && i < |trace| && id in trace[i].store.queue.requests
    ensures id in trace[i].store.queue.attempts &&
      RequestHistory(trace[i].store.queue.requests[id], trace[i].store.queue.attempts[id])
    ensures Inspect(trace[i].store, fingerprint, id, now, true).Failure? <==>
      trace[i].store.queue.requests[id].trigger.None?
  {
    EveryStateInvariant(trace, steps, fingerprint, i);
    InspectionExact(trace[i].store, fingerprint, id, now);
  }

  ghost predicate OneFailureMore(before: map<int, seq<Attempt>>, after: map<int, seq<Attempt>>, p: Phase,
                                 error: string) {
    p.RollingBack? && p.failed in before &&
    after == before[p.failed := before[p.failed] + [Attempt(|before[p.failed]| + 1, AttemptFailed(error))]]
  }

  /** Steps before a commit, failures and crashes leave runs, results and pointer alone; recording a failure adds
      exactly one attempt, to the request whose run failed. */
  lemma OnlyCommitsPublish(w: World, s: Step, after: World, fingerprint: Fingerprinter)
    requires Invariant(w, fingerprint) && Next(w, s, after, fingerprint) && !s.CommitRun?
    ensures after.store.runs == w.store.runs && after.store.results == w.store.results &&
      after.store.pointer == w.store.pointer
    ensures !s.RecordFailedRun? && !s.CommitDelivery? ==> after.store.queue.attempts == w.store.queue.attempts
    ensures s.RecordFailedRun? ==>
      OneFailureMore(w.store.queue.attempts, after.store.queue.attempts, PhaseOf(w, s.a), s.error)
  {
    if s.RecordFailedRun? {
      var p := PhaseOf(w, s.a);
      assert Undisturbed(w.store, p);
      assert RequestHistory(w.store.queue.requests[p.failed], w.store.queue.attempts[p.failed]);
    }
  }

  // ---- The worker's runs as steps ----

  /** The world with `a` in phase `p`, holding the lock unless it stands outside. */
  ghost function Standing(w: World, a: Actor, store: Store, p: Phase): World {
    World(store, if p == Outside then None else Some(a), w.phases[a := p])
  }

  lemma TraceOf(trace: seq<World>, steps: seq<Step>, fingerprint: Fingerprinter, next: World, s: Step)
    requires Executes(trace, steps, fingerprint) && Next(trace[|steps|], s, next, fingerprint)
    ensures Executes(trace + [next], steps + [s], fingerprint)
  {
    var more, taken := trace + [next], steps + [s];
    forall i | 0 <= i < |taken|
      ensures Next(more[i], taken[i], more[i + 1], fingerprint)
    {
      assert i < |steps| ==> Next(trace[i], steps[i], trace[i + 1], fingerprint);
    }
  }

  /** A worker that finds nothing to do takes the lock and releases it. */
  lemma IdleSteps(w: World, a: Actor, fingerprint: Fingerprinter)
    requires w.holder.None? && PhaseOf(w, a) == Outside
    ensures Executes([w, Standing(w, a, w.store, Holding), Standing(w, a, w.store, Outside)], [Acquire(a), Release(a)],
                     fingerprint)
  {
  }

  /** A worker that takes the lock and begins a run of the next request. */
  lemma BeginSteps(w: World, a: Actor, id: int, run: string, now: int, fingerprint: Fingerprinter)
    requires w.holder.None? && PhaseOf(w, a) == Outside && IsNext(w.store.queue, now, id)
    requires run !in w.store.runs && run !in w.store.results
    ensures Executes([w, Standing(w, a, w.store, Holding),
                      Standing(w, a, w.store, Rebuilding(id, run, w.store.batches, None))],
                     [Acquire(a), BeginRun(a, run, now)], fingerprint)
  {
    var held, begun := Standing(w, a, w.store, Holding),
      Standing(w, a, w.store, Rebuilding(id, run, w.store.batches, None));
    assert Next(w, Acquire(a), held, fingerprint);
    assert begun.phases == held.phases[a := Rebuilding(id, run, w.store.batches, None)];
    assert Next(held, BeginRun(a, run, now), begun, fingerprint);
  }

  /** How a run ends: it dies, or fails and records it, or commits and then dies or releases the lock. */
  lemma CrashSteps(w: World, a: Actor, store: Store, p: Phase, fingerprint: Fingerprinter)
    requires p != Outside
    ensures Next(Standing(w, a, store, p), CrashProcess(a), Standing(w, a, store, Outside), fingerprint)
  {
  }

  lemma FailureSteps(w: World, a: Actor, id: int, run: string, inputs: set<int>, error: string, now: int,
                     fingerprint: Fingerprinter)
    requires id in w.store.queue.requests
    ensures Executes([Standing(w, a, w.store, Rebuilding(id, run, inputs, None)),
                      Standing(w, a, w.store, RollingBack(id)),
                      Standing(w, a, w.store.(queue := Failed(w.store.queue, id, error, now)), Holding),
                      Standing(w, a, w.store.(queue := Failed(w.store.queue, id, error, now)), Outside)],
                     [FailRun(a), RecordFailedRun(a, error, now), Release(a)], fingerprint)
  {
    var begun, back := Standing(w, a, w.store, Rebuilding(id, run, inputs, None)),
      Standing(w, a, w.store, RollingBack(id));
    var recorded := w.store.(queue := Failed(w.store.queue, id, error, now));
    assert PhaseOf(begun, a).Rebuilding? && PhaseOf(back, a) == RollingBack(id);
    assert back.phases == begun.phases[a := RollingBack(id)];
    assert Next(begun, FailRun(a), back, fingerprint);
    assert Standing(w, a, recorded, Holding).phases == back.phases[a := Holding];
    assert Next(back, RecordFailedRun(a, error, now), Standing(w, a, recorded, Holding), fingerprint);
    assert Standing(w, a, recorded, Outside).phases == Standing(w, a, recorded, Holding).phases[a := Outside];
    assert Next(Standing(w, a, recorded, Holding), Release(a), Standing(w, a, recorded, Outside), fingerprint);
  }

  lemma CommitSteps(w: World, a: Actor, id: int, run: string, inputs: set<int>, x: ReconciliationResult, now: int,
                    fingerprint: Fingerprinter)
    requires id in w.store.queue.requests
    ensures Executes([Standing(w, a, w.store, Rebuilding(id, run, inputs, None)),
                      Standing(w, a, w.store, Rebuilding(id, run, inputs, Some(x))),
                      Standing(w, a, PublishRun(w.store, id, run, inputs, x, fingerprint, now), Holding)],
                     [Rebuild(a, Some(x)), CommitRun(a, now)], fingerprint)
  {
    var begun, built := Standing(w, a, w.store, Rebuilding(id, run, inputs, None)),
      Standing(w, a, w.store, Rebuilding(id, run, inputs, Some(x)));
    var done := Standing(w, a, PublishRun(w.store, id, run, inputs, x, fingerprint, now), Holding);
    assert PhaseOf(begun, a) == Rebuilding(id, run, inputs, None) &&
      PhaseOf(built, a) == Rebuilding(id, run, inputs, Some(x));
    assert built.phases == begun.phases[a := Rebuilding(id, run, inputs, Some(x))];
    assert Next(begun, Rebuild(a, Some(x)), built, fingerprint);
    assert done.phases == built.phases[a := Holding];
    assert Next(built, CommitRun(a, now), done, fingerprint);
  }

  lemma JoinTraces(t: seq<World>, s: seq<Step>, u: seq<World>, r: seq<Step>, fingerprint: Fingerprinter)
    requires Executes(t, s, fingerprint) && Executes(u, r, fingerprint) && t[|s|] == u[0]
    ensures Executes(t + u[1..], s + r, fingerprint)
  {
    var trace, steps := t + u[1..], s + r;
    forall i | 0 <= i < |steps|
      ensures Next(trace[i], steps[i], trace[i + 1], fingerprint)
    {
      if i < |s| {
        assert Next(t[i], s[i], t[i + 1], fingerprint);
      } else {
        assert Next(u[i - |s|], r[i - |s|], u[i - |s| + 1], fingerprint);
        assert trace[i] == u[i - |s|] && trace[i + 1] == u[i - |s| + 1];
      }
    }
  }

  // ---- A whole run, from the lock to the lock ----

  lemma RecordedRun(w: World, a: Actor, id: int, run: string, error: string, now: int, fingerprint: Fingerprinter)
    returns (trace: seq<World>)
    requires w.holder.None? && PhaseOf(w, a) == Outside && IsNext(w.store.queue, now, id)
    requires run !in w.store.runs && run !in w.store.results
    ensures Executes(trace, [Acquire(a), BeginRun(a, run, now), FailRun(a), RecordFailedRun(a, error, now), Release(a)],
                     fingerprint)
    ensures trace[0] == w &&
      trace[5] == Standing(w, a, w.store.(queue := Failed(w.store.queue, id, error, now)), Outside)
  {
    BeginSteps(w, a, id, run, now, fingerprint);
    FailureSteps(w, a, id, run, w.store.batches, error, now, fingerprint);
    var begun := Standing(w, a, w.store, Rebuilding(id, run, w.store.batches, None));
    var recorded := w.store.(queue := Failed(w.store.queue, id, error, now));
    var opening := [w, Standing(w, a, w.store, Holding), begun];
    var closing := [begun, Standing(w, a, w.store, RollingBack(id)), Standing(w, a, recorded, Holding),
                    Standing(w, a, recorded, Outside)];
    JoinTraces(opening, [Acquire(a), BeginRun(a, run, now)], closing,
               [FailRun(a), RecordFailedRun(a, error, now), Release(a)], fingerprint);
    trace := opening + closing[1..];
    assert [Acquire(a), BeginRun(a, run, now)] + [FailRun(a), RecordFailedRun(a, error, now), Release(a)]
        == [Acquire(a), BeginRun(a, run, now), FailRun(a), RecordFailedRun(a, error, now), Release(a)];
  }

  lemma CrashedRun(w: World, a: Actor, id: int, run: string, now: int, fingerprint: Fingerprinter)
    returns (trace: seq<World>)
    requires w.holder.None? && PhaseOf(w, a) == Outside && IsNext(w.store.queue, now, id)
    requires run !in w.store.runs && run !in w.store.results
    ensures Executes(trace, [Acquire(a), BeginRun(a, run, now), CrashProcess(a)], fingerprint)
    ensures trace[0] == w && trace[3] == Standing(w, a, w.store, Outside)
  {
    BeginSteps(w, a, id, run, now, fingerprint);
    var begun := Standing(w, a, w.store, Rebuilding(id, run, w.store.batches, None));
    CrashSteps(w, a, w.store, Rebuilding(id, run, w.store.batches, None), fingerprint);
    var opening := [w, Standing(w, a, w.store, Holding), begun];
    TraceOf(opening, [Acquire(a), BeginRun(a, run, now)], fingerprint, Standing(w, a, w.store, Outside),
            CrashProcess(a));
    trace := opening + [Standing(w, a, w.store, Outside)];
    assert [Acquire(a), BeginRun(a, run, now)]
      + [CrashProcess(a)] == [Acquire(a), BeginRun(a, run, now), CrashProcess(a)];
  }

  /** The step by which a process that holds the lock leaves: it releases the lock or dies. */
  function Leave(a: Actor, dies: bool): Step { if dies then CrashProcess(a) else Release(a) }

  lemma CommittedRun(w: World, a: Actor, id: int, run: string, x: ReconciliationResult, now: int, dies: bool,
                     fingerprint: Fingerprinter)
    returns (trace: seq<World>)
    requires w.holder.None? && PhaseOf(w, a) == Outside && IsNext(w.store.queue, now, id)
    requires run !in w.store.runs && run !in w.store.results
    ensures Executes(trace, [Acquire(a), BeginRun(a, run, now), Rebuild(a, Some(x)), CommitRun(a, now), Leave(a, dies)],
                     fingerprint)
    ensures trace[0] == w &&
      trace[5] == Standing(w, a, PublishRun(w.store, id, run, w.store.batches, x, fingerprint, now), Outside)
  {
    BeginSteps(w, a, id, run, now, fingerprint);
    CommitSteps(w, a, id, run, w.store.batches, x, now, fingerprint);
    var begun, store := Standing(w, a, w.store, Rebuilding(id, run, w.store.batches, None)),
                        PublishRun(w.store, id, run, w.store.batches, x, fingerprint, now);
    var opening := [w, Standing(w, a, w.store, Holding), begun];
    var commit := [begun, Standing(w, a, w.store, Rebuilding(id, run, w.store.batches, Some(x))),
                   Standing(w, a, store, Holding)];
    JoinTraces(opening, [Acquire(a), BeginRun(a, run, now)], commit, [Rebuild(a, Some(x)), CommitRun(a, now)],
               fingerprint);
    LeaveSteps(w, a, store, dies, fingerprint);
    var steps := [Acquire(a), BeginRun(a, run, now)] + [Rebuild(a, Some(x)), CommitRun(a, now)];
    TraceOf(opening + commit[1..], steps, fingerprint, Standing(w, a, store, Outside), Leave(a, dies));
    trace := opening + commit[1..] + [Standing(w, a, store, Outside)];
    assert steps + [Leave(a, dies)]
      == [Acquire(a), BeginRun(a, run, now), Rebuild(a, Some(x)), CommitRun(a, now), Leave(a, dies)];
  }

  lemma LeaveSteps(w: World, a: Actor, store: Store, dies: bool, fingerprint: Fingerprinter)
    ensures Next(Standing(w, a, store, Holding), Leave(a, dies), Standing(w, a, store, Outside), fingerprint)
  {
    assert PhaseOf(Standing(w, a, store, Holding), a) == Holding;
    assert Standing(w, a, store, Outside).phases == Standing(w, a, store, Holding).phases[a := Outside];
  }
}
