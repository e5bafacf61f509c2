# Threadline: verified model of replay, reconciliation and recovery

Threadline receives versioned orders, payments, refunds, fees, settlement lines and payouts as daily report files,
keeps every delivered receipt, decides one current record per entity, reconciles the current records into
transactions, expected movements, payouts and exceptions, and publishes one result at a time. This project models
that core in Dafny and proves what the design relies on. Money is an integer number of cents, days are integers,
identifiers are strings ordered as Python orders them, and a payload hash is an injective function of the record.

How the modules fit together:

- `Sequences`, `Contracts`, `Money`, `MoneyText`: ordered keys and list operations, the records and the parser's
  contract on them, fees and money text.
- `Rules`, `Ledger`, `Reconciliation`: the reconciliation result as a function, entity by entity. Each row is
  computed from a *view*, which holds everything attached to one order, allocation or payout.
  `Marks`, `Exceptions` and `Reconciler`: the reconciler as it is written, passes over dictionaries of lists and
  sets of codes, proved to compute exactly that function or to reject for the first failing check.
- `Meaning`: what a RECONCILED row means on the records. `ResultMeaning`, `ExceptionMeaning`, `PayoutMeaning`,
  `RowMeaning`, `OrderMeaning`: every exception, movement, row, rejection and list order of a result, stated on the
  records without the rules that compute it. `Publication`: the validators, and why the reconciler's output satisfies
  them.
- `AffectedWindows`, `Incremental`, `Refresh`: the dependency closure of a change, the frame argument through every
  rule, and its two uses (old against new outside the plan, planned records against all records inside it) that make
  incremental reconciliation equal to a clean full rebuild. `PlanMeaning`: what a plan says on the records' attributes.
- `Canonicalize`, `Rebuild`, `DurableIngestion`: replay on values, the rebuild from stored receipts, and the durable
  store that resolves only the touched entities. `CanonicalMeaning`, `RebuildMeaning`, `IngestionMeaning`: their
  outcomes on the fields and columns alone.
- `RecoveryQueue`, `Recovery`, `RecoveryProtocol`: the request queue, one run of the worker, and all interleavings of
  ingesters, workers, operators and crashes under the financial lock. `Deployment` ties them to the evidence store
  and the rebuild, and `RecoveryMeaning` writes out every column they change.
- `SourceFiles`, `DeliveryMeaning`, `Archival`: the completion-marker and archive protocols on a file map, with a stop or a crash
  possible between any two steps.
- `Completeness`, `DurableCompleteness`, `Fingerprint`: report evidence and the order-insensitive fingerprint.
- `GoldenScenarios`: concrete inputs, among them the ones that fail a promise.

Findings. Where the code does not meet a promise, the code is modelled as it is, a failing input is shown, and the exact
condition is proved:

- When a capture does not have exactly one fee, its fee movement is named `expected-fee:<payment>`. If that is the id of
  the only fee of another capture, two expected movements have one key, and the reconciler's own output is refused by
  the publication check, as three valid records show (`GoldenScenarios.SyntheticIdRefused`). This collision is the only
  way (`Publication.MovementsDistinct`, `Publication.ReconcilerOutputPublishable`).
- A delivery without rows enqueues a request without a trigger receipt, and inspecting that request reports that it
  does not reference committed evidence although its batch is committed (`Recovery.EmptyReportNotInspectable`). Every
  inspection error is of this kind (`Recovery.InspectionExact`).
- Money text round-trips except for `-0.00` and for texts with a digit that is not ASCII, which the pattern's `\d`
  accepts (`MoneyText.FormatOfParse`, `MoneyText.NegativeZeroLosesSign`, `MoneyText.ForeignDigitLost`).
- `docs/golden-scenarios.md:148-163` expects INCOMPLETE for an order whose only payment is in conflict. The code gives
  INCOMPLETE if and only if one of the order's four reports is incomplete, and EXCEPTION through `MISSING_PAYMENT` if and
  only if they are all complete (`Meaning.ConflictedPaymentState`, and at the documented input
  `GoldenScenarios.GoldenScenario007`).
- Archiving removes the source file, so a second batch of that same file and checksum, with another destination where
  nothing is yet, can lose its only copy (`Archival.SharedSourceLost`). Before an attempt a caller can tell: under any
  faults only such a batch ever loses its copy, and only if the attempt can succeed; without faults it does if and only if
  the attempt can succeed (`Archival.ArchiveService.ArchiveBatch`, with `Exposed` and `Archivable`).

The repository's benchmark leaves its primary claim, incremental equality, unverified.
`Refresh.IncrementalEqualsFullRebuild` proves it for every change with a window plan: a run over only the planned records
succeeds whenever the full rebuild does, and merged with the old rows the plan does not name it gives the rebuilt rows,
and for publishable results the rebuilt exceptions too;
`Refresh.PublishedIncrementalEqualsFullRebuild` says the same of the results the worker publishes, and
`GoldenScenarios.CorrectedOrderRefreshed` applies it to a corrected order.

## Model

| member | source | states |
|---|---|---|
| Money.RoundHalfUpNearest | threadline/money.py:102-109 | rounding lands on a nearest cent, and of two equally near on the one farther from zero |
| Money.FeeAccepted | threadline/money.py:117-143 | a fee can be calculated exactly for EUR amounts from zero to the largest supported one, and is then at least the fixed part and in range |
| Money.FeeSchedule | threadline/money.py:117-143 | the fee is within half a cent of the schedule whose figures `Money.FeeInFigures` gives, grows with the amount, and splitting a capture changes the total by the fixed part up to one cent |
| Money.FeeInFigures | threadline/money.py:49-143 | cards: 0.20 plus 1.8 percent, wallets: 0.25 plus 2.0 percent, each to the nearest cent with ties away from zero; 2.00 on a card payment of 100.00 |
| Money.FeeRefused | threadline/money.py:117-143 | any other currency, a negative amount and one beyond the largest are refused |
| MoneyText.ParseOfFormat | threadline/money.py:75-114 | parsing a formatted in-range amount gives the amount back |
| MoneyText.FormattedPattern | threadline/money.py:112-114 | the text of an amount: sign, whole euros without leading zeros, a point and two digits |
| MoneyText.ParseOutcome | threadline/money.py:75-99 | what becomes of the text of any amount: refused beyond the range, refused when negative unless negatives are allowed, and otherwise the amount |
| MoneyText.Notation | threadline/money.py:112-114 | 0.00, 0.07 and -12.05 |
| MoneyText.FormatOfParse | threadline/money.py:75-114 | formatting a parsed text gives the text back if and only if its digits are ASCII and it is not `-0.00` |
| MoneyText.NegativeZeroLosesSign | threadline/money.py:75-114 | the accepted text `-0.00` comes back as `0.00` |
| MoneyText.ForeignDigitLost | threadline/money.py:75-114 | an accepted text with an Arabic-Indic digit comes back in ASCII |
| AffectedWindows.ReachIsLeastClosed | threadline/affected_windows.py:144-298 | the impact closure is closed under relationships in both directions and shared dates, and is contained in every such set around the seeds |
| AffectedWindows.ReachMonotone | threadline/affected_windows.py:262-298 | more evidence or more seeds never shrink the closure |
| AffectedWindows.ImpactGraph.Add | threadline/affected_windows.py:174-260 | the neighbour, date and issue dictionaries keep indexing exactly the added records |
| AffectedWindows.ImpactGraph.Expand | threadline/affected_windows.py:262-298 | the worklist terminates with exactly the least closed set, its dates and its issues |
| AffectedWindows.CompressDates | threadline/affected_windows.py:84-115 | the windows are ordered, disjoint, not adjacent, and cover exactly the given days |
| AffectedWindows.WindowsUnique | threadline/affected_windows.py:84-115 | no other such list of windows covers the same days |
| AffectedWindows.PlanAffectedWindows | threadline/affected_windows.py:301-380 | each early scope and its reason, the rejected empty id, and otherwise the plan of the closure, whose every field the `PlanMeaning` rows state on the records |
| AffectedWindows.PlanUnique | threadline/affected_windows.py:301-380 | the plan depends on the evidence as a set: input order and repetition are immaterial |
| PlanMeaning.PlanReaches | threadline/affected_windows.py:174-298 | the plan lists exactly the records that every set holds which contains the changed ones and spreads: from a record to those it names by a nonempty id and to those naming it, and between payments, refunds and payouts of one day; its orders, payouts and days are those of these records |
| PlanMeaning.PlanWindows | threadline/affected_windows.py:84-115 | the windows cover exactly the plan's days, in order and without touching, and days and ids are listed once, ascending |
| PlanMeaning.PlanReasons | threadline/affected_windows.py:153-260 | on the records' attributes, each reason and exactly when a plan gives it: a captured payment, succeeded refund or payout without a date, a missing relationship id or movement type, a key that no record bears |
| PlanMeaning.PlanScope | threadline/affected_windows.py:373-380 | the scope is WINDOWS if and only if every record reached has its relationship ids and movement type, is dated if it must be, and every key reached is known; otherwise it is FULL |
| PlanMeaning.RecordRefers | threadline/affected_windows.py:174-245 | what a whole record ties together: a payment and its order, a refund or fee and its payment, a settlement line and both its payout and the record of its movement |
| PlanMeaning.RecordOnDay | threadline/affected_windows.py:190-258 | the days a whole record falls on; fees have none |
| PlanMeaning.RecordDates | threadline/affected_windows.py:187-212 | on whole records, the missing capture date is a reason if and only if a CAPTURED payment of the plan has none, and the same for SUCCEEDED refunds |
| PlanMeaning.ValidPlanScope | threadline/affected_windows.py:280-284 | over validated records the plan gives up on windows if and only if it reaches an id that no record bears |
| PlanMeaning.PlanOrder | threadline/affected_windows.py:352-365 | the keys are listed by kind name and then by id |
| Rules.ResultState | threadline/reconcile.py:284-304 | INCOMPLETE exactly with an incomplete report, PENDING exactly with no incomplete but some pending one, EXCEPTION exactly with complete reports and a blocking code, RECONCILED exactly with complete reports and none |
| Ledger.SplitContains | threadline/reconcile.py:425-482 | splitting the canonical records by kind loses and invents nothing |
| Ledger.SplitOrdered | threadline/reconcile.py:425-482 | unique identities make every split list strictly sorted |
| Reconciler.BuildReportStateMap | threadline/reconcile.py:241-271 | every report exactly once gives its state; a repeated or a missing report is rejected |
| Reconciler.CheckOrder | threadline/reconcile.py:857-924 | the PAID-order checks add exactly the exceptions and codes of the order's view |
| Reconciler.CheckDue | threadline/reconcile.py:1226-1320 | the movement checks of a payout add exactly the exceptions and codes of its view |
| Reconciler.Reconcile | threadline/reconcile.py:485-1439 | the passes compute exactly the per-entity result, or reject for the first failing check on the inputs or the records; the `Meaning` modules state each part of that result on the records |
| Reconciler.ReconcileRun | threadline/reconcile.py:485-1439 | the whole call: the same result or rejection, and quarantined rows carried into it, sorted and none lost, deciding nothing |
| ExceptionMeaning.PaidOrphanPublished | threadline/reconcile.py:595-616 | on the records: with orders and payments complete, ORPHAN_PAYMENT of p, with no expected amount, p's amount and p as evidence, is published if and only if p is a captured payment and no order has its order id |
| ExceptionMeaning.CancelledCapturePublished | threadline/reconcile.py:619-642 | the capture of a cancelled order is published against zero if and only if it is the order's last capture by id: captures of one order share an identity and the last one stays |
| ExceptionMeaning.RefundOrphanPublished | threadline/reconcile.py:651-672 | ORPHAN_REFUND with its amount if and only if the refund succeeded and no captured payment has its payment id |
| ExceptionMeaning.RefundInOtherCurrencyPublished | threadline/reconcile.py:674-694 | without amounts, if and only if the refund's captured payment has another currency |
| ExceptionMeaning.RefundedBeyondPublished | threadline/reconcile.py:696-727 | with the captured and the refunded amount and every refund as evidence, if and only if the successful refunds of a capture sum to more than it |
| ExceptionMeaning.WithoutFeePublished | threadline/reconcile.py:733-775 | MISSING_FEE with the scheduled fee against zero if and only if a capture has no fee record |
| ExceptionMeaning.FeesDifferPublished | threadline/reconcile.py:777-799 | FEE_MISMATCH with both totals if and only if a capture's fee records do not add up to its scheduled fee |
| ExceptionMeaning.FeeWithoutCapturePublished | threadline/reconcile.py:801-824 | UNEXPECTED_FEE with zero against its amount if and only if no captured payment has the fee's payment id |
| ExceptionMeaning.PaidWithoutCapturePublished | threadline/reconcile.py:857-877 | MISSING_PAYMENT with the order total against zero if and only if a PAID order has no captured payment |
| ExceptionMeaning.PaidWrongTotalPublished | threadline/reconcile.py:878-903 | PAYMENT_AMOUNT_MISMATCH with both totals if and only if a PAID order's captures do not add up to it |
| ExceptionMeaning.PaidSeveralTimesPublished | threadline/reconcile.py:904-924 | MULTIPLE_CAPTURE with the number of captures against one if and only if a PAID order has more than one |
| ExceptionMeaning.SharedMovementPublished | threadline/reconcile.py:1084-1147 | DUPLICATE_SETTLEMENT_MOVEMENT with every line as evidence if and only if several lines of the run name the movement |
| PayoutMeaning.DuePublished | threadline/reconcile.py:1226-1320 | of the movements due on a payout's date, the missing line and the line of another amount, each with amounts and evidence, are published when they arise and only then |
| PayoutMeaning.WrongHeaderPublished | threadline/reconcile.py:1322-1351 | PAYOUT_TOTAL_MISMATCH with the line total against the header if and only if they differ |
| PayoutMeaning.MovementsInFull | threadline/reconcile.py:1005-1078 | the expected movements are the collection and the scheduled fee of each capture and the repayment of each successful refund, with day, sign, name and evidence |
| RowMeaning.TransactionsInFull | threadline/reconcile.py:837-999 | one row per order and no other, every column and code stated on the records, and the state by its four reports |
| RowMeaning.TransactionsAscending | threadline/reconcile.py:1417 | rows come in the order of the order ids |
| RowMeaning.PayoutsInFull | threadline/reconcile.py:1201-1397 | the same for payouts, over the movements due on their date and the lines that name them |
| RowMeaning.PayoutsAscending | threadline/reconcile.py:1418 | payout rows come in the order of their dates |
| RowMeaning.ReportsPublished | threadline/reconcile.py:345-389 | every incomplete report and no other is published, as missing or as invalid |
| RowMeaning.ConflictsPublished | threadline/reconcile.py:392-422 | every conflict and no other is published, citing every receipt |
| RowMeaning.RejectionsInFull | threadline/reconcile.py:204-271 | each reason to reject the inputs or the records, stated on them, in the order of the checks |
| RowMeaning.ResultHeader | threadline/reconcile.py:1428-1439 | run, contract version and the report statuses of a result |
| RowMeaning.MovementsPublished | threadline/reconcile.py:1005-1078 | the published movements are exactly those of the records |
| OrderMeaning.ListsInOrder | threadline/reconcile.py:97-187 | movements by day, kind and id, exceptions by code, subject and rule, report statuses by day and name |
| OrderMeaning.CodesByName | threadline/reconcile.py:126-133 | exception codes are ordered by name |
| OrderMeaning.RulesByName | threadline/reconcile.py:126-133 | rules are ordered by name |
| OrderMeaning.QuarantineRead | threadline/contracts.py:346-352 | rejected rows are ordered by entity type, source id and reason |
| Marks.OrderMarksMeaning | threadline/reconcile.py:595-999 | when an order's row is built, the shared dictionary of codes holds for it exactly the codes its own view raises |
| Marks.PayoutMarksMeaning | threadline/reconcile.py:1084-1397 | when a payout's row is built, the shared dictionary holds for it exactly the codes its own view raises |
| Exceptions.RecordExceptionsFromRules | threadline/reconcile.py:307-342 | every exception derived from records carries the run's id, a variance equal to the difference of its amounts, and no source-conflict code |
| Meaning.ReconciledOrderView | threadline/reconcile.py:837-999 | for each order status: RECONCILED if and only if the reports are complete, the captures are what the status asks for, and every capture's fees and refunds add up |
| Meaning.ReconciledPaidOrder | threadline/reconcile.py:647-999 | a PAID order is RECONCILED if and only if its four reports are complete and it has exactly one capture, equal to the total, with the scheduled fee reported and refunds within it |
| Meaning.ConflictedPaymentState | threadline/reconcile.py:284-304 | a PAID order with payments, all in conflict, is INCOMPLETE if and only if one of its four reports is, EXCEPTION if and only if all are complete, and never RECONCILED; MISSING_PAYMENT needs only orders and payments complete |
| GoldenScenarios.GoldenScenario007 | docs/golden-scenarios.md:148-163 | at the documented order and two payloads, in either order: the payment is in conflict, neither payload is current, and the row's state is as above |
| Meaning.ReconciledPayoutView | threadline/reconcile.py:1201-1397 | the same for a payout on its own view |
| Meaning.ReconciledPayout | threadline/reconcile.py:1084-1397 | a payout is RECONCILED if and only if its five reports are complete, its totals agree, each movement due is carried for the right amount by one line of the whole run, which is in this payout, and no line of the payout, due or not, shares its movement with another line of the run |
| Meaning.ReconciledPayoutDecomposes | threadline/reconcile.py:1084-1397 | header, line total and expected payout are equal, every due movement has its only line here, and the unmatched lines sum to the reported-minus-expected fee differences |
| Incremental.WindowPlanFrames | threadline/affected_windows.py:144-298 | a window plan over evidence that covers every difference separates the changed entities and dates from everything else in both ledgers |
| Incremental.OutsidePlanUnchanged | threadline/reconcile.py:485-1439 | outside the plan's orders, payouts and dates the rows and movements of both runs are identical, and no entity outside it raises a different exception |
| Incremental.RaisedByComplete | threadline/reconcile.py:591-1397 | every exception of a run is raised in the examination of some entity, so the previous statement accounts for all of them |
| Refresh.IncrementalRunSucceeds | threadline/reconcile.py:485-1439 | a run over only the planned records succeeds whenever the full rebuild does |
| Refresh.IncrementalRows | threadline/reconcile.py:837-1397 | that run's transactions, payouts and movements are exactly the full rebuild's inside the plan |
| Refresh.SameRecordExceptions | threadline/reconcile.py:591-1397 | two ledgers framed by a plan raise the same list of exceptions outside it, pass by pass |
| Refresh.RaisedSide | threadline/reconcile.py:591-1397 | an exception's rule, code and subject tell on which side of the plan it was raised |
| Refresh.IncrementalExceptions | threadline/reconcile.py:1399-1439 | without colliding movement names, the published exceptions outside the plan are the old ones, and inside it those of the run over the planned records |
| Refresh.PublishedIncrementalEqualsFullRebuild | threadline/conflict_evidence.py:47-82 | the same equality for the results the worker publishes, whose conflicts are cited by variants |
| GoldenScenarios.CorrectedOrderRefreshed | docs/project-scope.md:96-104 | one order, cancelled at version 1 and paid at version 2, has a window plan and is refreshed to the rebuilt row |
| Refresh.IncrementalEqualsFullRebuild | docs/project-scope.md:96-104 | a run over the planned records, merged with the old rows the plan does not name, equals the full rebuild: rows, movements and completeness always, and the whole result with its exceptions when old and new are publishable |
| Refresh.RefreshedInFull | docs/project-scope.md:96-104 | what that run looks at and keeps: exactly the records the plan names, and beside its own rows exactly the old rows of orders, days, payouts and subjects the plan does not name |
| Canonicalize.DeduplicateReceipts | threadline/canonicalize.py:280-303 | each distinct receipt once; rejected exactly when one id names two different receipts |
| Canonicalize.Canonicalize | threadline/canonicalize.py:321-461 | the loops compute the canonicalization of the receipts as a set |
| Canonicalize.CanonicalizationUnique | threadline/canonicalize.py:321-461 | that canonicalization is unique, so order and repeated delivery are immaterial |
| Canonicalize.EvidenceConserved | threadline/canonicalize.py:346-455 | each unique receipt has exactly one disposition |
| Canonicalize.AtMostOneOutcome | threadline/canonicalize.py:346-461 | no identity has two records, two conflicts, or a record and a conflict |
| Canonicalize.OneOutcomePerIdentity | threadline/canonicalize.py:346-461 | every received identity has a record or a conflict, at its highest version |
| CanonicalMeaning.EvidenceInFull | threadline/canonicalize.py:346-455 | on received records: stale if a higher version was received, else in conflict if its version came with other content, else accepted if no receipt with a smaller id says the same, else a duplicate |
| CanonicalMeaning.RecordsInFull | threadline/canonicalize.py:403-455 | a received record is current if and only if every other content received for its entity has a lower version |
| CanonicalMeaning.ConflictsInFull | threadline/canonicalize.py:366-401 | an entity is in conflict if and only if its highest version came with several contents; the conflict holds exactly that version's contents and receipts, in order |
| CanonicalMeaning.OutcomesInOrder | threadline/canonicalize.py:457-461 | records and conflicts are listed by source, kind name and id |
| Canonicalize.ReplayLedger.Apply | threadline/canonicalize.py:507-536 | a batch is absorbed as a whole and its new receipts counted, or it is rejected and nothing changes |
| Canonicalize.ReplayLedger.CurrentResult | threadline/canonicalize.py:538-547 | the ledger's result is the canonicalization of everything it holds |
| Canonicalize.SplitIndependence | threadline/canonicalize.py:507-547 | however a consistent stream is cut into batches, none is rejected and the ledger ends with all of its receipts |
| Rebuild.ReadReceipts | threadline/recovery_rebuild.py:41-110 | finalized receipts become exactly the envelopes of the evidence, each is either an envelope or quarantined, and the first unreadable one by batch and row stops the rebuild |
| Rebuild.BuildCandidate | threadline/recovery_rebuild.py:41-133 | reading, canonicalizing, reconciling and stabilizing return exactly the outcome of the stored evidence |
| Rebuild.ReplaceConflictEvidence | threadline/conflict_evidence.py:47-82 | only the evidence of conflict exceptions is rewritten, receipt by receipt, to the variant it shows |
| Rebuild.CitedSuffices | threadline/conflict_evidence.py:85-142 | looking up only the cited receipts gives the same evidence as knowing all of them |
| Rebuild.RebuildDependsOnVariants | threadline/canonicalize.py:321-461 | two sets of receipts showing the same variants have the same rebuilt outcome |
| Rebuild.RebuildTwice | threadline/recovery_rebuild.py:41-133 | two readable tables showing the same variants rebuild to the same candidate, whatever their receipt ids, batches, repetitions and order |
| Rebuild.RebuiltPublishable | threadline/full_rebuild_recovery.py:334-365 | a rebuilt candidate passes the arithmetic check, and passes the publication check if and only if no capture's only fee has the synthetic id of a capture without exactly one fee |
| RebuildMeaning.ChecksInFull | threadline/recovery_rebuild.py:74-104 | which check a receipt fails first, on its columns |
| RebuildMeaning.EvidenceInFull | threadline/recovery_rebuild.py:41-110 | the rebuilt evidence is exactly the parsed payloads of receipts of finalized batches that were not quarantined |
| RebuildMeaning.OutcomeInFull | threadline/recovery_rebuild.py:116-133 | the rebuilt result is the reconciled one, exception by exception, except that a conflict cites its contents instead of its receipts |
| Publication.ValidateForPublication | threadline/publication.py:150-358 | accepts exactly the publishable results |
| Publication.ValidateArithmetic | threadline/full_rebuild_recovery.py:155-201 | accepts exactly the results whose rows are distinct and add up |
| Publication.InMemoryPublicationStore.Publish | threadline/publication.py:361-408 | the candidate replaces the current result only if it is publishable and the hook does not fail; otherwise the current result stays |
| Publication.MovementsDistinct | threadline/reconcile.py:1005-1078 | movement keys are distinct if and only if no capture's only fee has the synthetic id of a capture without exactly one fee |
| Publication.ReconcilerOutputPublishable | threadline/publication.py:150-358 | every reconciler result has sound arithmetic and is publishable if and only if there is no such collision |
| Publication.PublishableInFull | threadline/publication.py:150-358 | what publishable means, field by field: a trimmed run id, the contract version, no identity twice, every row and variance adding up |
| Publication.ArithmeticInFull | threadline/full_rebuild_recovery.py:155-201 | what the arithmetic check means, field by field |
| DurableIngestion.ResolveEntity | threadline/durable_ingestion.py:233-341 | the entity gets the resolution of its version history, its receipts are reclassified, and no other entity changes |
| DurableIngestion.EvidenceStore.Ingest | threadline/durable_ingestion.py:402-717 | one delivery is committed as a whole or leaves no trace, a known one is answered from the tables, and every entity stays resolved although only touched ones are re-resolved |
| DurableIngestion.StoreReadable | threadline/durable_ingestion.py:500-646 | the rebuild never meets a stored receipt of an accepted row that it cannot read |
| DurableIngestion.VersionsAreVariants | threadline/durable_ingestion.py:589-639 | the version history is exactly the set of variants received |
| DurableIngestion.CountsMatchCanonicalization | threadline/durable_ingestion.py:284-341 | per variant and disposition, the store holds as many receipts as `canonicalize` assigns over all committed receipts |
| DurableIngestion.SameStaleAndConflicted | threadline/durable_ingestion.py:284-341 | for STALE and CONFLICTED they are the very same receipts |
| DurableIngestion.ResolutionMatchesCanonicalization | threadline/durable_ingestion.py:233-282 | a stored resolution is the canonical outcome: same winning version, same verdict, same selected hash |
| IngestionMeaning.RowsInFull | threadline/durable_ingestion.py:500-646 | a committed delivery leaves the earlier receipts' columns as they were and adds one receipt per row, numbered from one, parsed or quarantined |
| IngestionMeaning.StatesInFull | threadline/durable_ingestion.py:284-341 | however deliveries were cut, every receipt is stale, in conflict, accepted or a duplicate by what the whole table holds, the earliest receipt of a content being the accepted one |
| IngestionMeaning.ResolutionsInFull | threadline/durable_ingestion.py:233-282 | the resolution of an entity holds its highest version, whether contents differ, and the content if they do not |
| RecoveryQueues.RetryDelayIsExponential | threadline/recovery_queue.py:151-158 | the delay after attempt n is min(3600, base * 2^(n-1)) for every n: the exponent cap never shows |
| RecoveryQueues.RecoveryQueue.NextReady | threadline/recovery_queue.py:27-53 | the first eligible request by due time, creation time and id, or none when none is eligible |
| RecoveryQueues.RecoveryQueue.MarkSucceeded | threadline/recovery_queue.py:55-113 | a pending request is completed and gains exactly one numbered, successful attempt; anything else is refused, and no other request changes |
| RecoveryQueues.RecoveryQueue.RecordFailure | threadline/recovery_queue.py:115-200 | a pending request gains exactly one numbered, failed attempt and is due again after the doubling delay, or is exhausted at its limit; a finished request is never overwritten |
| RecoveryQueues.RecoveryQueue.RequeueFailed | threadline/recovery_queue.py:202-233 | an exhausted request, and only such a one, is due at once with exactly the granted number of attempts left, and keeps its history |
| RecoveryQueues.FailedHistory | threadline/recovery_queue.py:115-200 | a recorded failure keeps the attempts numbered without gaps and the columns consistent |
| RecoveryMeaning.RetryDelayInSeconds | threadline/recovery_queue.py:151-158 | the delay is the base, doubles after each failure and stops at 3600 seconds; 30, 60, ..., 1920, 3600 for the default base |
| RecoveryMeaning.NextInFull | threadline/recovery_queue.py:27-53 | which request is next, by the columns |
| RecoveryMeaning.SucceededInFull | threadline/recovery_queue.py:85-113 | every column of a completed request and its attempt; no other request changes |
| RecoveryMeaning.FailedInFull | threadline/recovery_queue.py:147-200 | every column of a request after a failed attempt, pending again or exhausted; no other request changes |
| RecoveryMeaning.RequeuedInFull | threadline/recovery_queue.py:214-233 | every column of a request that was requeued; attempts and other requests are kept |
| Recovery.FullRebuildRecovery.RunNext | threadline/full_rebuild_recovery.py:298-494 | publishes the first eligible request completely; a failure before the commit leaves runs, results and pointer alone and adds one failed attempt; a failure after it changes nothing |
| Recovery.DeliveredConsistent | threadline/durable_ingestion.py:680-717 | committing a delivery with its request keeps the store consistent and every batch accounted for |
| RecoveryMeaning.DeliveredInFull | threadline/durable_ingestion.py:680-717 | a committed delivery adds its batch, its receipts and one pending request due at once, with five attempts and a base delay of thirty seconds |
| RecoveryMeaning.PreCommitInFull | threadline/full_rebuild_recovery.py:367-460 | the seven points before the commit at which a fault undoes the transaction |
| RecoveryMeaning.PublishesInFull | threadline/full_rebuild_recovery.py:328-365 | the worker publishes if and only if the builder returns a candidate of this run and time that passes both checks |
| RecoveryMeaning.PublishRunInFull | threadline/full_rebuild_recovery.py:370-460 | the transaction adds the published run and its result, moves the pointer and completes the request, and changes nothing else |
| Recovery.InspectionExact | threadline/recovery_behavior.py:112-226 | on a consistent store the inspection fails if and only if the request has no trigger receipt, and otherwise advises by its status |
| RecoveryMeaning.InspectInFull | threadline/recovery_behavior.py:45-226 | on any store, consistent or not: the advice and each way in which the stored state contradicts itself |
| Recovery.EmptyReportNotInspectable | threadline/recovery_behavior.py:122-125 | the request of a delivery without rows cannot be inspected although its batch is committed |
| RecoveryProtocol.InvariantStep | threadline/full_rebuild_recovery.py:298-494 | every step of every process keeps the store consistent, the lock exclusive, and what open transactions have read unchanged |
| RecoveryProtocol.NoCommittedEvidenceLost | threadline/full_rebuild_recovery.py:298-494 | in every state of every run, each committed batch is among the published run's inputs or has a PENDING or FAILED request |
| RecoveryProtocol.RecoveryHistoryHolds | threadline/recovery_queue.py:27-233 | in every state of every run, attempts are numbered 1..n, a success is unique and last, PENDING means attempts remain, and inspection fails only without a trigger receipt |
| RecoveryProtocol.OnlyCommitsPublish | threadline/full_rebuild_recovery.py:460-494 | only a worker's commit changes runs, results and pointer; recording a failure adds exactly one attempt |
| Deployment.IngestStep | threadline/durable_ingestion.py:402-717 | every ingestion, whatever the fault, is exactly one delivery step of the recovery protocol or none |
| Deployment.WorkerStep | threadline/full_rebuild_recovery.py:298-494 | every run of the worker is a sequence of protocol steps: idle, committed, failed and recorded, or dead, and it ends without the lock |
| Deployment.WorkerPublishesRebuild | threadline/full_rebuild_recovery.py:328-365 | with the rebuild of the stored evidence as its builder, the worker publishes if and only if the rebuild succeeds without such a collision of fee ids |
| Archival.ArchiveService.InstallVerifiedObject | threadline/archival.py:195-258 | an existing destination is never replaced, a new one only appears verified, and no other file changes |
| Archival.ArchiveService.RestoreSource | threadline/archival.py:261-278 | a missing source comes back only as a verified copy |
| Archival.ArchiveService.ArchiveBatch | threadline/archival.py:306-414 | whatever raises and wherever the process dies, no archive object changes, ARCHIVED still means a matching destination, and a batch loses its last verified copy only if it shares source file and checksum with the archived one under another, empty destination, and the attempt can succeed; without faults exactly then, and the attempt succeeds exactly when it can |
| Archival.SharedSourceLost | threadline/archival.py:343-356 | one file delivered for two days: archiving the first batch takes the second one's only copy |
| Archival.ArchivingKeepsPromises | threadline/archival.py:306-414 | archiving one batch keeps the destination of every archived batch |
| Archival.DestinationsInFull | threadline/archival.py:80-131 | two batches share a destination if and only if report, day and content agree |
| Archival.ArchivableInFull | threadline/archival.py:416-496 | when an attempt can succeed, on the batch's columns and the files |
| Archival.ExposedInFull | threadline/archival.py:343-356 | which batch an attempt puts at risk, on the columns and the files |
| SourceFiles.Inbox.PublishSourceFile | threadline/source_files.py:214-308 | the producer leaves the disk at the stage where it stopped; every refusal and its reason, including files another producer made appear before the claim; a delivery refused before its claim leaves no file, and one refused after it only the empty claim |
| SourceFiles.ManifestRoundTrip | threadline/source_files.py:129-191 | the manifest the producer writes parses to what it describes |
| SourceFiles.CompletionMarker | threadline/source_files.py:311-416 | however a consumer's reads fall between a producer's steps, a valid delivery is not REJECTED, and READY implies the manifest was renamed and returns exactly the published bytes and records |
| SourceFiles.FinishedDeliveryIsReady | threadline/source_files.py:311-416 | after the manifest rename every inspection is READY |
| SourceFiles.UnfinishedDeliveryWaits | threadline/source_files.py:311-416 | before it every inspection is WAITING |
| DeliveryMeaning.FilesInFull | threadline/source_files.py:74-86 | the names of the four files of a delivery |
| DeliveryMeaning.ClaimInFull | threadline/source_files.py:240-276 | a name is free when none of the four files is there, and a late claim leaves at most an empty file |
| DeliveryMeaning.ManifestInFull | threadline/source_files.py:129-191 | a manifest is accepted if and only if it describes a delivery of the file it stands beside, and is read as that delivery |
| DeliveryMeaning.AcceptedInFull | threadline/source_files.py:263-267 | a producer refuses exactly a blank label or a report that does not carry the entity |
| DeliveryMeaning.ProducedInFull | threadline/source_files.py:249-261 | the produced manifest has eight fields and is read back as the delivery |
| DeliveryMeaning.GateInFull | threadline/source_files.py:311-416 | READY, and with what, if and only if no temporary file is seen, the manifest is accepted and supported, and the data has its checksum and count |
| DeliveryMeaning.WaitingInFull | threadline/source_files.py:321-402 | when an inspection waits for the manifest or the data, and that it rejects exactly a refused manifest or data that does not fit it |
| ReportCompleteness.CollectIssues | threadline/completeness.py:378-571 | each issue is listed exactly when its own condition holds |
| ReportCompleteness.NoIssueMeansAgreement | threadline/completeness.py:378-571 | no issue if and only if a data file and a valid manifest agree with the expected report and with each other |
| ReportCompleteness.EvaluateReport | threadline/completeness.py:574-659 | COMPLETE exactly for agreeing evidence that arrived in time, otherwise PENDING until the deadline and INCOMPLETE from then on |
| ReportCompleteness.ManifestIssuesInFull | threadline/completeness.py:378-490 | each issue of a missing, unreadable or readable manifest and its condition |
| ReportCompleteness.DataIssuesInFull | threadline/completeness.py:492-571 | each issue between a data file and a manifest and its condition |
| ReportCompleteness.VisibleInFull | threadline/completeness.py:338-375 | evidence that arrives after the evaluation time is not seen |
| ReportCompleteness.ProvenInFull | threadline/completeness.py:574-659 | proven evidence, spelled out: both files seen in time, naming the expected report, day and source, and agreeing |
| DurableCompleteness.NoProblemMeansCertified | threadline/durable_completeness.py:28-93 | the stored-evidence check passes exactly when bytes, manifest, labels and every count agree |
| DurableCompleteness.LatestBatches | threadline/durable_completeness.py:116-151 | overwriting leaves per day and report the last committed batch that had arrived |
| DurableCompleteness.LoadCompleteness | threadline/durable_completeness.py:96-229 | one entry per report: the earliest of its worst expected days, overdue before pending before complete (`DurableCompleteness.LoadedStates`) |
| DurableCompleteness.CompleteMeansEveryDay | threadline/durable_completeness.py:96-229 | a report is COMPLETE if and only if its latest batch is certified for every expected day |
| DurableCompleteness.LoadedStates | threadline/durable_completeness.py:153-229 | a report is INCOMPLETE if and only if some expected day is uncertified and past its deadline, PENDING if and only if there is no such day and some day is uncertified, and the day returned is the earliest day in that state |
| DurableCompleteness.LoadedEvidence | threadline/durable_completeness.py:153-229 | the batch named is the latest of that day, and only its absence counts as missing |
| DurableCompleteness.LatestInFull | threadline/durable_completeness.py:116-151 | the latest batch of a day, by arrival and then by id |
| DurableCompleteness.NamesInFull | threadline/durable_completeness.py:44-76 | the names a manifest may use for each report, its entity and its source |
| DurableCompleteness.NoProblemInFull | threadline/durable_completeness.py:28-93 | the check passes if and only if bytes, rows, every manifest field and every count agree, field by field |
| DurableCompleteness.ExpectedDaysInFull | threadline/durable_completeness.py:96-115 | the expected days are the declared ones and those of committed or failed batches |
| DurableCompleteness.ProblemInFull | threadline/durable_completeness.py:28-93 | missing evidence, either checksum mismatch and quarantined rows are each reported exactly when they come first |
| DurableCompleteness.NoFalseReconciliation | threadline/reconcile.py:284-304 | a RECONCILED row rests, for every expected day and every report its rules need, on a certified latest batch |
| Fingerprint.LogicalRereads | threadline/recovery_fingerprint.py:203-246 | serializing a value first leaves its logical value unchanged |
| Fingerprint.LogicalExact | threadline/recovery_fingerprint.py:203-246 | two values have the same logical value if and only if amounts and leaves agree up to audit fields and the order, but not the number, of list items |
| Fingerprint.ListsCompareAsBags | threadline/recovery_fingerprint.py:236-244 | permuting a list changes nothing, repeating or dropping a row always does |
| Fingerprint.AuditFieldsForgotten | threadline/recovery_fingerprint.py:217-234 | audit fields may be added, changed or dropped |
| Fingerprint.FingerprintExact | threadline/recovery_fingerprint.py:249-270 | fingerprints are equal if and only if contract version and the five logical sections agree |
| Fingerprint.ArtifactVerifies | threadline/recovery_fingerprint.py:294-314 | every published artifact passes the stored-result check |
| Fingerprint.TamperingDetected | threadline/recovery_fingerprint.py:294-314 | a stored payload passes against a result's fingerprint if and only if it is a version-2 payload with that result's finances |
| Fingerprint.FingerprintInFull | threadline/recovery_fingerprint.py:43-49 | by name: equal fingerprints mean equal contract versions and agreement under transactions, expected_movements, payouts, exceptions and source_completeness |
| Fingerprint.TamperingInFull | threadline/recovery_fingerprint.py:294-314 | by name: a payload that differs in any of the five sections, or is not stamped version 2, fails the check |
| Fingerprint.AuditNames | threadline/recovery_fingerprint.py:24-41 | the thirteen names of audit fields |
| Fingerprint.MoneyNames | threadline/recovery_fingerprint.py:51-74 | the sixteen names of amounts |
| Fingerprint.RunForgotten | threadline/recovery_fingerprint.py:217-234 | records that differ only in the run and the detection time have one logical value |
| Fingerprint.NothingElseForgotten | threadline/recovery_fingerprint.py:217-234 | records that differ in a field not on the written-out list of audit fields do not |

## Left out

- Refresh.IncrementalEqualsFullRebuild: exceptions are compared when both results are publishable, that is without a synthetic-id collision. Unique identities and nonempty ids are what canonicalization and the planner's own check guarantee.
- PayoutMeaning.DuePublished: that every such exception is published is stated for ledgers whose movement names are distinct, because colliding names also give colliding exceptions, of which one stays; that nothing else is published holds for all.
- Rebuild.RebuildTwice: a payload hash is assumed to be a collision-free function of the record, and receipt ids to be unique; envelopes compute the first and the database's key guarantees the second.
- Archival.ArchiveService.ArchiveBatch: crash points are the file and database steps; loss of written data by the disk is not modelled.
- SourceFiles.CompletionMarker: one producer per filename, as the producer contract states; resuming an interrupted delivery is not modelled.
- Fingerprint.LogicalExact: the JSON encoding is an injective function of the document, and Python's `True == 1` is not modelled.
- MoneyText.FormatOfParse: `Decimal` precision and contexts are not modelled; amounts are exact.
- Recovery.FullRebuildRecovery.RunNext: holds for every candidate builder (`Deployment.WorkerPublishesRebuild` puts the rebuild there); the fingerprint of the input rows and the per-row result tables are not modelled.
- RecoveryProtocol.NoCommittedEvidenceLost: one publication name, and the financial lock is a field; the entity locks inside ingestion add nothing to it.
- DurableCompleteness.LoadCompleteness: deadlines are a parameter, so local time and daylight saving are not modelled; messages of issues are not modelled.
- Reconciler.Reconcile: messages and clock values are not modelled; the result is stated without the quarantined rows, which `Reconciler.ReconcileRun` adds.
- Contract parsing of raw payloads, field by field: the model keeps the record types and what an accepted record satisfies.
- Reason codes and code lists are sets; the original sorts them.
- SQL text, connections, schema migrations, advisory-lock numbers, path normalization and root checks.
- The late-data classification, the earlier ingestion-ledger service, the file-backed publication store, the DAGs, the generator, the marts and the command line.
