/** Report completeness from retained evidence: per day and report the latest committed batch decides, and per
    report the worst day counts. */
module DurableCompleteness {
  import opened Sequences
  import opened Contracts
  import opened Rules
  import opened Ledger
  import opened Reconciliation
  import opened ReportCompleteness
  import F = SourceFiles
  import P = Publication

  type Bytes = F.Bytes

  /** An ingestion batch with its retained bytes and receipt counts. */
  datatype StoredBatch = StoredBatch(batchId: string, report: ReportType, day: int, receivedAt: int, committed: bool,
                                     dataBytes: Option<Bytes>, manifestBytes: Option<Bytes>, fileChecksum: string,
                                     manifestChecksum: string,
                                     filename: string, declaredRows: int, observedRows: int, receiptCount: int,
                                     quarantineCount: int)

  // ---- One stored report ----

  function ReportName(r: ReportType): string {
    match r
    case Orders => "ORDERS"
    case Payments => "PAYMENTS"
    case Refunds => "REFUNDS"
    case Fees => "FEES"
    case SettlementLines => "SETTLEMENT_LINES"
    case Payouts => "PAYOUTS"
  }

  function ReportValue(r: ReportType): string {
    match r
    case Orders => "orders"
    case Payments => "payments"
    case Refunds => "refunds"
    case Fees => "fees"
    case SettlementLines => "settlement_lines"
    case Payouts => "payouts"
  }

  function EntityName(r: ReportType): string {
    match r
    case Orders => "ORDER"
    case Payments => "PAYMENT"
    case Refunds => "REFUND"
    case Fees => "FEE"
    case SettlementLines => "SETTLEMENT_LINE"
    case Payouts => "PAYOUT"
  }

  predicate SourceLabel(r: ReportType, s: string) {
    if r == Orders then s == "THREADLINE_SHOP" || s == "threadline_shop" else s == "MOCKPAY" || s == "mockpay"
  }

  const REPORT_LABELS := ["ORDERS", "PAYMENTS", "REFUNDS", "FEES", "SETTLEMENT_LINES", "PAYOUTS",
                          "orders", "payments", "refunds", "fees", "settlement_lines", "payouts"]

  datatype Problem =
    | VerifiedEvidenceMissing
    | DataChecksumMismatch
    | ManifestChecksumMismatch
    | InvalidDataStructure
    | StoredReportEvidenceMismatch
    | InvalidStoredManifest
    | QuarantinedRows

  /** A manifest field compared for equality; reading a missing field raises. */
  datatype Check = Agree | Differ | Unreadable

  function TextCheck(doc: map<string, F.Json>, field: string, expected: string): Check {
    if field !in doc then Unreadable else if doc[field] == F.Text(expected) then Agree else Differ
  }

  /** The comparisons in their order; the first that does not agree decides. */
  function FirstOf(checks: seq<Check>): Check {
    if checks == [] then Agree else if checks[0] != Agree then checks[0] else FirstOf(checks[1..])
  }

  function ReportCheck(doc: map<string, F.Json>, r: ReportType): Check {
    if "report_type" !in doc || !doc["report_type"].Text? || doc["report_type"].s !in REPORT_LABELS then Unreadable
    else if doc["report_type"].s == ReportName(r) || doc["report_type"].s == ReportValue(r) then Agree
    else Differ
  }

  function SourceCheck(doc: map<string, F.Json>, r: ReportType): Check {
    if "source_system" !in doc || doc["source_system"].Object? || doc["source_system"].List? then Unreadable
    else if doc["source_system"].Text? && SourceLabel(r, doc["source_system"].s) then Agree
    else Differ
  }

  function EntityCheck(doc: map<string, F.Json>, r: ReportType): Check {
    if "entity_type" !in doc || doc["entity_type"].Object? || doc["entity_type"].List? then Unreadable
    else if doc["entity_type"] == F.Text(EntityName(r)) then Agree
    else Differ
  }

  function RowsCheck(doc: map<string, F.Json>, rows: int): Check {
    if "row_count" !in doc then Unreadable else if doc["row_count"] == F.Num(rows) then Agree else Differ
  }

  function CountCheck(count: int, rows: int): Check {
    if count == rows then Agree else Differ
  }

  function ManifestChecks(c: F.Codec, b: StoredBatch, doc: map<string, F.Json>, rows: int): seq<Check> {
    LabelChecks(b, doc) + ValueChecks(c, b, doc, rows)
  }

  function LabelChecks(b: StoredBatch, doc: map<string, F.Json>): seq<Check> {
    [TextCheck(doc, "filename", b.filename), ReportCheck(doc, b.report), SourceCheck(doc, b.report),
     EntityCheck(doc, b.report)]
  }

  function ValueChecks(c: F.Codec, b: StoredBatch, doc: map<string, F.Json>, rows: int): seq<Check> {
    [TextCheck(doc, "report_date", c.isoDate(b.day)), TextCheck(doc, "schema_version", "1"),
     TextCheck(doc, "checksum_sha256", b.fileChecksum), RowsCheck(doc, rows),
     CountCheck(b.declaredRows, rows), CountCheck(b.observedRows, rows), CountCheck(b.receiptCount, rows)]
  }

  function VerifyStoredReport(c: F.Codec, b: StoredBatch): Option<Problem> {
    if b.dataBytes.None? || b.manifestBytes.None? then Some(VerifiedEvidenceMissing)
    else if c.sha(b.dataBytes.value) != b.fileChecksum then Some(DataChecksumMismatch)
    else if c.sha(b.manifestBytes.value) != b.manifestChecksum then Some(ManifestChecksumMismatch)
    else
      var records, manifest := c.decode(b.dataBytes.value), c.decode(b.manifestBytes.value);
      if records.None? || manifest.None? then Some(InvalidStoredManifest)
      else if !records.value.List? || !F.AllObjects(records.value.items) then Some(InvalidDataStructure)
      else if !manifest.value.Object? then Some(InvalidStoredManifest)
      else match FirstOf(ManifestChecks(c, b, manifest.value.fields, |records.value.items|))
        case Unreadable => Some(InvalidStoredManifest)
        case Differ => Some(StoredReportEvidenceMismatch)
        case Agree => if b.quarantineCount != 0 then Some(QuarantinedRows) else None
  }

  predicate FieldIs(doc: map<string, F.Json>, field: string, expected: string) {
    field in doc && doc[field] == F.Text(expected)
  }

  /** What retained evidence must show: intact bytes, a manifest describing exactly this batch, one receipt per
      row, and no quarantined row. */
  predicate Certified(c: F.Codec, b: StoredBatch) {
    b.dataBytes.Some? && b.manifestBytes.Some? &&
    c.sha(b.dataBytes.value) == b.fileChecksum && c.sha(b.manifestBytes.value) == b.manifestChecksum &&
    c.decode(b.dataBytes.value).Some? && c.decode(b.manifestBytes.value).Some? &&
    var records, manifest := c.decode(b.dataBytes.value).value, c.decode(b.manifestBytes.value).value;
    records.List? && F.AllObjects(records.items) && manifest.Object? &&
    Labelled(b, manifest.fields) && Describes(c, b, manifest.fields, |records.items|) && b.quarantineCount == 0
  }

  /** The manifest names the batch's file, report, source and entity. */
  predicate Labelled(b: StoredBatch, doc: map<string, F.Json>) {
    FieldIs(doc, "filename", b.filename) &&
    (FieldIs(doc, "report_type", ReportName(b.report)) || FieldIs(doc, "report_type", ReportValue(b.report))) &&
    "source_system" in doc && doc["source_system"].Text? && SourceLabel(b.report, doc["source_system"].s) &&
    FieldIs(doc, "entity_type", EntityName(b.report))
  }

  /** The manifest's date, schema, checksum and row count are the batch's, and every count agrees. */
  predicate Describes(c: F.Codec, b: StoredBatch, doc: map<string, F.Json>, rows: int) {
    FieldIs(doc, "report_date", c.isoDate(b.day)) && FieldIs(doc, "schema_version", "1") &&
    FieldIs(doc, "checksum_sha256", b.fileChecksum) &&
    "row_count" in doc && doc["row_count"] == F.Num(rows) && b.declaredRows == b.observedRows == b.receiptCount == rows
  }

  lemma {:induction false} FirstOfAgree(checks: seq<Check>)
    ensures FirstOf(checks) == Agree <==> forall i :: 0 <= i < |checks| ==> checks[i] == Agree
  {
    if checks != [] {
      FirstOfAgree(checks[1..]);
      assert forall i :: 0 < i < |checks| ==> checks[i] == checks[1..][i - 1];
    }
  }

  lemma ReportLabelListed(r: ReportType)
    ensures ReportName(r) in REPORT_LABELS && ReportValue(r) in REPORT_LABELS
  {
    match r
    case Orders => assert REPORT_LABELS[0] == ReportName(r) && REPORT_LABELS[6] == ReportValue(r);
    case Payments => assert REPORT_LABELS[1] == ReportName(r) && REPORT_LABELS[7] == ReportValue(r);
    case Refunds => assert REPORT_LABELS[2] == ReportName(r) && REPORT_LABELS[8] == ReportValue(r);
    case Fees => assert REPORT_LABELS[3] == ReportName(r) && REPORT_LABELS[9] == ReportValue(r);
    case SettlementLines => assert REPORT_LABELS[4] == ReportName(r) && REPORT_LABELS[10] == ReportValue(r);
    case Payouts => assert REPORT_LABELS[5] == ReportName(r) && REPORT_LABELS[11] == ReportValue(r);
  }

  lemma ReportCheckMeaning(doc: map<string, F.Json>, r: ReportType)
    ensures ReportCheck(doc, r) == Agree <==>
      FieldIs(doc, "report_type", ReportName(r)) || FieldIs(doc, "report_type", ReportValue(r))
  {
    ReportLabelListed(r);
  }

  lemma LabelChecksMeaning(b: StoredBatch, doc: map<string, F.Json>)
    ensures FirstOf(LabelChecks(b, doc)) == Agree <==> Labelled(b, doc)
  {
    var checks := LabelChecks(b, doc);
    FirstOfAgree(checks);
    ReportCheckMeaning(doc, b.report);
    assert (forall i :: 0 <= i < |checks| ==> checks[i] == Agree) <==>
      checks[0] == Agree && checks[1] == Agree && checks[2] == Agree && checks[3] == Agree;
  }

  lemma ValueChecksMeaning(c: F.Codec, b: StoredBatch, doc: map<string, F.Json>, rows: int)
    ensures FirstOf(ValueChecks(c, b, doc, rows)) == Agree <==> Describes(c, b, doc, rows)
  {
    var checks := ValueChecks(c, b, doc, rows);
    FirstOfAgree(checks);
    assert (forall i :: 0 <= i < |checks| ==> checks[i] == Agree) <==>
      checks[0] == Agree && checks[1] == Agree && checks[2] == Agree && checks[3] == Agree && checks[4] == Agree &&
      checks[5] == Agree && checks[6] == Agree;
  }

  lemma ManifestChecksMeaning(c: F.Codec, b: StoredBatch, doc: map<string, F.Json>, rows: int)
    ensures FirstOf(ManifestChecks(c, b, doc, rows)) == Agree <==> Labelled(b, doc) && Describes(c, b, doc, rows)
  {
    var first, second := LabelChecks(b, doc), ValueChecks(c, b, doc, rows);
    LabelChecksMeaning(b, doc);
    ValueChecksMeaning(c, b, doc, rows);
    BothAgree(first, second);
  }

  lemma BothAgree(a: seq<Check>, b: seq<Check>)
    ensures FirstOf(a + b) == Agree <==> FirstOf(a) == Agree && FirstOf(b) == Agree
  {
    FirstOfAgree(a);
    FirstOfAgree(b);
    FirstOfAgree(a + b);
    if forall i :: 0 <= i < |a + b| ==> (a + b)[i] == Agree {
      assert forall i :: 0 <= i < |a| ==> a[i] == (a + b)[i];
      assert forall i :: 0 <= i < |b| ==> b[i] == (a + b)[|a| + i];
    }
  }

  /** The stored-evidence check finds no problem exactly on certified batches. */
  lemma NoProblemMeansCertified(c: F.Codec, b: StoredBatch)
    ensures VerifyStoredReport(c, b).None? <==> Certified(c, b)
  {
    if b.dataBytes.Some? && b.manifestBytes.Some? {
      var records, manifest := c.decode(b.dataBytes.value), c.decode(b.manifestBytes.value);
      if records.Some? && manifest.Some? && records.value.List? && manifest.value.Object? {
        ManifestChecksMeaning(c, b, manifest.value.fields, |records.value.items|);
      }
    }
  }

  // ---- The latest batch of a day ----

  datatype ReportDay = ReportDay(day: int, report: ReportType)

  function DayOfBatch(b: StoredBatch): ReportDay { ReportDay(b.day, b.report) }

  function ArrivalKey(b: StoredBatch): Key { [N(b.receivedAt), S(b.batchId)] }

  function VisibleAt(asOf: int): StoredBatch -> bool {
    (b: StoredBatch) => b.committed && b.receivedAt <= asOf
  }

  ghost predicate DistinctBatches(batches: seq<StoredBatch>) {
    forall i, j :: 0 <= i < j < |batches| ==> batches[i].batchId != batches[j].batchId
  }

  /** The last committed batch of the day and report that had arrived by `asOf`. */
  ghost predicate IsLatest(batches: seq<StoredBatch>, asOf: int, k: ReportDay, b: StoredBatch) {
    b in batches && VisibleAt(asOf)(b) && DayOfBatch(b) == k &&
    forall x :: x in batches && VisibleAt(asOf)(x) && DayOfBatch(x) == k ==>
      x == b || KeyLess(ArrivalKey(x), ArrivalKey(b))
  }

  ghost predicate NoBatch(batches: seq<StoredBatch>, asOf: int, k: ReportDay) {
    forall x :: x in batches && VisibleAt(asOf)(x) ==> DayOfBatch(x) != k
  }

  /** Later batches overwrite earlier ones. */
  method LatestBatches(batches: seq<StoredBatch>, asOf: int) returns (latest: map<ReportDay, StoredBatch>)
    requires DistinctBatches(batches)
    ensures forall k :: k in latest ==> IsLatest(batches, asOf, k, latest[k])
    ensures forall k :: k !in latest ==> NoBatch(batches, asOf, k)
  {
    var visible := Sort(ArrivalKey, Filter(VisibleAt(asOf), batches));
    ArrivalOrder(batches, asOf);
    latest := Overwrite(visible);
    forall k | k in latest
      ensures IsLatest(batches, asOf, k, latest[k])
    {
      LastIsLatest(batches, asOf, visible, k, latest[k]);
    }
    assert forall k, x :: k !in latest && x in visible ==> DayOfBatch(x) != k;
  }

  method Overwrite(visible: seq<StoredBatch>) returns (latest: map<ReportDay, StoredBatch>)
    ensures forall k :: k in latest ==>
      exists i :: LastOfKey(DayOfBatch, visible, i) && visible[i] == latest[k] && DayOfBatch(latest[k]) == k
    ensures forall x :: x in visible ==> DayOfBatch(x) in latest
  {
    latest := map[];
    for i := 0 to |visible|
      invariant forall k :: k in latest ==>
        exists j :: LastOfKey(DayOfBatch, visible[..i], j) && visible[j] == latest[k] && DayOfBatch(latest[k]) == k
      invariant forall j :: 0 <= j < i ==> DayOfBatch(visible[j]) in latest
    {
      OverwriteStep(visible, i, latest);
      latest := latest[DayOfBatch(visible[i]) := visible[i]];
    }
    assert visible[..|visible|] == visible;
  }

  lemma OverwriteStep(visible: seq<StoredBatch>, i: nat, latest: map<ReportDay, StoredBatch>)
    requires i < |visible|
    requires forall k :: k in latest ==>
      exists j :: LastOfKey(DayOfBatch, visible[..i], j) && visible[j] == latest[k] && DayOfBatch(latest[k]) == k
    ensures var after := latest[DayOfBatch(visible[i]) := visible[i]];
      forall k :: k in after ==>
        exists j :: LastOfKey(DayOfBatch, visible[..i + 1], j) && visible[j] == after[k] && DayOfBatch(after[k]) == k
  {
    var after := latest[DayOfBatch(visible[i]) := visible[i]];
    forall k | k in after
      ensures exists j ::
        LastOfKey(DayOfBatch, visible[..i + 1], j) && visible[j] == after[k] && DayOfBatch(after[k]) == k
    {
      if k == DayOfBatch(visible[i]) {
        assert LastOfKey(DayOfBatch, visible[..i + 1], i);
      } else {
        var j :| LastOfKey(DayOfBatch, visible[..i], j) && visible[j] == latest[k] && DayOfBatch(latest[k]) == k;
        assert forall n :: j < n < i ==> visible[..i][n] == visible[..i + 1][n];
        assert LastOfKey(DayOfBatch, visible[..i + 1], j);
      }
    }
  }

  lemma ArrivalOrder(batches: seq<StoredBatch>, asOf: int)
    requires DistinctBatches(batches)
    ensures var visible := Sort(ArrivalKey, Filter(VisibleAt(asOf), batches));
      StrictlySorted(ArrivalKey, visible) && forall x :: x in visible <==> x in batches && VisibleAt(asOf)(x)
  {
    var kept := Filter(VisibleAt(asOf), batches);
    FilterMembers(VisibleAt(asOf), batches);
    FilterBatchIds(VisibleAt(asOf), batches);
    forall i, j | 0 <= i < j < |kept|
      ensures ArrivalKey(kept[i]) != ArrivalKey(kept[j])
    {
      assert ArrivalKey(kept[i])[1] == S(kept[i].batchId) && ArrivalKey(kept[j])[1] == S(kept[j].batchId);
    }
    SortStrict(ArrivalKey, kept);
    SortMembers(ArrivalKey, kept);
  }

  lemma {:induction false} FilterBatchIds(p: StoredBatch -> bool, s: seq<StoredBatch>)
    requires DistinctBatches(s)
    ensures DistinctBatches(Filter(p, s))
  {
    if s != [] {
      var init, last := s[..|s| - 1], s[|s| - 1];
      assert forall i :: 0 <= i < |init| ==> init[i] == s[i];
      FilterBatchIds(p, init);
      forall x | x in Filter(p, init)
        ensures x.batchId != last.batchId
      {
        FilterMember(p, init, x);
        var i :| 0 <= i < |init| && init[i] == x;
        assert s[i].batchId != s[|s| - 1].batchId;
      }
    }
  }

  lemma LastIsLatest(batches: seq<StoredBatch>, asOf: int, visible: seq<StoredBatch>, k: ReportDay, b: StoredBatch)
    requires StrictlySorted(ArrivalKey, visible) && forall x :: x in visible <==> x in batches && VisibleAt(asOf)(x)
    requires exists i :: LastOfKey(DayOfBatch, visible, i) && visible[i] == b && DayOfBatch(b) == k
    ensures IsLatest(batches, asOf, k, b)
  {
    var i :| LastOfKey(DayOfBatch, visible, i) && visible[i] == b;
    forall x | x in batches && VisibleAt(asOf)(x) && DayOfBatch(x) == k
      ensures x == b || KeyLess(ArrivalKey(x), ArrivalKey(b))
    {
      assert x in visible;
      var j :| 0 <= j < |visible| && visible[j] == x;
      if j < i {
        assert KeyLess(ArrivalKey(visible[j]), ArrivalKey(visible[i]));
      }
    }
    assert visible[i] in visible;
  }

  // ---- One day of one report ----

  type Deadline = (int, ReportType) -> int

  /** COMPLETE with a certified latest batch; otherwise PENDING until the deadline and INCOMPLETE from then on. */
  function DayState(c: F.Codec, deadline: Deadline, asOf: int, k: ReportDay,
                    latest: map<ReportDay, StoredBatch>): Completeness {
    if k in latest && VerifyStoredReport(c, latest[k]).None? then Complete
    else if asOf < deadline(k.day, k.report) then Pending
    else Incomplete
  }

  /** The evaluation names the deciding batch, and blames missing files only when there is no batch. */
  ghost predicate ShowsEvidence(c: F.Codec, latest: map<ReportDay, StoredBatch>, r: CompletenessResult) {
    var k := ReportDay(r.status.day, r.status.report);
    r.status.batchId == (if k in latest then Some(latest[k].batchId) else None) &&
    (r.missingOnly <==> k !in latest || VerifyStoredReport(c, latest[k]).None?)
  }

  method EvaluateDay(c: F.Codec, deadline: Deadline, asOf: int, k: ReportDay, latest: map<ReportDay, StoredBatch>)
    returns (r: CompletenessResult)
    ensures r.status.report == k.report && r.status.day == k.day &&
      r.status.state == DayState(c, deadline, asOf, k, latest)
    ensures ShowsEvidence(c, latest, r)
  {
    r := EvaluateReport(k.report, k.day, asOf, deadline(k.day, k.report), Evidence(None, None));
    if k !in latest {
      return;
    }
    var problem := VerifyStoredReport(c, latest[k]);
    var state := if problem.None? then Complete else if asOf < deadline(k.day, k.report) then Pending else Incomplete;
    r := CompletenessResult(ReportStatus(k.report, k.day, state, Some(latest[k].batchId)), problem.None?);
  }

  // ---- The worst day of each report ----

  function Severity(s: Completeness): int {
    match s
    case Complete => 0
    case Pending => 1
    case Incomplete => 2
  }

  predicate Worse(a: CompletenessResult, b: CompletenessResult) {
    Severity(a.status.state) > Severity(b.status.state) ||
    (Severity(a.status.state) == Severity(b.status.state) && a.status.day < b.status.day)
  }

  const REPORTS := [Orders, Payments, Refunds, Fees, SettlementLines, Payouts]

  /** The evaluations of one report, one per expected day. */
  ghost predicate EvaluatedDays(c: F.Codec, deadline: Deadline, asOf: int, latest: map<ReportDay, StoredBatch>,
                                days: seq<int>, report: ReportType,
                                results: seq<CompletenessResult>)
  {
    |results| == |days| && forall i :: 0 <= i < |days| ==>
      results[i].status.report == report && results[i].status.day == days[i] && ShowsEvidence(c, latest, results[i]) &&
      results[i].status.state == DayState(c, deadline, asOf, ReportDay(days[i], report), latest)
  }

  method EvaluateDays(c: F.Codec, deadline: Deadline, asOf: int, latest: map<ReportDay, StoredBatch>, days: seq<int>,
                      report: ReportType)
    returns (results: seq<CompletenessResult>)
    ensures EvaluatedDays(c, deadline, asOf, latest, days, report, results)
  {
    results := [];
    for i := 0 to |days|
      invariant EvaluatedDays(c, deadline, asOf, latest, days[..i], report, results)
    {
      var r := EvaluateDay(c, deadline, asOf, ReportDay(days[i], report), latest);
      results := results + [r];
    }
    assert days[..|days|] == days;
  }

  /** The maximum by severity, the earliest day among equals. */
  method WorstOf(results: seq<CompletenessResult>) returns (w: CompletenessResult)
    requires results != []
    ensures w in results && forall x :: x in results ==> !Worse(x, w)
  {
    w := results[0];
    for i := 1 to |results|
      invariant w in results && forall j :: 0 <= j < i ==> !Worse(results[j], w)
    {
      if Worse(results[i], w) {
        w := results[i];
      }
    }
  }

  datatype LoadError = NoExpectedDays

  /** One entry per report. It is COMPLETE exactly when every expected day of the report is, and otherwise it is an
      earliest worst day. */
  ghost predicate IsLoaded(c: F.Codec, deadline: Deadline, asOf: int, latest: map<ReportDay, StoredBatch>,
                           days: set<int>, r: seq<CompletenessResult>) {
    |r| == 6 && DistinctBy(ReportOf, r) && forall x :: x in r ==> IsWorstDay(c, deadline, asOf, latest, days, x)
  }

  ghost predicate IsWorstDay(c: F.Codec, deadline: Deadline, asOf: int, latest: map<ReportDay, StoredBatch>,
                             days: set<int>, x: CompletenessResult) {
    x.status.day in days && ShowsEvidence(c, latest, x) &&
    x.status.state == DayState(c, deadline, asOf, ReportDay(x.status.day, x.status.report), latest) &&
    NoWorseDay(c, deadline, asOf, latest, days, x)
  }

  ghost predicate NoWorseDay(c: F.Codec, deadline: Deadline, asOf: int, latest: map<ReportDay, StoredBatch>,
                             days: set<int>, x: CompletenessResult) {
    forall d :: d in days ==>
      var s := DayState(c, deadline, asOf, ReportDay(d, x.status.report), latest);
      Severity(s) < Severity(x.status.state) || (s == x.status.state && x.status.day <= d)
  }

  method WorstDay(c: F.Codec, deadline: Deadline, asOf: int, latest: map<ReportDay, StoredBatch>, days: seq<int>,
                  report: ReportType)
    returns (w: CompletenessResult)
    requires days != []
    ensures w.status.report == report && IsWorstDay(c, deadline, asOf, latest, (set d | d in days), w)
  {
    var results := EvaluateDays(c, deadline, asOf, latest, days, report);
    w := WorstOf(results);
    var i :| 0 <= i < |results| && results[i] == w;
    assert w.status.day == days[i];
    forall d | d in days
      ensures var s := DayState(c, deadline, asOf, ReportDay(d, report), latest);
        Severity(s) < Severity(w.status.state) || (s == w.status.state && w.status.day <= d)
    {
      var j :| 0 <= j < |days| && days[j] == d;
      assert results[j] in results && !Worse(results[j], w);
    }
  }

  method LoadCompleteness(c: F.Codec, deadline: Deadline, asOf: int, declared: set<int>, batches: seq<StoredBatch>,
                          failedDays: set<int>)
    returns (r: Result<seq<CompletenessResult>, LoadError>, ghost latest: map<ReportDay, StoredBatch>)
    requires DistinctBatches(batches)
    ensures r.Failure? <==> ExpectedDays(declared, batches, failedDays) == {}
    ensures r.Success? ==> IsLoaded(c, deadline, asOf, latest, ExpectedDays(declared, batches, failedDays), r.value)
    ensures LatestKnown(batches, asOf, latest)
  {
    var expected := ExpectedDays(declared, batches, failedDays);
    forall a, b | a in expected && b in expected && IntKey(a) == IntKey(b)
      ensures a == b
    {
      assert IntKey(a)[0] == IntKey(b)[0];
    }
    var days := SortedList(IntKey, expected);
    var found := LatestBatches(batches, asOf);
    latest := found;
    if days == [] {
      assert expected == {};
      return Failure(NoExpectedDays), latest;
    }
    assert days[0] in expected;
    assert expected == set d | d in days;
    var results: seq<CompletenessResult> := [];
    for i := 0 to 6
      invariant |results| == i && OnePerReport(results, i)
      invariant forall x :: x in results ==> IsWorstDay(c, deadline, asOf, latest, expected, x)
    {
      var w := WorstDay(c, deadline, asOf, found, days, REPORTS[i]);
      NextReport(results, i, w);
      results := results + [w];
    }
    LoadedSorted(c, deadline, asOf, latest, expected, results);
    r := Success(Sort(StatusKey, results));
  }

  /** Days declared in advance and days any committed or failed batch reports on. */
  function ExpectedDays(declared: set<int>, batches: seq<StoredBatch>, failedDays: set<int>): set<int> {
    declared + failedDays + set b | b in batches && b.committed :: b.day
  }

  lemma LoadedSorted(c: F.Codec, deadline: Deadline, asOf: int, latest: map<ReportDay, StoredBatch>, days: set<int>,
                     results: seq<CompletenessResult>)
    requires |results| == 6 && DistinctBy(ReportOf, results)
    requires forall x :: x in results ==> IsWorstDay(c, deadline, asOf, latest, days, x)
    ensures IsLoaded(c, deadline, asOf, latest, days, Sort(StatusKey, results))
  {
    SortMembers(StatusKey, results);
    P.SortDistinctBy(StatusKey, ReportOf, results);
  }

  /** One result for each of the first `n` reports. */
  ghost predicate OnePerReport(results: seq<CompletenessResult>, n: nat)
    requires n <= 6
  {
    DistinctBy(ReportOf, results) && forall x :: x in results ==> ReportOf(x) in REPORTS[..n]
  }

  lemma NextReport(results: seq<CompletenessResult>, i: nat, w: CompletenessResult)
    requires i < 6 && OnePerReport(results, i) && w.status.report == REPORTS[i]
    ensures OnePerReport(results + [w], i + 1)
  {
    assert REPORTS[i] !in REPORTS[..i];
    assert REPORTS[..i + 1] == REPORTS[..i] + [REPORTS[i]];
    DistinctAppend(ReportOf, results, w);
  }

  // ---- No false reconciliation across days ----

  /** The latest batch of the report for the day arrived in time and passes every stored-evidence check. */
  ghost predicate DayCertified(c: F.Codec, batches: seq<StoredBatch>, asOf: int, k: ReportDay) {
    exists b :: IsLatest(batches, asOf, k, b) && Certified(c, b)
  }

  ghost predicate LatestKnown(batches: seq<StoredBatch>, asOf: int, latest: map<ReportDay, StoredBatch>) {
    (forall k :: k in latest ==> IsLatest(batches, asOf, k, latest[k])) &&
    (forall k :: k !in latest ==> NoBatch(batches, asOf, k))
  }

  lemma LatestUnique(batches: seq<StoredBatch>, asOf: int, k: ReportDay, a: StoredBatch, b: StoredBatch)
    requires IsLatest(batches, asOf, k, a) && IsLatest(batches, asOf, k, b)
    ensures a == b
  {
    KeyLessOrder(ArrivalKey(a), ArrivalKey(b), ArrivalKey(a));
  }

  lemma CompleteDayIsCertified(c: F.Codec, deadline: Deadline, asOf: int, batches: seq<StoredBatch>,
                               latest: map<ReportDay, StoredBatch>, k: ReportDay)
    requires LatestKnown(batches, asOf, latest)
    ensures DayState(c, deadline, asOf, k, latest) == Complete <==> DayCertified(c, batches, asOf, k)
  {
    if k in latest {
      NoProblemMeansCertified(c, latest[k]);
      if b :| IsLatest(batches, asOf, k, b) && Certified(c, b) {
        LatestUnique(batches, asOf, k, latest[k], b);
      }
    }
  }

  /** A report counts as complete in a run exactly when it is certified for every expected day. */
  lemma CompleteMeansEveryDay(c: F.Codec, deadline: Deadline, asOf: int, batches: seq<StoredBatch>,
                              latest: map<ReportDay, StoredBatch>, days: set<int>,
                              cs: seq<CompletenessResult>, r: ReportType)
    requires LatestKnown(batches, asOf, latest) && IsLoaded(c, deadline, asOf, latest, days, cs) &&
      HasReport(Sort(StatusKey, cs), r)
    ensures StateOf(Sort(StatusKey, cs), r) == Complete <==> forall d :: d in days ==>
      DayCertified(c, batches, asOf, ReportDay(d, r))
  {
    LookupMember(ReportOf, Sort(StatusKey, cs), r);
    SortMembers(StatusKey, cs);
    var x := Lookup(ReportOf, Sort(StatusKey, cs), r).value;
    assert x in cs && IsWorstDay(c, deadline, asOf, latest, days, x) && x.status.report == r;
    forall d | d in days
      ensures DayState(c, deadline, asOf, ReportDay(d, r), latest) == Complete <==>
        DayCertified(c, batches, asOf, ReportDay(d, r))
    {
      CompleteDayIsCertified(c, deadline, asOf, batches, latest, ReportDay(d, r));
    }
  }

  lemma ReconciledTransaction(run: Run, st: ReportStates, recs: Records, t: TransactionRow)
    requires t in Transactions(run, st, recs) && t.state == Reconciled
    ensures AllComplete(st, TRANSACTION_REPORTS)
  {
    MapMember(TransactionRule(run, st, recs), recs.orders, t);
    var o :| o in recs.orders && TransactionRule(run, st, recs)(o) == t;
    assert t == TransactionFor(run, st, ViewOrder(recs)(o));
  }

  lemma ReconciledPayoutRow(run: Run, st: ReportStates, recs: Records, p: PayoutRow)
    requires p in PayoutRows(run, st, recs) && p.state == Reconciled
    ensures AllComplete(st, PAYOUT_REPORTS)
  {
    MapMember(PayoutRowRule(run, st, recs), recs.payouts, p);
    var q :| q in recs.payouts && PayoutRowRule(run, st, recs)(q) == p;
    assert p == PayoutFor(run, st, ViewPayout(recs)(q));
  }

  lemma ResultRows(run: Run, records: seq<FinancialRecord>, conflicts: seq<Conflict>, cs: seq<CompletenessResult>)
    requires ResultFor(run, records, conflicts, cs).Success?
    ensures EveryReport(Sort(StatusKey, cs))
    ensures ResultFor(run, records, conflicts, cs).value.transactions
      == Transactions(run, StatesOf(Sort(StatusKey, cs)), Split(records))
    ensures ResultFor(run, records, conflicts, cs).value.payouts
      == PayoutRows(run, StatesOf(Sort(StatusKey, cs)), Split(records))
  {
  }

  lemma RequiredReportsCertified(c: F.Codec, deadline: Deadline, asOf: int, batches: seq<StoredBatch>,
                                 latest: map<ReportDay, StoredBatch>, days: set<int>,
                                 cs: seq<CompletenessResult>, required: set<ReportType>)
    requires LatestKnown(batches, asOf, latest) && IsLoaded(c, deadline, asOf, latest, days, cs) &&
      EveryReport(Sort(StatusKey, cs))
    ensures AllComplete(StatesOf(Sort(StatusKey, cs)), required) <==>
      forall d, r :: d in days && r in required ==> DayCertified(c, batches, asOf, ReportDay(d, r))
  {
    var sorted := Sort(StatusKey, cs);
    forall r: ReportType
      ensures StatesOf(sorted).Of(r) == Complete <==> forall d :: d in days ==>
        DayCertified(c, batches, asOf, ReportDay(d, r))
    {
      assert StatesOf(sorted).Of(r) == StateOf(sorted, r) && HasReport(sorted, r);
      CompleteMeansEveryDay(c, deadline, asOf, batches, latest, days, cs, r);
    }
  }

  /** A RECONCILED transaction or payout rests, for every expected day and every report its rules need, on a latest
      committed batch that arrived by the evaluation time and passes all stored-evidence checks. */
  lemma NoFalseReconciliation(c: F.Codec, deadline: Deadline, asOf: int, batches: seq<StoredBatch>,
                              latest: map<ReportDay, StoredBatch>, days: set<int>,
                              cs: seq<CompletenessResult>, run: Run, records: seq<FinancialRecord>,
                              conflicts: seq<Conflict>)
    requires LatestKnown(batches, asOf, latest) && IsLoaded(c, deadline, asOf, latest, days, cs)
    requires ResultFor(run, records, conflicts, cs).Success?
    ensures forall t, d, r ::
      t in ResultFor(run, records, conflicts, cs).value.transactions && t.state == Reconciled && d in days &&
      r in TRANSACTION_REPORTS ==>
      DayCertified(c, batches, asOf, ReportDay(d, r))
    ensures forall p, d, r ::
      p in ResultFor(run, records, conflicts, cs).value.payouts && p.state == Reconciled && d in days &&
      r in PAYOUT_REPORTS ==>
      DayCertified(c, batches, asOf, ReportDay(d, r))
  {
    ResultRows(run, records, conflicts, cs);
    RequiredReportsCertified(c, deadline, asOf, batches, latest, days, cs, TRANSACTION_REPORTS);
    RequiredReportsCertified(c, deadline, asOf, batches, latest, days, cs, PAYOUT_REPORTS);
    var st, recs, result := StatesOf(Sort(StatusKey, cs)), Split(records), ResultFor(run, records, conflicts, cs).value;
    forall t | t in result.transactions && t.state == Reconciled
      ensures AllComplete(st, TRANSACTION_REPORTS)
    {
      ReconciledTransaction(run, st, recs, t);
    }
    forall p | p in result.payouts && p.state == Reconciled
      ensures AllComplete(st, PAYOUT_REPORTS)
    {
      ReconciledPayoutRow(run, st, recs, p);
    }
  }

  // ---- What a loaded report says, in terms of the batches ----

  /** The day's report is uncertified although its deadline has passed. */
  ghost predicate Overdue(c: F.Codec, deadline: Deadline, asOf: int, batches: seq<StoredBatch>, k: ReportDay) {
    !DayCertified(c, batches, asOf, k) && deadline(k.day, k.report) <= asOf
  }

  lemma DayStateMeaning(c: F.Codec, deadline: Deadline, asOf: int, batches: seq<StoredBatch>,
                        latest: map<ReportDay, StoredBatch>, k: ReportDay)
    requires LatestKnown(batches, asOf, latest)
    ensures DayState(c, deadline, asOf, k, latest) == Complete <==> DayCertified(c, batches, asOf, k)
    ensures DayState(c, deadline, asOf, k, latest) == Incomplete <==> Overdue(c, deadline, asOf, batches, k)
    ensures DayState(c, deadline, asOf, k, latest) == Pending <==>
      !DayCertified(c, batches, asOf, k) && asOf < deadline(k.day, k.report)
  {
    CompleteDayIsCertified(c, deadline, asOf, batches, latest, k);
  }

  /** A report is INCOMPLETE when some expected day of it is overdue, PENDING when none is but some is uncertified, and
      COMPLETE otherwise; it shows the earliest day that makes it so. */
  lemma LoadedStates(c: F.Codec, deadline: Deadline, asOf: int, batches: seq<StoredBatch>,
                     latest: map<ReportDay, StoredBatch>, days: set<int>, rs: seq<CompletenessResult>,
                     x: CompletenessResult)
    requires LatestKnown(batches, asOf, latest) && IsLoaded(c, deadline, asOf, latest, days, rs) && x in rs
    ensures x.status.state == Incomplete <==>
      exists d :: d in days && Overdue(c, deadline, asOf, batches, ReportDay(d, x.status.report))
    ensures x.status.state == Complete <==>
      forall d :: d in days ==> DayCertified(c, batches, asOf, ReportDay(d, x.status.report))
    ensures x.status.day in days
    ensures x.status.state == Incomplete ==>
      Overdue(c, deadline, asOf, batches, ReportDay(x.status.day, x.status.report))
    ensures x.status.state == Incomplete ==>
      forall d :: d in days && Overdue(c, deadline, asOf, batches, ReportDay(d, x.status.report)) ==> x.status.day <= d
    ensures x.status.state == Pending ==> !DayCertified(c, batches, asOf, ReportDay(x.status.day, x.status.report))
    ensures x.status.state == Pending ==>
      forall d :: d in days && !DayCertified(c, batches, asOf, ReportDay(d, x.status.report)) ==> x.status.day <= d
    ensures x.status.state == Complete ==> forall d :: d in days ==> x.status.day <= d
  {
    assert IsWorstDay(c, deadline, asOf, latest, days, x);
    forall d
      ensures DayState(c, deadline, asOf, ReportDay(d, x.status.report), latest) == Complete <==>
        DayCertified(c, batches, asOf, ReportDay(d, x.status.report))
      ensures DayState(c, deadline, asOf, ReportDay(d, x.status.report), latest) == Incomplete <==>
        Overdue(c, deadline, asOf, batches, ReportDay(d, x.status.report))
    {
      DayStateMeaning(c, deadline, asOf, batches, latest, ReportDay(d, x.status.report));
    }
  }

  /** It names the deciding batch of that day, and blames missing files only when the day has no batch or nothing is
      wrong. */
  lemma LoadedEvidence(c: F.Codec, deadline: Deadline, asOf: int, batches: seq<StoredBatch>,
                       latest: map<ReportDay, StoredBatch>, days: set<int>, rs: seq<CompletenessResult>,
                       x: CompletenessResult, b: StoredBatch)
    requires LatestKnown(batches, asOf, latest) && IsLoaded(c, deadline, asOf, latest, days, rs) && x in rs
    ensures IsLatest(batches, asOf, ReportDay(x.status.day, x.status.report), b) ==> x.status.batchId == Some(b.batchId)
    ensures x.status.batchId.None? <==> NoBatch(batches, asOf, ReportDay(x.status.day, x.status.report))
    ensures x.missingOnly <==>
      NoBatch(batches, asOf, ReportDay(x.status.day, x.status.report)) || x.status.state == Complete
  {
    var k := ReportDay(x.status.day, x.status.report);
    assert IsWorstDay(c, deadline, asOf, latest, days, x);
    if k in latest {
      assert IsLatest(batches, asOf, k, latest[k]);
      assert !NoBatch(batches, asOf, k);
      if IsLatest(batches, asOf, k, b) {
        LatestUnique(batches, asOf, k, latest[k], b);
      }
    }
  }

  /** The deciding batch: committed, of that day and report, arrived by `asOf`, and no such batch arrived later; by id
      among those that arrived at once. */
  lemma LatestInFull(batches: seq<StoredBatch>, asOf: int, day: int, report: ReportType, b: StoredBatch)
    ensures IsLatest(batches, asOf, ReportDay(day, report), b) <==>
      b in batches && b.committed && b.receivedAt <= asOf && b.day == day && b.report == report &&
      forall x :: x in batches && x.committed && x.receivedAt <= asOf && x.day == day && x.report == report ==>
        x == b || x.receivedAt < b.receivedAt || (x.receivedAt == b.receivedAt && StringLess(x.batchId, b.batchId))
  {
    forall x: StoredBatch
      ensures KeyLess(ArrivalKey(x), ArrivalKey(b)) <==>
        x.receivedAt < b.receivedAt || (x.receivedAt == b.receivedAt && StringLess(x.batchId, b.batchId))
    {
      ArrivalOrderMeaning(x, b);
    }
  }

  lemma ArrivalOrderMeaning(x: StoredBatch, b: StoredBatch)
    ensures KeyLess(ArrivalKey(x), ArrivalKey(b)) <==>
      x.receivedAt < b.receivedAt || (x.receivedAt == b.receivedAt && StringLess(x.batchId, b.batchId))
  {
    var k, l := ArrivalKey(x), ArrivalKey(b);
    assert k[1..] == [S(x.batchId)] && l[1..] == [S(b.batchId)];
    assert k[1..][1..] == [] && l[1..][1..] == [] && !KeyLess([], []);
  }

  /** The names a manifest uses for each report. */
  lemma NamesInFull(r: ReportType)
    ensures ReportName(r) == (match r case Orders => "ORDERS" case Payments => "PAYMENTS" case Refunds => "REFUNDS"
                              case Fees => "FEES" case SettlementLines => "SETTLEMENT_LINES" case Payouts => "PAYOUTS")
    ensures ReportValue(r) == (match r case Orders => "orders" case Payments => "payments" case Refunds => "refunds"
                               case Fees => "fees" case SettlementLines => "settlement_lines" case Payouts => "payouts")
    ensures EntityName(r) == (match r case Orders => "ORDER" case Payments => "PAYMENT" case Refunds => "REFUND"
                              case Fees => "FEE" case SettlementLines => "SETTLEMENT_LINE" case Payouts => "PAYOUT")
    ensures forall s :: SourceLabel(r, s) <==>
      if r == Orders then s == "THREADLINE_SHOP" || s == "threadline_shop" else s == "MOCKPAY" || s == "mockpay"
  {
  }

  ghost predicate TextAt(doc: map<string, F.Json>, field: string, s: string) { field in doc && doc[field] == F.Text(s) }

  /** The stored evidence is free of problems exactly when its bytes have their checksums, its rows are objects, and the
      manifest has the batch's filename, report, source, entity, date, checksum and schema "1" and every count. */
  lemma NoProblemInFull(c: F.Codec, b: StoredBatch)
    ensures VerifyStoredReport(c, b).None? <==>
      b.dataBytes.Some? && b.manifestBytes.Some? && b.quarantineCount == 0 &&
      c.sha(b.dataBytes.value) == b.fileChecksum && c.sha(b.manifestBytes.value) == b.manifestChecksum &&
      exists rows, doc :: c.decode(b.dataBytes.value) == Some(F.List(rows)) &&
        c.decode(b.manifestBytes.value) == Some(F.Object(doc)) && ManifestOf(c, b, rows, doc)
  {
    NoProblemMeansCertified(c, b);
    if Certified(c, b) {
      assert ManifestOf(c, b, c.decode(b.dataBytes.value).value.items, c.decode(b.manifestBytes.value).value.fields);
    }
  }

  ghost predicate ManifestOf(c: F.Codec, b: StoredBatch, rows: seq<F.Json>, doc: map<string, F.Json>) {
    (forall i :: 0 <= i < |rows| ==> rows[i].Object?) && TextAt(doc, "filename", b.filename) &&
    (TextAt(doc, "report_type", ReportName(b.report)) || TextAt(doc, "report_type", ReportValue(b.report))) &&
    (if b.report == Orders
     then TextAt(doc, "source_system", "THREADLINE_SHOP") || TextAt(doc, "source_system", "threadline_shop")
     else TextAt(doc, "source_system", "MOCKPAY") || TextAt(doc, "source_system", "mockpay")) &&
    TextAt(doc, "entity_type", EntityName(b.report)) && TextAt(doc, "report_date", c.isoDate(b.day)) &&
    TextAt(doc, "schema_version", "1") && TextAt(doc, "checksum_sha256", b.fileChecksum) &&
    "row_count" in doc && doc["row_count"] == F.Num(|rows|) &&
    b.declaredRows == |rows| && b.observedRows == |rows| && b.receiptCount == |rows|
  }

  /** Which problem is reported first. */
  lemma ProblemInFull(c: F.Codec, b: StoredBatch)
    ensures VerifyStoredReport(c, b) == Some(VerifiedEvidenceMissing) <==> b.dataBytes.None? || b.manifestBytes.None?
    ensures VerifyStoredReport(c, b) == Some(DataChecksumMismatch) <==>
      b.dataBytes.Some? && b.manifestBytes.Some? && c.sha(b.dataBytes.value) != b.fileChecksum
    ensures VerifyStoredReport(c, b) == Some(ManifestChecksumMismatch) <==>
      b.dataBytes.Some? && b.manifestBytes.Some? && c.sha(b.dataBytes.value) == b.fileChecksum &&
      c.sha(b.manifestBytes.value) != b.manifestChecksum
    ensures VerifyStoredReport(c, b) == Some(QuarantinedRows) <==>
      b.quarantineCount != 0 && VerifyStoredReport(c, b.(quarantineCount := 0)).None?
  {
    NoProblemMeansCertified(c, b);
    NoProblemMeansCertified(c, b.(quarantineCount := 0));
    QuarantineLast(c, b);
  }

  lemma QuarantineLast(c: F.Codec, b: StoredBatch)
    ensures VerifyStoredReport(c, b) == Some(QuarantinedRows) <==>
      b.quarantineCount != 0 && VerifyStoredReport(c, b.(quarantineCount := 0)).None?
  {
  }

  lemma ExpectedDaysInFull(declared: set<int>, batches: seq<StoredBatch>, failedDays: set<int>, d: int)
    ensures d in ExpectedDays(declared, batches, failedDays) <==>
      d in declared || d in failedDays || exists b :: b in batches && b.committed && b.day == d
  {
  }
}
