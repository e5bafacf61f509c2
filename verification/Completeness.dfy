/** When one expected source report counts as complete. */
module ReportCompleteness {
  import opened Sequences
  import opened Contracts
  import opened Reconciliation

  datatype SourceSystem = Shop | MockPay

  datatype DataFile = DataFile(batchId: string, source: SourceSystem, report: ReportType, day: int, receivedAt: int,
                               rows: nat, sha: string)

  datatype ReportManifest = ReportManifest(batchId: string, source: SourceSystem, report: ReportType, day: int,
                                           generatedAt: int, rows: nat, sha: string)

  datatype ManifestEvidence = ValidManifest(receivedAt: int, manifest: ReportManifest) | BrokenManifest(receivedAt: int)

  datatype Evidence = Evidence(dataFile: Option<DataFile>, manifest: Option<ManifestEvidence>)

  datatype Issue =
    | DataFileMissing
    | ManifestMissing
    | ManifestInvalid
    | ManifestSourceMismatch
    | ManifestReportTypeMismatch
    | ManifestBusinessDateMismatch
    | ManifestGeneratedAfterReceipt
    | DataSourceMismatch
    | DataReportTypeMismatch
    | DataBusinessDateMismatch
    | BatchIdMismatch
    | RowCountMismatch
    | ChecksumMismatch

  function SourceOf(r: ReportType): SourceSystem {
    if r == Orders then Shop else MockPay
  }

  function VisibleDataFile(e: Evidence, asOf: int): Option<DataFile> {
    if e.dataFile.Some? && e.dataFile.value.receivedAt <= asOf then e.dataFile else None
  }

  function VisibleManifest(e: Evidence, asOf: int): Option<ManifestEvidence> {
    if e.manifest.Some? && e.manifest.value.receivedAt <= asOf then e.manifest else None
  }

  // ---- Each issue on its own ----

  predicate HasManifest(m: Option<ManifestEvidence>) { m.Some? && m.value.ValidManifest? }

  predicate HasBoth(d: Option<DataFile>, m: Option<ManifestEvidence>) { d.Some? && HasManifest(m) }

  predicate Raised(i: Issue, report: ReportType, day: int, d: Option<DataFile>, m: Option<ManifestEvidence>) {
    match i
    case DataFileMissing => d.None?
    case ManifestMissing => m.None?
    case ManifestInvalid => m.Some? && m.value.BrokenManifest?
    case ManifestSourceMismatch => HasManifest(m) && m.value.manifest.source != SourceOf(report)
    case ManifestReportTypeMismatch => HasManifest(m) && m.value.manifest.report != report
    case ManifestBusinessDateMismatch => HasManifest(m) && m.value.manifest.day != day
    case ManifestGeneratedAfterReceipt => HasManifest(m) && m.value.manifest.generatedAt > m.value.receivedAt
    case DataSourceMismatch => HasBoth(d, m) && d.value.source != SourceOf(report)
    case DataReportTypeMismatch => HasBoth(d, m) && d.value.report != report
    case DataBusinessDateMismatch => HasBoth(d, m) && d.value.day != day
    case BatchIdMismatch => HasBoth(d, m) && m.value.manifest.batchId != d.value.batchId
    case RowCountMismatch => HasBoth(d, m) && m.value.manifest.rows != d.value.rows
    case ChecksumMismatch => HasBoth(d, m) && m.value.manifest.sha != d.value.sha
  }

  /** The list of issues, as it is appended; each issue is raised on its own condition. */
  method CollectIssues(report: ReportType, day: int, d: Option<DataFile>, m: Option<ManifestEvidence>)
    returns (issues: seq<Issue>)
    ensures forall i :: i in issues <==> Raised(i, report, day, d, m)
  {
    issues := [];
    if d.None? {
      issues := issues + [DataFileMissing];
    }
    if m.None? {
      issues := issues + [ManifestMissing];
      return;
    }
    if m.value.BrokenManifest? {
      issues := issues + [ManifestInvalid];
      return;
    }
    var own := CollectManifestIssues(report, day, m.value.receivedAt, m.value.manifest);
    issues := issues + own;
    if d.None? {
      return;
    }
    var more := CollectDataIssues(report, day, d.value, m.value.manifest);
    issues := issues + more;
  }

  method CollectManifestIssues(report: ReportType, day: int, receivedAt: int, manifest: ReportManifest)
    returns (issues: seq<Issue>)
    ensures forall i :: i in issues <==>
      (i == ManifestSourceMismatch && manifest.source != SourceOf(report)) ||
      (i == ManifestReportTypeMismatch && manifest.report != report) ||
      (i == ManifestBusinessDateMismatch && manifest.day != day) ||
      (i == ManifestGeneratedAfterReceipt && manifest.generatedAt > receivedAt)
  {
    issues := [];
    if manifest.source != SourceOf(report) {
      issues := issues + [ManifestSourceMismatch];
    }
    if manifest.report != report {
      issues := issues + [ManifestReportTypeMismatch];
    }
    if manifest.day != day {
      issues := issues + [ManifestBusinessDateMismatch];
    }
    if manifest.generatedAt > receivedAt {
      issues := issues + [ManifestGeneratedAfterReceipt];
    }
  }

  method CollectDataIssues(report: ReportType, day: int, d: DataFile, manifest: ReportManifest)
    returns (issues: seq<Issue>)
    ensures forall i :: i in issues <==>
      (i == DataSourceMismatch && d.source != SourceOf(report)) ||
      (i == DataReportTypeMismatch && d.report != report) ||
      (i == DataBusinessDateMismatch && d.day != day) || (i == BatchIdMismatch && manifest.batchId != d.batchId) ||
      (i == RowCountMismatch && manifest.rows != d.rows) || (i == ChecksumMismatch && manifest.sha != d.sha)
  {
    issues := [];
    if d.source != SourceOf(report) {
      issues := issues + [DataSourceMismatch];
    }
    if d.report != report {
      issues := issues + [DataReportTypeMismatch];
    }
    if d.day != day {
      issues := issues + [DataBusinessDateMismatch];
    }
    if manifest.batchId != d.batchId {
      issues := issues + [BatchIdMismatch];
    }
    if manifest.rows != d.rows {
      issues := issues + [RowCountMismatch];
    }
    if manifest.sha != d.sha {
      issues := issues + [ChecksumMismatch];
    }
  }

  /** A visible data file and a visible valid manifest that agree with the expected report and with each other. */
  predicate Agrees(report: ReportType, day: int, d: DataFile, received: int, m: ReportManifest) {
    m.source == d.source == SourceOf(report) && m.report == d.report == report && m.day == d.day == day &&
    m.generatedAt <= received &&
    m.batchId == d.batchId && m.rows == d.rows && m.sha == d.sha
  }

  predicate Proven(report: ReportType, day: int, asOf: int, e: Evidence) {
    var d, m := VisibleDataFile(e, asOf), VisibleManifest(e, asOf);
    HasBoth(d, m) && Agrees(report, day, d.value, m.value.receivedAt, m.value.manifest)
  }

  lemma NoIssueMeansAgreement(report: ReportType, day: int, d: Option<DataFile>, m: Option<ManifestEvidence>)
    ensures (forall i: Issue :: !Raised(i, report, day, d, m)) <==>
      HasBoth(d, m) && Agrees(report, day, d.value, m.value.receivedAt, m.value.manifest)
  {
    if forall i: Issue :: !Raised(i, report, day, d, m) {
      assert !Raised(DataFileMissing, report, day, d, m) && !Raised(ManifestMissing, report, day, d, m);
      assert !Raised(ManifestInvalid, report, day, d, m) && !Raised(ManifestSourceMismatch, report, day, d, m);
      assert !Raised(ManifestReportTypeMismatch, report, day, d, m) &&
        !Raised(ManifestBusinessDateMismatch, report, day, d, m);
      assert !Raised(ManifestGeneratedAfterReceipt, report, day, d, m) &&
        !Raised(DataSourceMismatch, report, day, d, m);
      assert !Raised(DataReportTypeMismatch, report, day, d, m) && !Raised(DataBusinessDateMismatch, report, day, d, m);
      assert !Raised(BatchIdMismatch, report, day, d, m) && !Raised(RowCountMismatch, report, day, d, m);
      assert !Raised(ChecksumMismatch, report, day, d, m);
    }
  }

  /** COMPLETE exactly for proven evidence; otherwise PENDING until the deadline and INCOMPLETE from then on. */
  method EvaluateReport(report: ReportType, day: int, asOf: int, deadline: int, e: Evidence)
    returns (r: CompletenessResult)
    ensures r.status.report == report && r.status.day == day
    ensures r.status.state == if Proven(report, day, asOf, e) then Complete else if asOf < deadline then Pending
      else Incomplete
    ensures r.status.batchId ==
      var d, m := VisibleDataFile(e, asOf), VisibleManifest(e, asOf);
      if HasManifest(m) then Some(m.value.manifest.batchId) else if d.Some? then Some(d.value.batchId) else None
    ensures r.missingOnly <==>
      Proven(report, day, asOf, e) || OnlyMissing(report, day, VisibleDataFile(e, asOf), VisibleManifest(e, asOf))
    ensures e == Evidence(None, None) ==> r.missingOnly && r.status.batchId == None
  {
    var d, m := VisibleDataFile(e, asOf), VisibleManifest(e, asOf);
    var issues := CollectIssues(report, day, d, m);
    NoIssueMeansAgreement(report, day, d, m);
    assert issues == [] <==> forall i: Issue :: !Raised(i, report, day, d, m) by {
      assert issues != [] ==> issues[0] in issues;
    }
    var state := if issues == [] then Complete else if asOf < deadline then Pending else Incomplete;
    var batchId := if HasManifest(m) then Some(m.value.manifest.batchId) else if d.Some? then Some(d.value.batchId)
      else None;
    r := CompletenessResult(ReportStatus(report, day, state, batchId), forall i :: i in issues ==>
                            i == DataFileMissing || i == ManifestMissing);
  }

  /** Nothing but a missing data file or a missing manifest is wrong. */
  ghost predicate OnlyMissing(report: ReportType, day: int, d: Option<DataFile>, m: Option<ManifestEvidence>) {
    forall i: Issue :: Raised(i, report, day, d, m) ==> i == DataFileMissing || i == ManifestMissing
  }

  // ---- Issue by issue ----

  /** Orders come from the shop and every other report from the payment provider. */
  predicate FromItsSource(report: ReportType, s: SourceSystem) {
    (report == Orders && s == Shop) || (report != Orders && s == MockPay)
  }

  /** The manifest's own issues. A missing or unreadable manifest has no others. */
  lemma ManifestIssuesInFull(report: ReportType, day: int, d: Option<DataFile>, m: Option<ManifestEvidence>)
    ensures Raised(DataFileMissing, report, day, d, m) <==> d == None
    ensures Raised(ManifestMissing, report, day, d, m) <==> m == None
    ensures Raised(ManifestInvalid, report, day, d, m) <==> exists at :: m == Some(BrokenManifest(at))
    ensures Raised(ManifestSourceMismatch, report, day, d, m) <==>
      exists at, x :: m == Some(ValidManifest(at, x)) && !FromItsSource(report, x.source)
    ensures Raised(ManifestReportTypeMismatch, report, day, d, m) <==>
      exists at, x :: m == Some(ValidManifest(at, x)) && x.report != report
    ensures Raised(ManifestBusinessDateMismatch, report, day, d, m) <==>
      exists at, x :: m == Some(ValidManifest(at, x)) && x.day != day
    ensures Raised(ManifestGeneratedAfterReceipt, report, day, d, m) <==>
      exists at, x :: m == Some(ValidManifest(at, x)) && x.generatedAt > at
  {
    if m.Some? && m.value.ValidManifest? {
      assert m == Some(ValidManifest(m.value.receivedAt, m.value.manifest));
    }
    if m.Some? && m.value.BrokenManifest? {
      assert m == Some(BrokenManifest(m.value.receivedAt));
    }
  }

  /** The issues between a data file and a readable manifest. */
  lemma DataIssuesInFull(report: ReportType, day: int, x: DataFile, at: int, m: ReportManifest)
    ensures var r := (i: Issue) => Raised(i, report, day, Some(x), Some(ValidManifest(at, m)));
      (r(DataSourceMismatch) <==> !FromItsSource(report, x.source)) &&
      (r(DataReportTypeMismatch) <==> x.report != report) &&
      (r(DataBusinessDateMismatch) <==> x.day != day) && (r(BatchIdMismatch) <==> x.batchId != m.batchId) &&
      (r(RowCountMismatch) <==> x.rows != m.rows) && (r(ChecksumMismatch) <==> x.sha != m.sha)
  {
  }

  /** Evidence that arrives after the evaluation time is not seen. */
  lemma VisibleInFull(e: Evidence, asOf: int)
    ensures forall d :: VisibleDataFile(e, asOf) == Some(d) <==> e.dataFile == Some(d) && d.receivedAt <= asOf
    ensures forall m: ManifestEvidence ::
      VisibleManifest(e, asOf) == Some(m) <==> e.manifest == Some(m) && m.receivedAt <= asOf
  {
  }

  /** Proven evidence: a data file and a readable manifest, both seen in time, that name the expected report, day and
      source, and agree on the batch, the rows and the checksum. */
  lemma ProvenInFull(report: ReportType, day: int, asOf: int, e: Evidence)
    ensures Proven(report, day, asOf, e) <==> exists d, at, m ::
      e.dataFile == Some(d) && e.manifest == Some(ValidManifest(at, m)) && Fits(report, day, asOf, d, at, m)
  {
    if Proven(report, day, asOf, e) {
      var d, m := e.dataFile.value, e.manifest.value;
      assert e.manifest == Some(ValidManifest(m.receivedAt, m.manifest)) &&
        Fits(report, day, asOf, d, m.receivedAt, m.manifest);
    }
  }

  predicate Fits(report: ReportType, day: int, asOf: int, d: DataFile, at: int, m: ReportManifest) {
    d.receivedAt <= asOf && at <= asOf && m.generatedAt <= at && FromItsSource(report, d.source) &&
    m.source == d.source &&
    d.report == report && m.report == report && d.day == day && m.day == day && m.batchId == d.batchId &&
    m.rows == d.rows && m.sha == d.sha
  }
}
