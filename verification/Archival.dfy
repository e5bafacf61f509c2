/** Archiving a committed source file: copy, verify, rename, verify, delete the source, record; restore and
    record on failure. Any step can raise or be the last one before a crash. */
module Archival {
  import opened Sequences
  import opened Contracts

  type Bytes = seq<char>

  /** A file of the inbox, a content-addressed object of the archive, or a temporary file. The roots do not overlap. */
  datatype Path =
    | Inbox(name: string)
    | ArchiveObject(report: ReportType, day: int, checksum: string)
    | Temporary(number: int)

  type Files = map<Path, Bytes>

  datatype ArchiveStatus = ArchivePending | Archived | ArchiveFailed

  /** The archival columns of a batch row. */
  datatype Row = Row(committed: bool, report: ReportType, day: int, checksum: string, source: Option<string>,
                     archivePath: Option<Path>, status: ArchiveStatus, attempts: nat, errorRecorded: bool)

  /** What happens at the next step: it works, it raises, or the process dies before it. */
  datatype Event = Works | Raises | Dies

  datatype Outcome<+T> = Done(value: T) | Raised | Crashed

  function Destination(r: Row): Path { ArchiveObject(r.report, r.day, r.checksum) }

  ghost predicate Injective(hash: Bytes -> string) {
    forall a, b :: hash(a) == hash(b) ==> a == b
  }

  predicate Holds(hash: Bytes -> string, fs: Files, p: Path, checksum: string) {
    p in fs && hash(fs[p]) == checksum
  }

  // ---- What a step may do to the files ----

  /** Installing at `target`: no other file changes, and `target` is never replaced and only appears verified. */
  ghost predicate Installs(hash: Bytes -> string, before: Files, after: Files, target: Path, checksum: string) {
    (forall p :: p != target && !p.Temporary? ==>
     (p in before <==> p in after) && (p in before ==> after[p] == before[p])) &&
    (target in before ==> target in after && after[target] == before[target]) &&
    (target !in before && target in after ==> hash(after[target]) == checksum)
  }

  /** Archiving from `source` to `target`: an existing object is never changed, what appears is a verified copy, and
      the source disappears only when it was one and the target is one. */
  ghost predicate Archives(hash: Bytes -> string, before: Files, after: Files, source: Path, target: Path,
                           checksum: string) {
    (forall p :: p != source && p != target && !p.Temporary? ==>
     (p in before <==> p in after) && (p in before ==> after[p] == before[p])) &&
    (target in before ==> target in after && after[target] == before[target]) &&
    (target !in before && target in after ==> hash(after[target]) == checksum) &&
    (source in before && source in after ==> after[source] == before[source]) &&
    (source !in before && source in after ==> hash(after[source]) == checksum) &&
    (source in before && source !in after ==> hash(before[source]) == checksum && Holds(hash, after, target, checksum))
  }

  lemma InstallArchives(hash: Bytes -> string, before: Files, after: Files, source: Path, target: Path,
                        checksum: string)
    requires source != target
    ensures Installs(hash, before, after, target, checksum) && !source.Temporary? ==>
      Archives(hash, before, after, source, target, checksum)
    ensures Installs(hash, before, after, source, checksum) && !target.Temporary? ==>
      Archives(hash, before, after, source, target, checksum)
  {
  }

  lemma ArchivesTransitive(hash: Bytes -> string, a: Files, b: Files, c: Files, source: Path, target: Path,
                           checksum: string)
    requires Injective(hash) && Archives(hash, a, b, source, target, checksum) &&
      Archives(hash, b, c, source, target, checksum)
    ensures Archives(hash, a, c, source, target, checksum)
  {
  }

  /** Without faults, an attempt needs a verified object or a verified source, and no file that contradicts the
      checksum. */
  ghost predicate Movable(hash: Bytes -> string, fs: Files, source: Path, target: Path, checksum: string) {
    (Holds(hash, fs, target, checksum) || (target !in fs && Holds(hash, fs, source, checksum))) &&
    (source in fs ==> Holds(hash, fs, source, checksum))
  }

  // ---- What survives ----

  /** A byte-exact copy of the batch's file at its source or its destination. */
  ghost predicate Preserved(hash: Bytes -> string, fs: Files, r: Row) {
    (r.source.Some? && Holds(hash, fs, Inbox(r.source.value), r.checksum)) ||
    Holds(hash, fs, Destination(r), r.checksum)
  }

  /** Two batches with one source file and one checksum, but different destinations. */
  predicate SharesSource(r: Row, x: Row) {
    r.source.Some? && x.source == r.source && x.checksum == r.checksum && Destination(x) != Destination(r)
  }

  /** ARCHIVED is a promise about the destination. */
  ghost predicate PromiseKept(hash: Bytes -> string, fs: Files, r: Row) {
    r.status == Archived ==> Holds(hash, fs, Destination(r), r.checksum)
  }

  /** What archiving `r` does to another batch: it keeps its copy, except exactly when both share a source file that
      the attempt removed and the other batch has no object of its own. */
  lemma ArchivingPreserves(hash: Bytes -> string, r: Row, x: Row, before: Files, after: Files)
    requires r.source.Some? && Archives(hash, before, after, Inbox(r.source.value), Destination(r), r.checksum)
    requires Preserved(hash, before, x)
    ensures Preserved(hash, after, x) <==>
      !(SharesSource(r, x) && Inbox(r.source.value) !in after && !Holds(hash, before, Destination(x), x.checksum))
  {
    var source := Inbox(r.source.value);
    if Holds(hash, before, Destination(x), x.checksum) {
      assert Destination(x) in after && after[Destination(x)] == before[Destination(x)];
    } else {
      assert Holds(hash, before, Inbox(x.source.value), x.checksum);
      assert source == Inbox(x.source.value) && source !in after ==> r.checksum == x.checksum;
    }
  }

  /** The failing input: one file delivered for two days. Archiving the first batch takes the second one's only copy. */
  lemma SharedSourceLost(hash: Bytes -> string, content: Bytes)
    ensures var r := Row(true, Orders, 1, hash(content), Some("file"), None, ArchivePending, 0, false);
      var x, before, after := r.(day := 2), map[Inbox("file") := content], map[Destination(r) := content];
      SharesSource(r, x) && Archives(hash, before, after, Inbox("file"), Destination(r), r.checksum) &&
      Preserved(hash, before, x) && !Preserved(hash, after, x)
  {
  }

  ghost predicate Promises(hash: Bytes -> string, fs: Files, rows: map<int, Row>) {
    forall b :: b in rows ==> PromiseKept(hash, fs, rows[b])
  }

  lemma ArchivingKeepsPromises(hash: Bytes -> string, before: Files, after: Files, source: string, target: Path,
                               checksum: string, rows: map<int, Row>)
    requires Archives(hash, before, after, Inbox(source), target, checksum) && Promises(hash, before, rows)
    ensures Promises(hash, after, rows)
  {
    forall b | b in rows
      ensures PromiseKept(hash, after, rows[b])
    {
      assert PromiseKept(hash, before, rows[b]);
    }
  }

  /** `after` has the same batches, with the same file and destination each. */
  ghost predicate SameBatches(before: map<int, Row>, after: map<int, Row>) {
    after.Keys == before.Keys && forall b :: b in before ==>
      after[b].source == before[b].source && after[b].checksum == before[b].checksum &&
      Destination(after[b]) == Destination(before[b])
  }

  /** The row after an attempt was recorded: only an unknown source path is filled in. */
  ghost predicate Attempted(before: Row, after: Row) {
    before.committed && after.source.Some? &&
    after == before.(source := after.source, archivePath := Some(Destination(before)), attempts := before.attempts + 1,
                     errorRecorded := false)
  }

  /** The row after an attempt: its source and destination are known and the attempt is counted. */
  predicate AttemptRecorded(before: Row, sourcePath: Option<string>, after: Row) {
    before.committed && after.committed && after.report == before.report && after.day == before.day &&
    after.checksum == before.checksum &&
    after.source == (if before.source.Some? then before.source else sourcePath) &&
    after.archivePath == Some(ArchiveObject(before.report, before.day, before.checksum)) &&
    after.attempts == before.attempts + 1
  }

  /** Nothing was recorded, or one attempt on one batch. */
  predicate RowsAfter(before: map<int, Row>, batch: int, sourcePath: Option<string>, after: map<int, Row>) {
    after == before ||
    (batch in before && batch in after && after == before[batch := after[batch]] &&
     AttemptRecorded(before[batch], sourcePath, after[batch]))
  }

  /** The checks before an attempt: committed, a known and unchanged source path, an unchanged destination. */
  predicate Attemptable(r: Row, sourcePath: Option<string>) {
    r.committed && (sourcePath.Some? || r.source.Some?) &&
    (sourcePath.Some? && r.source.Some? ==> r.source == sourcePath) &&
    (r.archivePath.Some? ==> r.archivePath.value == Destination(r))
  }

  /** Only the verdict on one batch changed. */
  predicate OnlyVerdict(before: map<int, Row>, batch: int, after: map<int, Row>) {
    batch in before && batch in after &&
    after == before[batch := before[batch].(status := after[batch].status, errorRecorded := after[batch].errorRecorded)]
  }

  // ---- The service ----

  class ArchiveService {
    const hash: Bytes -> string
    var files: Files
    var rows: map<int, Row>
    var nextTemporary: nat
    /** What the coming steps do; when the list is used up, every step works. */
    var events: seq<Event>

    ghost predicate Valid()
      reads this
    {
      Injective(hash) && forall p: Path :: p in files && p.Temporary? ==> p.number < nextTemporary
    }

    constructor (hash: Bytes -> string, files: Files, rows: map<int, Row>, events: seq<Event>)
      requires Injective(hash) && forall p :: p in files ==> !p.Temporary?
      ensures Valid() && this.hash == hash && this.files == files && this.rows == rows && this.events == events
    {
      this.hash := hash;
      this.files := files;
      this.rows := rows;
      this.nextTemporary := 0;
      this.events := events;
    }

    method Tick() returns (e: Event)
      modifies this`events
      ensures old(events) == [] ==> e == Works && events == []
    {
      if events == [] {
        return Works;
      }
      e, events := events[0], events[1..];
    }

    /** One hook or system call without an effect on files. */
    method Step() returns (o: Outcome<()>)
      modifies this`events
      ensures old(events) == [] ==> o == Done(()) && events == []
    {
      var e := Tick();
      o := match e case Works => Done(()) case Raises => Raised case Dies => Crashed;
    }

    /** Reads and hashes a file; raises when it is missing or differs. */
    method VerifyChecksum(p: Path, checksum: string) returns (o: Outcome<()>)
      modifies this`events
      ensures o.Done? ==> Holds(hash, files, p, checksum)
      ensures old(events) == [] ==> events == [] && (o == if Holds(hash, files, p, checksum) then Done(()) else Raised)
    {
      o := Step();
      if o.Done? && !Holds(hash, files, p, checksum) {
        o := Raised;
      }
    }

    ghost predicate OnlyTemporaries(before: Files)
      reads this
    {
      forall p: Path :: !p.Temporary? ==> (p in files <==> p in before) && (p in files ==> files[p] == before[p])
    }

    /** Copies the source into the temporary file; a crash can leave any part of it behind. */
    method Copy(source: Path, temporary: Path) returns (o: Outcome<()>)
      requires Valid() && !source.Temporary? && temporary.Temporary? && temporary in files
      modifies this`events, this`files
      ensures Valid() && OnlyTemporaries(old(files)) && files.Keys == old(files).Keys
      ensures o.Done? ==> source in files && files[temporary] == files[source]
      ensures old(events) == [] ==> events == [] && o == if source in old(files) then Done(()) else Raised
    {
      o := Step();
      if !o.Done? || source !in files {
        return if o.Crashed? then Crashed else Raised;
      }
      assert files[source][..0] <= files[source];
      var part: nat :| part <= |files[source]|;
      files := files[temporary := files[source][..part]];
      o := Step();
      if !o.Done? {
        return;
      }
      files := files[temporary := files[source]];
      o := Step();
      if !o.Done? {
        return;
      }
      o := Step();
    }

    /** Copy, verify the copy, rename it into place, verify the object. */
    method CopyAndRename(source: Path, temporary: Path, target: Path, checksum: string) returns (o: Outcome<bool>)
      requires Valid() && !source.Temporary? && temporary.Temporary? && temporary in files && !target.Temporary? &&
        source != target
      modifies this`events, this`files
      ensures Valid() && Installs(hash, old(files), files, target, checksum)
      ensures o.Done? ==> Holds(hash, files, target, checksum) && (o.value <==> target in old(files))
      ensures old(events) == [] && target !in old(files) ==>
        events == [] && (if Holds(hash, old(files), source, checksum) then o == Done(false) else o == Raised)
    {
      var step := Copy(source, temporary);
      if !step.Done? {
        return if step.Raised? then Raised else Crashed;
      }
      step := VerifyChecksum(temporary, checksum);
      if !step.Done? {
        return if step.Raised? then Raised else Crashed;
      }
      step := Step();
      if !step.Done? {
        return if step.Raised? then Raised else Crashed;
      }
      var reused := target in files;
      if reused {
        step := VerifyChecksum(target, checksum);
        if !step.Done? {
          return if step.Raised? then Raised else Crashed;
        }
      } else {
        files := files[target := files[temporary]] - {temporary};
      }
      step := Step();
      if !step.Done? {
        return if step.Raised? then Raised else Crashed;
      }
      step := VerifyChecksum(target, checksum);
      if !step.Done? {
        return if step.Raised? then Raised else Crashed;
      }
      step := Step();
      if !step.Done? {
        return if step.Raised? then Raised else Crashed;
      }
      o := Done(reused);
    }

    /** Removing a leftover temporary file may fail, and then is only logged. */
    method CleanUp(temporary: Path) returns (crashed: bool)
      requires Valid() && temporary.Temporary?
      modifies this`events, this`files
      ensures Valid() && OnlyTemporaries(old(files))
      ensures old(events) == [] ==> events == [] && !crashed && temporary !in files
    {
      var e := Tick();
      if e == Works {
        files := files - {temporary};
      }
      crashed := e == Dies;
    }

    /** Installs a verified copy of `source` at `target`, or reuses a matching object already there. Whatever
        happens, an existing target is not changed and a new one is a verified copy. */
    method InstallVerifiedObject(source: Path, target: Path, checksum: string) returns (o: Outcome<bool>)
      requires Valid() && !source.Temporary? && !target.Temporary? && source != target
      modifies this`events, this`files, this`nextTemporary
      ensures Valid() && Installs(hash, old(files), files, target, checksum)
      ensures o.Done? ==> Holds(hash, files, target, checksum) && (o.value <==> target in old(files))
      ensures old(events) == [] ==> events == [] && !o.Crashed?
      ensures old(events) == [] ==>
        (o.Done? <==>
         Holds(hash, old(files), target, checksum) ||
         (target !in old(files) && Holds(hash, old(files), source, checksum)))
    {
      var step: Outcome<()>;
      if target in files {
        step := VerifyChecksum(target, checksum);
        if step.Done? {
          step := Step();
        }
        return match step case Done(_) => Done(true) case Raised => Raised case Crashed => Crashed;
      }
      step := VerifyChecksum(source, checksum);
      if step.Done? {
        step := Step();
      }
      if !step.Done? {
        return if step.Raised? then Raised else Crashed;
      }
      var temporary := Temporary(nextTemporary);
      nextTemporary, files := nextTemporary + 1, files[temporary := []];
      o := CopyAndRename(source, temporary, target, checksum);
      if !o.Crashed? {
        var crashed := CleanUp(temporary);
        o := if crashed then Crashed else o;
      }
    }

    /** Puts a missing source back from a verified archive object. */
    method RestoreSource(source: Path, target: Path, checksum: string) returns (o: Outcome<()>)
      requires Valid() && !source.Temporary? && !target.Temporary? && source != target
      modifies this`events, this`files, this`nextTemporary
      ensures Valid() && Installs(hash, old(files), files, source, checksum)
      ensures o.Done? ==> source in files || target !in old(files)
      ensures old(events) == [] ==> events == [] && !o.Crashed?
    {
      if source in files || target !in files {
        return Done(());
      }
      o := VerifyChecksum(target, checksum);
      if !o.Done? {
        return;
      }
      var installed := InstallVerifiedObject(target, source, checksum);
      o := match installed case Done(_) => Done(()) case Raised => Raised case Crashed => Crashed;
    }

    // ---- One attempt ----

    /** Checks the batch and records the attempt, in one transaction. */
    method PrepareAttempt(batch: int, sourcePath: Option<string>) returns (o: Outcome<Row>)
      modifies this`events, this`rows
      ensures o.Done? ==>
        batch in old(rows) && rows == old(rows)[batch := o.value] && Attempted(old(rows)[batch], o.value)
      ensures o.Done? ==>
        o.value.source == if old(rows)[batch].source.Some? then old(rows)[batch].source else sourcePath
      ensures o.Done? ==> Attemptable(old(rows)[batch], sourcePath)
      ensures !o.Done? ==> rows == old(rows)
      ensures old(events) == [] ==> events == [] && !o.Crashed?
      ensures old(events) == [] ==> (o.Done? <==> batch in old(rows) && Attemptable(old(rows)[batch], sourcePath))
    {
      var step := Step();
      if !step.Done? {
        return if step.Raised? then Raised else Crashed;
      }
      if batch !in rows || !rows[batch].committed {
        return Raised;
      }
      var row := rows[batch];
      if sourcePath.Some? && row.source.Some? && row.source != sourcePath {
        return Raised;
      }
      var source := if sourcePath.Some? then sourcePath else row.source;
      if source.None? || (row.archivePath.Some? && row.archivePath.value != Destination(row)) {
        return Raised;
      }
      step := Step();
      if !step.Done? {
        return if step.Raised? then Raised else Crashed;
      }
      row := row.(source := source, archivePath := Some(Destination(row)), attempts := row.attempts + 1,
                  errorRecorded := false);
      rows := rows[batch := row];
      o := Done(row);
    }

    /** Install, then delete the source after checking that it has not changed. */
    method MoveToArchive(source: Path, target: Path, checksum: string) returns (o: Outcome<bool>)
      requires Valid() && !source.Temporary? && !target.Temporary? && source != target
      modifies this`events, this`files, this`nextTemporary
      ensures Valid() && Archives(hash, old(files), files, source, target, checksum)
      ensures o.Done? ==>
        Holds(hash, files, target, checksum) && source !in files && (o.value <==> target in old(files))
      ensures old(events) == [] ==> events == [] && !o.Crashed?
      ensures old(events) == [] ==> (o.Done? <==> Movable(hash, old(files), source, target, checksum))
    {
      o := InstallVerifiedObject(source, target, checksum);
      InstallArchives(hash, old(files), files, source, target, checksum);
      if !o.Done? {
        return;
      }
      if source in files {
        var step := VerifyChecksum(source, checksum);
        if !step.Done? {
          return if step.Raised? then Raised else Crashed;
        }
        files := files - {source};
        step := Step();
        if !step.Done? {
          return if step.Raised? then Raised else Crashed;
        }
      }
      var step := Step();
      if step.Done? {
        step := Step();
      }
      if !step.Done? {
        return if step.Raised? then Raised else Crashed;
      }
    }

    method RecordFailure(batch: int, preserveMarker: bool) returns (crashed: bool)
      requires batch in rows
      modifies this`events, this`rows
      ensures rows == old(rows) ||
        (rows == old(rows)[batch := old(rows)[batch].(status := ArchiveFailed, errorRecorded := true)])
      ensures preserveMarker && old(rows)[batch].status == Archived ==> rows == old(rows)
      ensures old(events) == [] ==> events == [] && !crashed
      ensures old(events) == [] && !preserveMarker ==> rows[batch].status == ArchiveFailed && rows[batch].errorRecorded
    {
      var e := Tick();
      if e == Works && (!preserveMarker || rows[batch].status != Archived) {
        rows := rows[batch := rows[batch].(status := ArchiveFailed, errorRecorded := true)];
      }
      crashed := e == Dies;
    }

    /** The commit of the marker can fail before it takes effect, or only lose its answer. */
    method MarkArchived(batch: int) returns (o: Outcome<()>)
      requires batch in rows
      modifies this`events, this`rows
      ensures rows == old(rows) ||
        rows == old(rows)[batch := old(rows)[batch].(status := Archived, errorRecorded := false)]
      ensures o.Done? ==> rows == old(rows)[batch := old(rows)[batch].(status := Archived, errorRecorded := false)]
      ensures old(events) == [] ==> events == [] && o.Done?
    {
      o := Step();
      if !o.Done? {
        return;
      }
      rows := rows[batch := rows[batch].(status := Archived, errorRecorded := false)];
      o := Step();
    }

    /** The exception handler: restore a missing source, record the failure. */
    method HandleFailure(batch: int, row: Row, marker: bool) returns (crashed: bool)
      requires Valid() && batch in rows &&
        rows[batch] == row.(status := rows[batch].status, errorRecorded := rows[batch].errorRecorded)
      requires row.source.Some? && Promises(hash, files, rows)
      modifies this
      ensures Valid() && SameBatches(old(rows), rows) && Promises(hash, files, rows)
      ensures Installs(hash, old(files), files, Inbox(row.source.value), row.checksum)
      ensures OnlyVerdict(old(rows), batch, rows)
      ensures old(events) == [] ==> events == [] && !crashed
      ensures old(events) == [] && !marker ==> rows[batch].status == ArchiveFailed && rows[batch].errorRecorded
    {
      var restored := RestoreSource(Inbox(row.source.value), Destination(row), row.checksum);
      InstallArchives(hash, old(files), files, Inbox(row.source.value), Destination(row), row.checksum);
      ArchivingKeepsPromises(hash, old(files), files, row.source.value, Destination(row), row.checksum, rows);
      if restored.Crashed? {
        return true;
      }
      crashed := RecordFailure(batch, marker);
    }

    /** The part of an attempt after the batch was checked. */
    method ArchivePrepared(batch: int, row: Row) returns (o: Outcome<bool>)
      requires Valid() && batch in rows && rows[batch] == row && row.source.Some? && Promises(hash, files, rows)
      modifies this
      ensures Valid() && SameBatches(old(rows), rows) && Promises(hash, files, rows)
      ensures Archives(hash, old(files), files, Inbox(row.source.value), Destination(row), row.checksum)
      ensures OnlyVerdict(old(rows), batch, rows)
      ensures o.Done? ==>
        rows[batch].status == Archived && !rows[batch].errorRecorded && Inbox(row.source.value) !in files &&
        (o.value <==> Destination(row) in old(files))
      ensures old(events) == [] ==>
        o.Done? || (o.Raised? && rows[batch].status == ArchiveFailed && rows[batch].errorRecorded)
      ensures old(events) == [] ==>
        (o.Done? <==> Movable(hash, old(files), Inbox(row.source.value), Destination(row), row.checksum))
    {
      var source, target := Inbox(row.source.value), Destination(row);
      o := MoveToArchive(source, target, row.checksum);
      ArchivingKeepsPromises(hash, old(files), files, row.source.value, target, row.checksum, rows);
      if o.Crashed? {
        return;
      }
      var marker := o.Done?;
      if marker {
        var marked := MarkArchived(batch);
        if marked.Done? {
          return;
        }
        if marked.Crashed? {
          return Crashed;
        }
      }
      ghost var between := files;
      var crashed := HandleFailure(batch, row, marker);
      InstallArchives(hash, between, files, source, target, row.checksum);
      ArchivesTransitive(hash, old(files), between, files, source, target, row.checksum);
      o := if crashed then Crashed else Raised;
    }

    /** One attempt, under the archive lock. Whatever raises and wherever the process dies: no archive object that
        existed is changed, ARCHIVED stays a true promise, and no batch loses its last verified copy but an exposed one,
        which loses it exactly when the attempt can succeed and nothing fails. */
    method ArchiveBatch(batch: int, sourcePath: Option<string>) returns (o: Outcome<bool>)
      requires Valid() && Promises(hash, files, rows)
      modifies this
      ensures Valid() && Promises(hash, files, rows) && rows.Keys == old(rows).Keys
      ensures forall p: Path :: p.ArchiveObject? && p in old(files) ==> p in files && files[p] == old(files)[p]
      ensures RowsAfter(old(rows), batch, sourcePath, rows) && (rows == old(rows) ==> files == old(files))
      ensures forall p: Path :: p.Inbox? && (batch in rows ==> rows[batch].source != Some(p.name)) ==>
        (p in files <==> p in old(files)) && (p in files ==> files[p] == old(files)[p])
      ensures o.Done? ==>
        batch in old(rows) && AttemptRecorded(old(rows)[batch], sourcePath, rows[batch]) &&
        rows[batch].status == Archived &&
        !rows[batch].errorRecorded
      ensures old(events) == [] ==> !o.Crashed?
      ensures old(events) == [] && o.Raised? ==>
        if batch in old(rows) && Attemptable(old(rows)[batch], sourcePath) then
          AttemptRecorded(old(rows)[batch], sourcePath, rows[batch]) && rows[batch].status == ArchiveFailed &&
          rows[batch].errorRecorded
        else rows == old(rows) && files == old(files)
      ensures forall b :: b in rows && Preserved(hash, old(files), old(rows)[b]) && !Preserved(hash, files, rows[b]) ==>
        Exposed(hash, old(files), old(rows), batch, sourcePath, b) &&
        Archivable(hash, old(files), old(rows), batch, sourcePath)
      ensures old(events) == [] ==> forall b :: b in rows && Preserved(hash, old(files), old(rows)[b]) ==>
        (Preserved(hash, files, rows[b]) <==>
         !(Exposed(hash, old(files), old(rows), batch, sourcePath, b) &&
           Archivable(hash, old(files), old(rows), batch, sourcePath)))
      ensures o.Done? ==>
        batch in rows && rows[batch].status == Archived && (o.value <==> Destination(rows[batch]) in old(files))
      ensures o.Done? ==> rows[batch].source.Some? && Inbox(rows[batch].source.value) !in files
      ensures o.Done? ==>
        var target := ArchiveObject(rows[batch].report, rows[batch].day, rows[batch].checksum);
        target in files && hash(files[target]) == rows[batch].checksum
      ensures old(events) == [] ==> (o.Done? <==> Archivable(hash, old(files), old(rows), batch, sourcePath))
    {
      var prepared := PrepareAttempt(batch, sourcePath);
      if !prepared.Done? {
        return if prepared.Raised? then Raised else Crashed;
      }
      var row := prepared.value;
      ghost var middle := rows;
      o := ArchivePrepared(batch, row);
      forall b | b in rows && Preserved(hash, old(files), old(rows)[b])
        ensures Preserved(hash, files, rows[b]) <==>
          !(Exposed(hash, old(files), old(rows), batch, sourcePath, b) && Inbox(row.source.value) !in files)
      {
        PreparedPreserves(hash, old(files), old(rows), middle, batch, row, b);
        ArchivingPreserves(hash, row, middle[b], old(files), files);
        assert middle[b].source == rows[b].source && middle[b].checksum == rows[b].checksum;
      }
    }
  }

  /** Archiving `batch` puts the copy of `b` at risk: both have one source file and checksum but different destinations,
      and nothing is at the destination of `b` yet. */
  predicate Exposed(hash: Bytes -> string, fs: Files, rows: map<int, Row>, batch: int, sourcePath: Option<string>,
                    b: int)
    requires b in rows
  {
    batch in rows &&
    SharesSource(rows[batch].(source := if rows[batch].source.Some? then rows[batch].source else sourcePath),
                 rows[b]) &&
    !Holds(hash, fs, Destination(rows[b]), rows[b].checksum)
  }

  /** When an attempt without faults succeeds. */
  ghost predicate Archivable(hash: Bytes -> string, fs: Files, rows: map<int, Row>, batch: int,
                             sourcePath: Option<string>) {
    batch in rows && Attemptable(rows[batch], sourcePath) &&
    Movable(hash, fs, Inbox(if rows[batch].source.Some? then rows[batch].source.value else sourcePath.value),
            Destination(rows[batch]), rows[batch].checksum)
  }

  /** The destination names the report, the day and the content, so two batches share one only if they agree in all
      three. */
  lemma DestinationsInFull(r: Row, x: Row)
    ensures Destination(r).ArchiveObject?
    ensures Destination(r) == Destination(x) <==> r.report == x.report && r.day == x.day && r.checksum == x.checksum
  {
  }

  /** The source path of the batch is `s`: it is recorded, or given on the first attempt. */
  predicate SourceIs(r: Row, sourcePath: Option<string>, s: string) {
    (r.source == Some(s) && (sourcePath == None || sourcePath == Some(s))) ||
    (r.source == None && sourcePath == Some(s))
  }

  /** When an attempt without faults succeeds, on the columns of the batch and the files. */
  lemma ArchivableInFull(hash: Bytes -> string, fs: Files, rows: map<int, Row>, batch: int, sourcePath: Option<string>)
    ensures Archivable(hash, fs, rows, batch, sourcePath) <==>
      batch in rows && rows[batch].committed &&
      exists s :: SourceIs(rows[batch], sourcePath, s) && ReadyToMove(hash, fs, rows[batch], Inbox(s))
  {
    if batch in rows {
      var r := rows[batch];
      var s := if r.source.Some? then r.source.value else if sourcePath.Some? then sourcePath.value else "";
      assert forall n :: SourceIs(r, sourcePath, n) ==> n == s;
      assert SourceIs(r, sourcePath, s) <==>
        (sourcePath.Some? || r.source.Some?) && (sourcePath.Some? && r.source.Some? ==> r.source == sourcePath);
    }
  }

  /** The object is there and intact, or can be copied from an intact source; a source that is still there is intact. */
  predicate ReadyToMove(hash: Bytes -> string, fs: Files, r: Row, source: Path) {
    var target := ArchiveObject(r.report, r.day, r.checksum);
    (r.archivePath == None || r.archivePath == Some(target)) && (source in fs ==> hash(fs[source]) == r.checksum) &&
    if target in fs then hash(fs[target]) == r.checksum else source in fs
  }

  /** Which batch the attempt puts at risk: one of the same source file and content but another report or day, with
      nothing intact at its own destination. */
  lemma ExposedInFull(hash: Bytes -> string, fs: Files, rows: map<int, Row>, batch: int, sourcePath: Option<string>,
                      b: int)
    requires b in rows
    ensures Exposed(hash, fs, rows, batch, sourcePath, b) <==>
      batch in rows && rows[b].checksum == rows[batch].checksum && rows[b].source.Some? &&
      rows[b].source == (if rows[batch].source == None then sourcePath else rows[batch].source) &&
      (rows[b].report != rows[batch].report || rows[b].day != rows[batch].day) &&
      var target := ArchiveObject(rows[b].report, rows[b].day, rows[b].checksum);
      target !in fs || hash(fs[target]) != rows[b].checksum
  {
  }

  /** Learning a source path can only add a place where a copy may be. */
  lemma PreparedPreserves(hash: Bytes -> string, fs: Files, before: map<int, Row>, after: map<int, Row>, batch: int,
                          row: Row, b: int)
    requires batch in before && after == before[batch := row] && Attempted(before[batch], row) && b in before
    requires before[batch].source.Some? ==> row.source == before[batch].source
    requires Preserved(hash, fs, before[b])
    ensures Preserved(hash, fs, after[b])
  {
  }
}
