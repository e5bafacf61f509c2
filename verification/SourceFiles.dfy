/** Publishing a delivery with a completion marker, and the gate that reads it. The producer renames the data
    file before it writes the manifest, and renames the manifest last. */
module SourceFiles {
  import opened Sequences
  import opened Contracts

  type Bytes = seq<char>

  type Disk = map<string, Bytes>

  datatype Json =
    | Null
    | Bool(b: bool)
    | Num(n: int)
    | Text(s: string)
    | List(items: seq<Json>)
    | Object(fields: map<string, Json>)

  /** JSON, SHA-256 and ISO dates as the repository's libraries provide them. */
  datatype Codec = Codec(encode: Json -> Bytes, decode: Bytes -> Option<Json>, sha: Bytes -> string,
                         isoDate: int -> string, fromIsoDate: string -> Option<int>)

  ghost predicate Faithful(c: Codec) {
    (forall j :: c.decode(c.encode(j)) == Some(j)) && (forall b :: IsSha(c.sha(b))) &&
    (forall d :: c.fromIsoDate(c.isoDate(d)) == Some(d)) &&
    (forall d :: !BlankText(c.isoDate(d)))
  }

  predicate IsSha(s: string) {
    |s| == 64 && forall i :: 0 <= i < 64 ==> ('0' <= s[i] <= '9' || 'a' <= s[i] <= 'f')
  }

  // ---- The manifest ----

  datatype Manifest = Manifest(filename: string, sourceSystem: string, reportType: string, reportDate: int,
                               entityType: string,
                               schemaVersion: string, rowCount: int, checksum: string)

  const TEXT_FIELDS :=
    ["filename", "source_system", "report_type", "report_date", "entity_type", "schema_version", "checksum_sha256"]

  const REPORT_ENTITIES := map["ORDERS" := "ORDER", "PAYMENTS" := "PAYMENT", "REFUNDS" := "REFUND", "FEES" := "FEE",
                               "SETTLEMENT_LINES" := "SETTLEMENT_LINE", "PAYOUTS" := "PAYOUT"]

  predicate TextField(doc: map<string, Json>, field: string) {
    field in doc && doc[field].Text? && !BlankText(doc[field].s)
  }

  function TextOf(doc: map<string, Json>, field: string): string {
    if field in doc && doc[field].Text? then doc[field].s else ""
  }

  /** Every check of the manifest parser, in its order. */
  function ParseManifest(c: Codec, content: Bytes, expectedFilename: string): Option<Manifest> {
    var document := c.decode(content);
    if document.None? || !document.value.Object? then None
    else
      var doc := document.value.fields;
      if exists f :: f in TEXT_FIELDS && !TextField(doc, f) then None
      else if TextOf(doc, "filename") != expectedFilename then None
      else if TextOf(doc, "report_type") !in REPORT_ENTITIES ||
      TextOf(doc, "entity_type") != REPORT_ENTITIES[TextOf(doc, "report_type")] then None
      else if "row_count" !in doc || !doc["row_count"].Num? || doc["row_count"].n < 0 then None
      else if !IsSha(TextOf(doc, "checksum_sha256")) then None
      else
        var day := c.fromIsoDate(TextOf(doc, "report_date"));
        if day.None? || c.isoDate(day.value) != TextOf(doc, "report_date") then None
        else Some(Manifest(TextOf(doc, "filename"), TextOf(doc, "source_system"), TextOf(doc, "report_type"), day.value,
                           TextOf(doc, "entity_type"), TextOf(doc, "schema_version"), doc["row_count"].n,
                           TextOf(doc, "checksum_sha256")))
  }

  // ---- A delivery ----

  /** The four paths of one delivery. */
  datatype Paths = Paths(data: string, dataPart: string, manifest: string, manifestPart: string)

  predicate Distinct(p: Paths) {
    p.data != p.dataPart && p.data != p.manifest && p.data != p.manifestPart && p.dataPart != p.manifest &&
    p.dataPart != p.manifestPart && p.manifest != p.manifestPart
  }

  function PathsOf(stem: string): Paths {
    Paths(stem + ".json", stem + ".json.part", stem + ".manifest.json", stem + ".manifest.json.part")
  }

  lemma PathsDistinct(stem: string)
    ensures Distinct(PathsOf(stem))
  {
    var p, n := PathsOf(stem), |stem|;
    assert p.data[n + 1] == 'j' && p.manifest[n + 1] == 'm' && p.manifestPart[n + 1] == 'm';
    assert p.dataPart[n + 1] == 'j';
    assert |p.data| == n + 5 && |p.dataPart| == n + 10 && |p.manifest| == n + 14 && |p.manifestPart| == n + 19;
  }

  datatype Delivery = Delivery(stem: string, rows: seq<map<string, Json>>, sourceSystem: string, reportType: string,
                               reportDate: int,
                               entityType: string, schemaVersion: string)

  function RowsJson(rows: seq<map<string, Json>>): Json {
    List(seq(|rows|, i requires 0 <= i < |rows| => Object(rows[i])))
  }

  function DataBytes(c: Codec, d: Delivery): Bytes { c.encode(RowsJson(d.rows)) }

  function ManifestFields(c: Codec, d: Delivery): map<string, Json> {
    map["filename" := Text(PathsOf(d.stem).data), "source_system" := Text(d.sourceSystem),
        "report_type" := Text(d.reportType),
        "report_date" := Text(c.isoDate(d.reportDate)), "entity_type" := Text(d.entityType),
          "schema_version" := Text(d.schemaVersion),
        "row_count" := Num(|d.rows|), "checksum_sha256" := Text(c.sha(DataBytes(c, d)))]
  }

  function ManifestBytes(c: Codec, d: Delivery): Bytes { c.encode(Object(ManifestFields(c, d))) }

  function Described(c: Codec, d: Delivery): Manifest {
    Manifest(PathsOf(d.stem).data, d.sourceSystem, d.reportType, d.reportDate, d.entityType, d.schemaVersion, |d.rows|,
             c.sha(DataBytes(c, d)))
  }

  // ---- The producer ----

  datatype PublishError = DirectoryMissing | FilenameTaken | InvalidMetadata | Interrupted

  /** How far the producer has come: nothing, data being written, data written, data renamed, manifest being
      written, manifest written, manifest renamed. */
  type Stage = n: nat | n <= 6

  /** The disk at a stage: the delivery's paths as the stage leaves them, every other file as before. */
  ghost predicate AtStage(c: Codec, d: Delivery, before: Disk, disk: Disk, stage: Stage) {
    var p := PathsOf(d.stem);
    (forall q :: q !in {p.data, p.dataPart, p.manifest, p.manifestPart} ==>
     (q in disk <==> q in before) && (q in disk ==> disk[q] == before[q])) &&
    (p.dataPart in disk <==> 1 <= stage <= 2) && (stage == 2 ==> disk[p.dataPart] == DataBytes(c, d)) &&
    (p.data in disk <==> 3 <= stage) && (3 <= stage ==> disk[p.data] == DataBytes(c, d)) &&
    (p.manifestPart in disk <==> 4 <= stage <= 5) && (stage == 5 ==> disk[p.manifestPart] == ManifestBytes(c, d)) &&
    (p.manifest in disk <==> stage == 6) && (stage == 6 ==> disk[p.manifest] == ManifestBytes(c, d))
  }

  predicate Free(d: Delivery, disk: Disk) {
    var p := PathsOf(d.stem);
    p.data !in disk && p.dataPart !in disk && p.manifest !in disk && p.manifestPart !in disk
  }

  /** What the producer checks before it creates any file. */
  predicate Publishable(c: Codec, d: Delivery) {
    ParseManifest(c, ManifestBytes(c, d), PathsOf(d.stem).data).Some?
  }

  /** The disk after a claim that came too late: the claim itself, unless another producer holds it. */
  function Claimed(d: Delivery, disk: Disk): Disk {
    var part := PathsOf(d.stem).dataPart;
    if part in disk then disk else disk[part := []]
  }

  class Inbox {
    var disk: Disk

    constructor (disk: Disk)
      ensures this.disk == disk
    {
      this.disk := disk;
    }

    /** Writes a new file; an interruption can leave any part of it behind. */
    method Write(path: string, content: Bytes, whole: bool)
      modifies this
      ensures path in disk && disk == old(disk)[path := disk[path]] && (whole ==> disk[path] == content)
    {
      if whole {
        disk := disk[path := content];
      } else {
        var part: nat :| part <= |content|;
        disk := disk[path := content[..part]];
      }
    }

    method Rename(source: string, target: string)
      requires source in disk && source != target
      modifies this
      ensures disk == old(disk)[target := old(disk)[source]] - {source}
    {
      disk := disk[target := disk[source]] - {source};
    }

    /** Data, rename, manifest, rename: the writes of an accepted delivery up to a stage. */
    method WriteInOrder(c: Codec, d: Delivery, stop: Stage)
      requires Free(d, disk)
      modifies this
      ensures AtStage(c, d, old(disk), disk, stop)
    {
      var p := PathsOf(d.stem);
      PathsDistinct(d.stem);
      if stop >= 1 {
        Write(p.dataPart, DataBytes(c, d), stop > 1);
      }
      if stop >= 3 {
        Rename(p.dataPart, p.data);
      }
      if stop >= 4 {
        Write(p.manifestPart, ManifestBytes(c, d), stop > 4);
      }
      if stop >= 6 {
        Rename(p.manifestPart, p.manifest);
      }
    }

    /** Publishes the delivery, stopped after any stage. `rival` are the files that others create between the first
        check of the names and the claim. A delivery refused by the first checks leaves no file; one refused after its
        claim leaves only the empty claim. */
    method PublishSourceFile(c: Codec, d: Delivery, directoryExists: bool, rival: Disk, stop: Stage)
      returns (r: Result<(), PublishError>)
      modifies this
      ensures r == (if !directoryExists then Failure(DirectoryMissing)
                    else if !Free(d, old(disk)) then Failure(FilenameTaken)
                    else if !Publishable(c, d) then Failure(InvalidMetadata)
                    else if !Free(d, old(disk) + rival) then Failure(FilenameTaken)
                    else if stop < 6 then Failure(Interrupted)
                    else Success(()))
      ensures r.Failure? && (r.error == DirectoryMissing || r.error == InvalidMetadata) ==> disk == old(disk)
      ensures r == Failure(FilenameTaken) && !Free(d, old(disk)) ==> disk == old(disk)
      ensures r == Failure(FilenameTaken) && Free(d, old(disk)) ==> disk == Claimed(d, old(disk) + rival)
      ensures r.Success? || r.error == Interrupted ==> AtStage(c, d, old(disk) + rival, disk, stop)
    {
      var p := PathsOf(d.stem);
      PathsDistinct(d.stem);
      if !directoryExists {
        return Failure(DirectoryMissing);
      }
      if !Free(d, disk) {
        return Failure(FilenameTaken);
      }
      if !Publishable(c, d) {
        return Failure(InvalidMetadata);
      }
      disk := disk + rival;
      if p.dataPart in disk {
        return Failure(FilenameTaken);
      }
      if p.data in disk || p.manifest in disk || p.manifestPart in disk {
        disk := disk[p.dataPart := []];
        return Failure(FilenameTaken);
      }
      WriteInOrder(c, d, stop);
      r := if stop < 6 then Failure(Interrupted) else Success(());
    }
  }

  // ---- The consumer ----

  datatype Gate =
    | Waiting(reason: string)
    | Rejected(reason: string)
    | Ready(manifest: Manifest, rows: seq<map<string, Json>>, dataBytes: Bytes, manifestBytes: Bytes)

  /** What the consumer sees at its reads, in the order it makes them: temporary data, temporary manifest, manifest,
      manifest contents, data contents, and the two temporary files again. */
  datatype Observation = Observation(dataPart: Disk, manifestPart: Disk, manifest: Disk, manifestBytes: Disk,
                                     dataBytes: Disk,
                                     dataPartAgain: Disk, manifestPartAgain: Disk)

  predicate AllObjects(items: seq<Json>) {
    forall i :: 0 <= i < |items| ==> items[i].Object?
  }

  function FieldsOf(items: seq<Json>): (rows: seq<map<string, Json>>)
    requires AllObjects(items)
    ensures |rows| == |items| && forall i :: 0 <= i < |rows| ==> rows[i] == items[i].fields
  {
    seq(|items|, i requires 0 <= i < |items| => items[i].fields)
  }

  function InspectSourceFile(c: Codec, stem: string, supported: set<string>, o: Observation): Gate {
    var p := PathsOf(stem);
    if p.dataPart in o.dataPart || p.manifestPart in o.manifestPart then Waiting("TEMPORARY_FILE_PRESENT")
    else if p.manifest !in o.manifest || p.manifest !in o.manifestBytes then Waiting("MANIFEST_MISSING")
    else
      var manifestBytes := o.manifestBytes[p.manifest];
      var parsed := ParseManifest(c, manifestBytes, p.data);
      if parsed.None? then Rejected("INVALID_MANIFEST")
      else if parsed.value.schemaVersion !in supported then Rejected("UNSUPPORTED_SCHEMA_VERSION")
      else if p.data !in o.dataBytes then Waiting("DATA_FILE_MISSING")
      else
        var dataBytes := o.dataBytes[p.data];
        var records := c.decode(dataBytes);
        if c.sha(dataBytes) != parsed.value.checksum then Rejected("CHECKSUM_MISMATCH")
        else if records.None? then Rejected("INVALID_DATA_JSON")
        else if !records.value.List? || !AllObjects(records.value.items) then Rejected("INVALID_DATA_STRUCTURE")
        else if |records.value.items| != parsed.value.rowCount then Rejected("ROW_COUNT_MISMATCH")
        else if p.dataPart in o.dataPartAgain ||
        p.manifestPart in o.manifestPartAgain then Waiting("TEMPORARY_FILE_PRESENT")
        else Ready(parsed.value, FieldsOf(records.value.items), dataBytes, manifestBytes)
  }

  // ---- The protocol ----

  /** The producer's own validation is the gate's: the manifest it writes parses to what it describes. */
  lemma ManifestRoundTrip(c: Codec, d: Delivery)
    requires Faithful(c) && Publishable(c, d)
    ensures ParseManifest(c, ManifestBytes(c, d), PathsOf(d.stem).data) == Some(Described(c, d))
  {
    var doc := ManifestFields(c, d);
    assert c.decode(ManifestBytes(c, d)) == Some(Object(doc));
    assert TextOf(doc, "filename") == PathsOf(d.stem).data && TextOf(doc, "source_system") == d.sourceSystem;
    assert TextOf(doc, "report_type") == d.reportType && TextOf(doc, "report_date") == c.isoDate(d.reportDate);
    assert TextOf(doc, "entity_type") == d.entityType && TextOf(doc, "schema_version") == d.schemaVersion;
    assert TextOf(doc, "checksum_sha256") == c.sha(DataBytes(c, d)) && doc["row_count"] == Num(|d.rows|);
  }

  lemma DataRoundTrip(c: Codec, d: Delivery)
    requires Faithful(c)
    ensures c.decode(DataBytes(c, d)) == Some(RowsJson(d.rows)) && AllObjects(RowsJson(d.rows).items)
    ensures FieldsOf(RowsJson(d.rows).items) == d.rows
  {
  }

  /** The disk as one consumer sees it while one producer advances, possibly stopped for good at some stage. */
  ghost predicate Interleaved(c: Codec, d: Delivery, before: Disk, o: Observation, stages: seq<Stage>) {
    |stages| == 7 && (forall i, j :: 0 <= i < j < 7 ==> stages[i] <= stages[j]) &&
    AtStage(c, d, before, o.dataPart, stages[0]) && AtStage(c, d, before, o.manifestPart, stages[1]) &&
    AtStage(c, d, before, o.manifest, stages[2]) && AtStage(c, d, before, o.manifestBytes, stages[3]) &&
    AtStage(c, d, before, o.dataBytes, stages[4]) && AtStage(c, d, before, o.dataPartAgain, stages[5]) &&
    AtStage(c, d, before, o.manifestPartAgain, stages[6])
  }

  /** However the reads fall between the producer's steps, a valid delivery is never rejected; and when the gate
      opens, the manifest was already renamed, and the bytes and records are exactly the published ones. */
  lemma CompletionMarker(c: Codec, d: Delivery, before: Disk, o: Observation, stages: seq<Stage>,
                         supported: set<string>)
    requires Faithful(c) && Publishable(c, d) && d.schemaVersion in supported && Interleaved(c, d, before, o, stages)
    ensures !InspectSourceFile(c, d.stem, supported, o).Rejected?
    ensures InspectSourceFile(c, d.stem, supported, o).Ready? ==> stages[2] == 6
    ensures InspectSourceFile(c, d.stem, supported, o).Ready? ==>
      InspectSourceFile(c, d.stem, supported, o) == Ready(Described(c, d), d.rows, DataBytes(c, d), ManifestBytes(c, d))
  {
    ManifestRoundTrip(c, d);
    DataRoundTrip(c, d);
    if PathsOf(d.stem).manifest in o.manifest {
      assert stages[2] == 6 && stages[3] == 6 && stages[4] == 6;
    }
  }

  /** Once the manifest is renamed, every later inspection finds the delivery ready. */
  lemma FinishedDeliveryIsReady(c: Codec, d: Delivery, before: Disk, o: Observation, stages: seq<Stage>,
                                supported: set<string>)
    requires Faithful(c) && Publishable(c, d) && d.schemaVersion in supported && Interleaved(c, d, before, o, stages) &&
      stages[0] == 6
    ensures InspectSourceFile(c, d.stem, supported, o).Ready?
  {
    ManifestRoundTrip(c, d);
    DataRoundTrip(c, d);
    assert forall i :: 0 <= i < 7 ==> stages[i] == 6;
  }

  /** A stopped producer never opens the gate. */
  lemma UnfinishedDeliveryWaits(c: Codec, d: Delivery, before: Disk, o: Observation, stages: seq<Stage>,
                                supported: set<string>)
    requires Faithful(c) && Publishable(c, d) && d.schemaVersion in supported && Interleaved(c, d, before, o, stages) &&
      stages[6] < 6
    ensures InspectSourceFile(c, d.stem, supported, o).Waiting?
  {
    CompletionMarker(c, d, before, o, stages, supported);
  }
}
