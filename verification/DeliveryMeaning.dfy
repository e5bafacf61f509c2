/** What a delivery is on disk, which manifests are accepted, and when the gate opens. */
module DeliveryMeaning {
  import opened Sequences
  import opened SourceFiles

  /** The four files of a delivery, by name. */
  lemma FilesInFull(stem: string)
    ensures PathsOf(stem).data == stem + ".json" && PathsOf(stem).dataPart == stem + ".json" + ".part"
    ensures PathsOf(stem).manifest == stem + ".manifest" + ".json"
    ensures PathsOf(stem).manifestPart == stem + ".manifest" + ".json" + ".part"
  {
    assert stem + ".json" + ".part" == stem + (".json" + ".part");
    assert stem + ".manifest" + ".json" == stem + (".manifest" + ".json");
    assert stem + ".manifest" + ".json" + ".part" == stem + (".manifest" + ".json" + ".part");
    assert ".json" + ".part" == ".json.part" && ".manifest" + ".json" == ".manifest.json" &&
      ".manifest" + ".json" + ".part" == ".manifest.json.part";
  }

  /** The field holds `s`, which is more than white space. */
  predicate Says(doc: map<string, Json>, field: string, s: string) {
    field in doc && doc[field] == Text(s) && !BlankText(s)
  }

  /** Each report carries one entity. */
  predicate Carries(report: string, entity: string) {
    (report == "ORDERS" && entity == "ORDER") || (report == "PAYMENTS" && entity == "PAYMENT") ||
    (report == "REFUNDS" && entity == "REFUND") || (report == "FEES" && entity == "FEE") ||
    (report == "SETTLEMENT_LINES" && entity == "SETTLEMENT_LINE") || (report == "PAYOUTS" && entity == "PAYOUT")
  }

  lemma CarriesRead(report: string, entity: string)
    ensures Carries(report, entity) <==> report in REPORT_ENTITIES && REPORT_ENTITIES[report] == entity
  {
  }

  /** 64 lower-case hexadecimal digits. */
  predicate Digest(s: string) {
    |s| == 64 && forall ch :: ch in s ==>
      ch in {'0', '1', '2', '3', '4', '5', '6', '7', '8', '9', 'a', 'b', 'c', 'd', 'e', 'f'}
  }

  lemma DigestRead(s: string)
    ensures Digest(s) <==> IsSha(s)
  {
    if IsSha(s) {
      forall ch | ch in s
        ensures ch in {'0', '1', '2', '3', '4', '5', '6', '7', '8', '9', 'a', 'b', 'c', 'd', 'e', 'f'}
      {
        var i :| 0 <= i < |s| && s[i] == ch;
      }
    }
    if Digest(s) {
      forall i | 0 <= i < 64
        ensures '0' <= s[i] <= '9' || 'a' <= s[i] <= 'f'
      {
        assert s[i] in s;
      }
    }
  }

  /** The document describes the delivery `m` of the file `filename`. */
  ghost predicate Describes(c: Codec, doc: map<string, Json>, filename: string, m: Manifest) {
    m.filename == filename && Says(doc, "filename", filename) && Says(doc, "source_system", m.sourceSystem) &&
    Says(doc, "report_type", m.reportType) && Says(doc, "entity_type", m.entityType) &&
    Carries(m.reportType, m.entityType) && Says(doc, "schema_version", m.schemaVersion) &&
    "row_count" in doc && doc["row_count"] == Num(m.rowCount) && m.rowCount >= 0 &&
    Says(doc, "checksum_sha256", m.checksum) && Digest(m.checksum) &&
    Says(doc, "report_date", c.isoDate(m.reportDate)) && c.fromIsoDate(c.isoDate(m.reportDate)) == Some(m.reportDate)
  }

  lemma TextFieldsRead(doc: map<string, Json>)
    ensures (forall f :: f in TEXT_FIELDS ==> TextField(doc, f)) <==>
      TextField(doc, "filename") && TextField(doc, "source_system") && TextField(doc, "report_type") &&
      TextField(doc, "report_date") && TextField(doc, "entity_type") && TextField(doc, "schema_version") &&
      TextField(doc, "checksum_sha256")
  {
    assert TEXT_FIELDS[0] == "filename" && TEXT_FIELDS[1] == "source_system" && TEXT_FIELDS[2] == "report_type" &&
      TEXT_FIELDS[3] == "report_date" && TEXT_FIELDS[4] == "entity_type" && TEXT_FIELDS[5] == "schema_version" &&
      TEXT_FIELDS[6] == "checksum_sha256";
  }

  /** A manifest is accepted exactly when it describes a delivery of the file it stands beside, and is read as that
      delivery; at most one delivery fits. */
  lemma ManifestInFull(c: Codec, content: Bytes, filename: string, m: Manifest)
    ensures ParseManifest(c, content, filename) == Some(m) <==>
      exists doc :: c.decode(content) == Some(Object(doc)) && Describes(c, doc, filename, m)
  {
    var j := c.decode(content);
    if j.Some? && j.value.Object? {
      DescribesRead(c, content, filename, m, j.value.fields);
    }
  }

  lemma DescribesRead(c: Codec, content: Bytes, filename: string, m: Manifest, doc: map<string, Json>)
    requires c.decode(content) == Some(Object(doc))
    ensures ParseManifest(c, content, filename) == Some(m) <==> Describes(c, doc, filename, m)
  {
    TextFieldsRead(doc);
    CarriesRead(TextOf(doc, "report_type"), TextOf(doc, "entity_type"));
    DigestRead(TextOf(doc, "checksum_sha256"));
    if Describes(c, doc, filename, m) {
      CarriesRead(m.reportType, m.entityType);
      DigestRead(m.checksum);
    }
  }

  /** A producer refuses exactly the deliveries whose own manifest its parser would refuse: a blank label, or a report
      that does not carry the entity. */
  lemma AcceptedInFull(c: Codec, d: Delivery)
    requires Faithful(c)
    ensures Publishable(c, d) <==>
      !BlankText(d.sourceSystem) && !BlankText(d.schemaVersion) && Carries(d.reportType, d.entityType)
  {
    assert c.decode(ManifestBytes(c, d)) == Some(Object(ManifestFields(c, d)));
    DescribesRead(c, ManifestBytes(c, d), PathsOf(d.stem).data, Described(c, d), ManifestFields(c, d));
    OwnManifest(c, d);
    if Publishable(c, d) {
      ManifestRoundTrip(c, d);
    }
  }

  lemma OwnManifest(c: Codec, d: Delivery)
    requires Faithful(c)
    ensures Describes(c, ManifestFields(c, d), PathsOf(d.stem).data, Described(c, d)) <==>
      !BlankText(d.sourceSystem) && !BlankText(d.schemaVersion) && Carries(d.reportType, d.entityType)
  {
    DigestRead(c.sha(DataBytes(c, d)));
    NamesNotBlank(c, d);
  }

  predicate EightFields(document: Option<Json>) {
    document.Some? && document.value.Object? &&
    document.value.fields.Keys == {"filename", "source_system", "report_type", "report_date", "entity_type",
                                   "schema_version", "row_count", "checksum_sha256"}
  }

  /** The manifest that the producer writes: eight fields, read back as the delivery. */
  lemma ProducedInFull(c: Codec, d: Delivery)
    requires Faithful(c) && Publishable(c, d)
    ensures ParseManifest(c, ManifestBytes(c, d), d.stem + ".json") == Some(
      Manifest(d.stem + ".json", d.sourceSystem, d.reportType, d.reportDate, d.entityType, d.schemaVersion, |d.rows|,
               c.sha(c.encode(RowsJson(d.rows)))))
    ensures EightFields(c.decode(ManifestBytes(c, d)))
  {
    ManifestRoundTrip(c, d);
    assert c.decode(ManifestBytes(c, d)) == Some(Object(ManifestFields(c, d)));
  }

  lemma NamesNotBlank(c: Codec, d: Delivery)
    requires Faithful(c)
    ensures !BlankText(PathsOf(d.stem).data) && !BlankText(c.isoDate(d.reportDate)) &&
      !BlankText(c.sha(DataBytes(c, d)))
    ensures Carries(d.reportType, d.entityType) ==> !BlankText(d.reportType) && !BlankText(d.entityType)
  {
    var name, sha := PathsOf(d.stem).data, c.sha(DataBytes(c, d));
    assert name[|d.stem|] == '.' && !Blank(name[|d.stem|]);
    assert IsSha(sha) && !Blank(sha[0]);
    if Carries(d.reportType, d.entityType) {
      assert !Blank(d.reportType[0]) && !Blank(d.entityType[0]);
    }
  }

  /** A name is free when none of its four files is there; a claim that comes too late leaves at most an empty file. */
  lemma ClaimInFull(d: Delivery, disk: Disk)
    ensures Free(d, disk) <==>
      d.stem + ".json" !in disk && d.stem + ".json.part" !in disk && d.stem + ".manifest.json" !in disk &&
      d.stem + ".manifest.json.part" !in disk
    ensures Claimed(d, disk) ==
      if d.stem + ".json.part" in disk then disk else disk[d.stem + ".json.part" := []]
  {
  }

  // ---- The gate ----

  /** Neither temporary file is seen, first or last. */
  predicate Settled(stem: string, o: Observation) {
    stem + ".json.part" !in o.dataPart && stem + ".manifest.json.part" !in o.manifestPart &&
    stem + ".json.part" !in o.dataPartAgain && stem + ".manifest.json.part" !in o.manifestPartAgain
  }

  /** The bytes hold an array of exactly these objects. */
  ghost predicate HoldsRows(c: Codec, content: Bytes, rows: seq<map<string, Json>>) {
    c.decode(content) == Some(List(seq(|rows|, i requires 0 <= i < |rows| => Object(rows[i]))))
  }

  /** The gate opens exactly when no temporary file is seen, the manifest read is accepted and its schema supported,
      and the data read has the manifest's checksum and holds as many objects as it says; then it hands over what was
      read. */
  lemma GateInFull(c: Codec, stem: string, supported: set<string>, o: Observation, m: Manifest,
                   rows: seq<map<string, Json>>, data: Bytes, manifest: Bytes)
    ensures InspectSourceFile(c, stem, supported, o) == Ready(m, rows, data, manifest) <==>
      Settled(stem, o) && stem + ".manifest.json" in o.manifest && stem + ".manifest.json" in o.manifestBytes &&
      manifest == o.manifestBytes[stem + ".manifest.json"] &&
      ParseManifest(c, manifest, stem + ".json") == Some(m) && m.schemaVersion in supported &&
      stem + ".json" in o.dataBytes && data == o.dataBytes[stem + ".json"] && c.sha(data) == m.checksum &&
      HoldsRows(c, data, rows) && |rows| == m.rowCount
  {
    var j := c.decode(data);
    if j.Some? && j.value.List? && AllObjects(j.value.items) {
      RowsRead(j.value.items, rows);
    }
    if HoldsRows(c, data, rows) {
      assert AllObjects(j.value.items) && FieldsOf(j.value.items) == rows;
    }
  }

  lemma RowsRead(items: seq<Json>, rows: seq<map<string, Json>>)
    requires AllObjects(items)
    ensures FieldsOf(items) == rows <==> items == seq(|rows|, i requires 0 <= i < |rows| => Object(rows[i]))
  {
    var again := seq(|rows|, i requires 0 <= i < |rows| => Object(rows[i]));
    if FieldsOf(items) == rows {
      assert forall i :: 0 <= i < |items| ==> items[i] == Object(items[i].fields);
      assert items == again;
    }
    if items == again {
      assert FieldsOf(items) == rows;
    }
  }

  /** Every way to wait: a temporary file, no manifest, or an accepted manifest without its data. Whatever else does not
      open the gate is refused. */
  lemma WaitingInFull(c: Codec, stem: string, supported: set<string>, o: Observation)
    ensures InspectSourceFile(c, stem, supported, o) == Waiting("MANIFEST_MISSING") <==>
      stem + ".json.part" !in o.dataPart && stem + ".manifest.json.part" !in o.manifestPart &&
      (stem + ".manifest.json" !in o.manifest || stem + ".manifest.json" !in o.manifestBytes)
    ensures InspectSourceFile(c, stem, supported, o) == Waiting("DATA_FILE_MISSING") <==>
      Manifested(c, stem, supported, o) && stem + ".json" !in o.dataBytes
    ensures InspectSourceFile(c, stem, supported, o).Rejected? <==>
      Marked(stem, o) &&
      (!Manifested(c, stem, supported, o) || (stem + ".json" in o.dataBytes && !Intact(c, stem, o)))
  {
    if Marked(stem, o) && stem + ".json" in o.dataBytes {
      IntactRead(c, stem, o);
    }
  }

  /** The manifest can be read, and no temporary file was seen before. */
  predicate Marked(stem: string, o: Observation) {
    stem + ".json.part" !in o.dataPart && stem + ".manifest.json.part" !in o.manifestPart &&
    stem + ".manifest.json" in o.manifest && stem + ".manifest.json" in o.manifestBytes
  }

  /** The manifest read is accepted and its schema supported. */
  predicate Manifested(c: Codec, stem: string, supported: set<string>, o: Observation) {
    Marked(stem, o) &&
    var m := ParseManifest(c, o.manifestBytes[stem + ".manifest.json"], stem + ".json");
    m.Some? && m.value.schemaVersion in supported
  }

  /** The data read fits the manifest read. */
  ghost predicate Intact(c: Codec, stem: string, o: Observation)
    requires Marked(stem, o) && stem + ".json" in o.dataBytes
  {
    exists m, rows :: Fits(c, stem, o, m, rows)
  }

  ghost predicate Fits(c: Codec, stem: string, o: Observation, m: Manifest, rows: seq<map<string, Json>>)
    requires Marked(stem, o) && stem + ".json" in o.dataBytes
  {
    ParseManifest(c, o.manifestBytes[stem + ".manifest.json"], stem + ".json") == Some(m) &&
    c.sha(o.dataBytes[stem + ".json"]) == m.checksum && HoldsRows(c, o.dataBytes[stem + ".json"], rows) &&
    |rows| == m.rowCount
  }

  lemma IntactRead(c: Codec, stem: string, o: Observation)
    requires Marked(stem, o) && stem + ".json" in o.dataBytes
    ensures var m := ParseManifest(c, o.manifestBytes[stem + ".manifest.json"], stem + ".json");
      var data := o.dataBytes[stem + ".json"];
      Intact(c, stem, o) <==>
      m.Some? && c.sha(data) == m.value.checksum && c.decode(data).Some? && c.decode(data).value.List? &&
      AllObjects(c.decode(data).value.items) && |c.decode(data).value.items| == m.value.rowCount
  {
    var m := ParseManifest(c, o.manifestBytes[stem + ".manifest.json"], stem + ".json");
    var j := c.decode(o.dataBytes[stem + ".json"]);
    if j.Some? && j.value.List? && AllObjects(j.value.items) {
      RowsRead(j.value.items, FieldsOf(j.value.items));
      if m.Some? && c.sha(o.dataBytes[stem + ".json"]) == m.value.checksum && |j.value.items| == m.value.rowCount {
        assert Fits(c, stem, o, m.value, FieldsOf(j.value.items));
      }
    }
  }
}
