/** Logical financial fingerprints: audit fields are dropped, money is normalised, nested lists are sorted by
    their encoding, and nothing else is lost. */
module Fingerprint {
  import opened Sequences
  import opened Money
  import opened MoneyText
  import F = SourceFiles

  type Json = F.Json

  /** The values of a result. A decimal carries its exact value and its plain notation. */
  datatype Value =
    | NullValue
    | BoolValue(b: bool)
    | IntValue(n: int)
    | TextValue(s: string)
    | FloatValue
    | DecimalValue(exact: real, plain: string)
    | EnumValue(member: string)
    | InstantValue(iso: string)
    | ListValue(items: seq<Value>)
    | RecordValue(fields: map<string, Value>)

  /** The JSON encoder, and reading a decimal back from text. */
  datatype Codec = Codec(encode: Json -> string, decimal: string -> Option<real>, sha: string -> string)

  ghost predicate Injective(c: Codec) {
    (forall a, b :: c.encode(a) == c.encode(b) ==> a == b) && (forall a, b :: c.sha(a) == c.sha(b) ==> a == b)
  }

  const AUDIT_FIELDS :=
    {"run_id", "detected_at", "detected_at_utc", "observed_at", "observed_at_utc", "received_at_utc", "ingested_at_utc",
                         "published_at_utc", "created_at_utc", "receipt_id", "batch_id", "original_filename",
                         "archive_path"}

  const MONEY_FIELDS :=
    {"expected_collection", "captured_total", "collection_variance", "successful_refund_total", "expected_fee_total",
                         "reported_fee_total", "lifetime_net_collection", "expected_payout", "reported_line_total",
                         "reported_net_amount",
                         "provider_report_variance", "end_to_end_payout_variance", "signed_amount", "expected_amount",
                         "actual_amount", "variance"}

  const LOGICAL_SECTIONS := ["transactions", "expected_movements", "payouts", "exceptions", "source_completeness"]

  // ---- Serialisation ----

  /** Every decimal's plain notation reads back as its value. */
  ghost predicate Readable(c: Codec, v: Value) {
    match v
    case DecimalValue(x, plain) => c.decimal(plain) == Some(x)
    case ListValue(items) => forall i :: 0 <= i < |items| ==> Readable(c, items[i])
    case RecordValue(fields) => forall k :: k in fields ==> Readable(c, fields[k])
    case _ => true
  }

  function JsonValue(v: Value): Option<Json> {
    match v
    case NullValue => Some(F.Null)
    case BoolValue(b) => Some(F.Bool(b))
    case IntValue(n) => Some(F.Num(n))
    case TextValue(s) => Some(F.Text(s))
    case FloatValue => None
    case DecimalValue(_, plain) => Some(F.Text(plain))
    case EnumValue(member) => Some(F.Text(member))
    case InstantValue(iso) => Some(F.Text(iso))
    case ListValue(items) =>
      if forall i :: 0 <= i < |items| ==> JsonValue(items[i]).Some?
      then Some(F.List(seq(|items|, i requires 0 <= i < |items| &&
                           JsonValue(items[i]).Some? => JsonValue(items[i]).value)))
      else None
    case RecordValue(fields) =>
      if forall k :: k in fields ==> JsonValue(fields[k]).Some?
      then Some(F.Object(map k | k in fields :: JsonValue(fields[k]).value))
      else None
  }

  /** JSON read back, as the values the fingerprint sees. */
  function Reread(j: Json): Value {
    match j
    case Null => NullValue
    case Bool(b) => BoolValue(b)
    case Num(n) => IntValue(n)
    case Text(s) => TextValue(s)
    case List(items) => ListValue(seq(|items|, i requires 0 <= i < |items| => Reread(items[i])))
    case Object(fields) => RecordValue(map k | k in fields :: Reread(fields[k]))
  }

  // ---- Normal forms ----

  /** A whole number of supported cents as two-decimal text. */
  function CentsJson(x: real): Option<Json> {
    var cents := (x * 100.0).Floor;
    if cents as real != x * 100.0 || !Supported(cents) then None else Some(F.Text(FormatMoney(cents)))
  }

  function MoneyString(c: Codec, v: Value): Option<Json> {
    match v
    case NullValue => Some(F.Null)
    case DecimalValue(x, _) => CentsJson(x)
    case IntValue(n) => CentsJson(n as real)
    case TextValue(s) => if c.decimal(s).Some? then CentsJson(c.decimal(s).value) else None
    case EnumValue(s) => if c.decimal(s).Some? then CentsJson(c.decimal(s).value) else None
    case _ => None
  }

  function EncodingKey(c: Codec): Json -> Key {
    (j: Json) => [S(c.encode(j))]
  }

  function Kept(fields: map<string, Value>): set<string> {
    set k | k in fields && k !in AUDIT_FIELDS
  }

  /** Audit metadata removed, money normalised, every list sorted by its items' encoding. */
  function LogicalValue(c: Codec, v: Value): Option<Json>
    decreases v, 0
  {
    match v
    case ListValue(items) =>
      if forall i :: 0 <= i < |items| ==> LogicalValue(c, items[i]).Some?
      then Some(F.List(Sort(EncodingKey(c),
                            seq(|items|, i requires 0 <= i < |items| &&
                                LogicalValue(c, items[i]).Some? => LogicalValue(c, items[i]).value))))
      else None
    case RecordValue(fields) =>
      if forall k :: k in Kept(fields) ==> LogicalField(c, k, fields[k]).Some?
      then Some(F.Object(map k | k in Kept(fields) :: LogicalField(c, k, fields[k]).value))
      else None
    case _ => JsonValue(v)
  }

  function LogicalField(c: Codec, name: string, v: Value): Option<Json>
    decreases v, 1
  {
    if name in MONEY_FIELDS then MoneyString(c, v) else LogicalValue(c, v)
  }

  predicate HasSections(c: Codec, v: Value) {
    v.RecordValue? && forall s :: s in LOGICAL_SECTIONS ==> s in v.fields && LogicalValue(c, v.fields[s]).Some?
  }

  function Sections(c: Codec, v: Value): map<string, Json>
    requires HasSections(c, v)
  {
    map s | s in LOGICAL_SECTIONS :: LogicalValue(c, v.fields[s]).value
  }

  /** The contract version a document reads. */
  function Version(v: Value): Option<string> {
    if v.RecordValue? && "contract_version" in v.fields && v.fields["contract_version"].TextValue?
    then Some(v.fields["contract_version"].s) else None
  }

  /** The explicit comparison contract; reading a missing section raises. */
  function LogicalDocument(c: Codec, v: Value): Option<Json> {
    if Version(v).None? || !HasSections(c, v) then None
    else Some(F.Object(Sections(c,
                                v)["fingerprint_version" := F.Num(2)]["contract_version" := F.Text(Version(v).value)]))
  }

  function LogicalFingerprint(c: Codec, v: Value): Option<string> {
    var d := LogicalDocument(c, v);
    if d.None? then None else Some(c.sha(c.encode(d.value)))
  }

  /** The check of a stored artifact against its recorded fingerprint. */
  predicate VerifyStored(c: Codec, payload: Json, recorded: string) {
    payload.Object? && "financial_fingerprint_version" in payload.fields &&
    payload.fields["financial_fingerprint_version"] == F.Num(2) &&
    LogicalFingerprint(c, Reread(payload)) == Some(recorded)
  }

  // ---- Serialising first changes nothing ----

  lemma MoneyRereads(c: Codec, v: Value)
    requires Readable(c, v) && MoneyString(c, v).Some? && JsonValue(v).Some?
    ensures MoneyString(c, Reread(JsonValue(v).value)) == MoneyString(c, v)
  {
  }

  lemma FieldRereads(c: Codec, name: string, v: Value)
    requires Readable(c, v) && LogicalField(c, name, v).Some? && JsonValue(v).Some?
    ensures LogicalField(c, name, Reread(JsonValue(v).value)) == LogicalField(c, name, v)
    decreases v, 1
  {
    if name in MONEY_FIELDS {
      MoneyRereads(c, v);
    } else {
      LogicalRereads(c, v);
    }
  }

  /** Serialising a value first leaves its logical value unchanged. */
  lemma {:induction false} LogicalRereads(c: Codec, v: Value)
    requires Readable(c, v) && LogicalValue(c, v).Some? && JsonValue(v).Some?
    ensures LogicalValue(c, Reread(JsonValue(v).value)) == LogicalValue(c, v)
    decreases v, 0
  {
    match v
    case ListValue(items) =>
      var again := Reread(JsonValue(v).value);
      assert |again.items| == |items|;
      forall i | 0 <= i < |items|
        ensures LogicalValue(c, again.items[i]) == LogicalValue(c, items[i])
      {
        LogicalRereads(c, items[i]);
      }
      SameItems(c, items, again.items);
    case RecordValue(fields) =>
      var again := Reread(JsonValue(v).value);
      assert again.fields.Keys == fields.Keys;
      forall k | k in Kept(fields)
        ensures LogicalField(c, k, again.fields[k]) == LogicalField(c, k, fields[k])
      {
        FieldRereads(c, k, fields[k]);
      }
      assert Kept(again.fields) == Kept(fields);
      SameFields(c, fields, again.fields);
    case _ =>
  }

  lemma SameItems(c: Codec, a: seq<Value>, b: seq<Value>)
    requires |a| == |b| && forall i :: 0 <= i < |a| ==> LogicalValue(c, b[i]) == LogicalValue(c, a[i])
    ensures LogicalValue(c, ListValue(b)) == LogicalValue(c, ListValue(a))
  {
    if forall i :: 0 <= i < |a| ==> LogicalValue(c, a[i]).Some? {
      var x := seq(|a|, i requires 0 <= i < |a| && LogicalValue(c, a[i]).Some? => LogicalValue(c, a[i]).value);
      var y := seq(|b|, i requires 0 <= i < |b| && LogicalValue(c, b[i]).Some? => LogicalValue(c, b[i]).value);
      assert x == y;
    }
  }

  lemma SameFields(c: Codec, a: map<string, Value>, b: map<string, Value>)
    requires Kept(a) == Kept(b) && forall k :: k in Kept(a) ==> LogicalField(c, k, b[k]) == LogicalField(c, k, a[k])
    ensures LogicalValue(c, RecordValue(b)) == LogicalValue(c, RecordValue(a))
  {
    if forall k :: k in Kept(a) ==> LogicalField(c, k, a[k]).Some? {
      var x := map k | k in Kept(a) :: LogicalField(c, k, a[k]).value;
      var y := map k | k in Kept(b) :: LogicalField(c, k, b[k]).value;
      assert x == y;
    }
  }

  // ---- Exactly what the normal form forgets ----

  /** The exact amount a monetary field denotes. */
  function Amount(c: Codec, v: Value): Option<real> {
    match v
    case DecimalValue(x, _) => Some(x)
    case IntValue(n) => Some(n as real)
    case TextValue(s) => c.decimal(s)
    case EnumValue(s) => c.decimal(s)
    case _ => None
  }

  ghost predicate SameAmount(c: Codec, a: Value, b: Value) {
    (a.NullValue? && b.NullValue?) || (Amount(c, a).Some? && Amount(c, a) == Amount(c, b))
  }

  /** Two values with the same financial meaning: the same amounts and leaves, under any audit fields, with the
      items of every list paired off in any order. */
  ghost predicate Agree(c: Codec, a: Value, b: Value)
    decreases a, 1
  {
    match a
    case ListValue(items) => b.ListValue? && PairedOff(c, items, b.items)
    case RecordValue(fields) =>
      b.RecordValue? && Kept(fields) == Kept(b.fields) &&
      forall k :: k in Kept(fields) ==> FieldAgrees(c, k, fields[k], b.fields[k])
    case _ => !b.ListValue? && !b.RecordValue? && JsonValue(a) == JsonValue(b)
  }

  ghost predicate FieldAgrees(c: Codec, name: string, a: Value, b: Value)
    decreases a, 2
  {
    if name in MONEY_FIELDS then SameAmount(c, a, b) else Agree(c, a, b)
  }

  ghost predicate PairedOff(c: Codec, a: seq<Value>, b: seq<Value>)
    decreases a, 0
  {
    if a == [] then b == []
    else exists i: nat :: i < |b| && Agree(c, a[|a| - 1], b[i]) && PairedOff(c, a[..|a| - 1], Without(b, i))
  }

  function Logical(c: Codec): Value -> Json {
    (v: Value) => var l := LogicalValue(c, v); if l.Some? then l.value else F.Null
  }

  ghost predicate AllDefined(c: Codec, items: seq<Value>) {
    forall i :: 0 <= i < |items| ==> LogicalValue(c, items[i]).Some?
  }

  lemma ListForm(c: Codec, items: seq<Value>)
    ensures LogicalValue(c, ListValue(items)) == if AllDefined(c, items)
      then Some(F.List(Sort(EncodingKey(c), Map(Logical(c), items)))) else None
  {
    assert AllDefined(c, items) <==> forall i :: 0 <= i < |items| ==> LogicalValue(c, items[i]).Some?;
    if AllDefined(c, items) {
      var x := seq(|items|, i requires 0 <= i < |items| &&
                   LogicalValue(c, items[i]).Some? => LogicalValue(c, items[i]).value);
      var y := Map(Logical(c), items);
      forall i | 0 <= i < |items|
        ensures x[i] == y[i]
      {
        assert y[i] == Logical(c)(items[i]);
      }
      assert x == y;
      assert LogicalValue(c, ListValue(items)) == Some(F.List(Sort(EncodingKey(c), x)));
    }
  }

  lemma EncodingInjective(c: Codec)
    requires Injective(c)
    ensures forall a, b :: EncodingKey(c)(a) == EncodingKey(c)(b) ==> a == b
  {
    forall a, b | EncodingKey(c)(a) == EncodingKey(c)(b)
      ensures a == b
    {
      assert EncodingKey(c)(a)[0].s == EncodingKey(c)(b)[0].s;
    }
  }

  lemma FormatDistinct(a: int, b: int)
    requires Supported(a) && Supported(b) && FormatMoney(a) == FormatMoney(b)
    ensures a == b
  {
    var ascii: DigitTable := ch => if IsAscii(ch) then Some(ch as int - '0' as int) else None;
    ParseOfFormat(ascii, a);
    ParseOfFormat(ascii, b);
  }

  lemma CentsExact(x: real, y: real)
    requires CentsJson(x).Some?
    ensures CentsJson(y) == CentsJson(x) <==> y == x
  {
    var m, n := (x * 100.0).Floor, (y * 100.0).Floor;
    if CentsJson(y) == CentsJson(x) {
      FormatDistinct(m, n);
      assert x * 100.0 == y * 100.0;
    }
  }

  lemma MoneyForm(c: Codec, v: Value)
    ensures MoneyString(c, v) == if v.NullValue? then Some(F.Null) else if Amount(c, v).Some?
      then CentsJson(Amount(c, v).value) else None
  {
  }

  lemma MoneyExact(c: Codec, a: Value, b: Value)
    requires MoneyString(c, a).Some?
    ensures MoneyString(c, b) == MoneyString(c, a) <==> SameAmount(c, a, b)
  {
    MoneyForm(c, a);
    MoneyForm(c, b);
    if Amount(c, a).Some? && Amount(c, b).Some? {
      CentsExact(Amount(c, a).value, Amount(c, b).value);
    }
  }

  /** Normal forms are complete as well as stable: two values get the same logical value exactly when their
      amounts and leaves agree up to audit fields and the order, but not the number, of list items. */
  lemma {:induction false} LogicalExact(c: Codec, a: Value, b: Value)
    requires Injective(c) && LogicalValue(c, a).Some?
    ensures LogicalValue(c, b) == LogicalValue(c, a) <==> Agree(c, a, b)
    decreases a, 1
  {
    match a
    case ListValue(items) => ListExact(c, items, b);
    case RecordValue(_) => RecordExact(c, a, b);
    case _ => LeafExact(c, a, b);
  }

  lemma LeafExact(c: Codec, a: Value, b: Value)
    requires !a.ListValue? && !a.RecordValue? && LogicalValue(c, a).Some?
    ensures LogicalValue(c, b) == LogicalValue(c, a) <==> Agree(c, a, b)
  {
  }

  lemma ListExact(c: Codec, a: seq<Value>, b: Value)
    requires Injective(c) && LogicalValue(c, ListValue(a)).Some?
    ensures LogicalValue(c, b) == LogicalValue(c, ListValue(a)) <==> b.ListValue? && PairedOff(c, a, b.items)
    decreases a, 1
  {
    ListForm(c, a);
    if b.ListValue? {
      ListForm(c, b.items);
      PairedExact(c, a, b.items);
      EncodingInjective(c);
      SortExact(EncodingKey(c), Map(Logical(c), a), Map(Logical(c), b.items));
    }
  }

  lemma RecordExact(c: Codec, a: Value, b: Value)
    requires Injective(c) && a.RecordValue? && LogicalValue(c, a).Some?
    ensures LogicalValue(c, b) == LogicalValue(c, a) <==>
            b.RecordValue? && Kept(a.fields) == Kept(b.fields) && forall k :: k in Kept(a.fields) ==>
            FieldAgrees(c, k, a.fields[k], b.fields[k])
    decreases a, 0
  {
    forall k | b.RecordValue? && Kept(a.fields) == Kept(b.fields) && k in Kept(a.fields)
      ensures LogicalField(c, k, b.fields[k]) == LogicalField(c, k, a.fields[k]) <==>
        FieldAgrees(c, k, a.fields[k], b.fields[k])
    {
      FieldExact(c, k, a.fields[k], b.fields[k]);
    }
    FieldsExact(c, a.fields, b);
  }

  lemma FieldExact(c: Codec, name: string, a: Value, b: Value)
    requires Injective(c) && LogicalField(c, name, a).Some?
    ensures LogicalField(c, name, b) == LogicalField(c, name, a) <==> FieldAgrees(c, name, a, b)
    decreases a, 2
  {
    if name in MONEY_FIELDS {
      MoneyExact(c, a, b);
    } else {
      LogicalExact(c, a, b);
    }
  }

  lemma FieldsExact(c: Codec, a: map<string, Value>, b: Value)
    requires LogicalValue(c, RecordValue(a)).Some?
    ensures LogicalValue(c, b) == LogicalValue(c, RecordValue(a)) <==>
            b.RecordValue? && Kept(a) == Kept(b.fields) && forall k :: k in Kept(a) ==>
            LogicalField(c, k, b.fields[k]) == LogicalField(c, k, a[k])
  {
    var x := map k | k in Kept(a) :: LogicalField(c, k, a[k]).value;
    assert LogicalValue(c, RecordValue(a)).value == F.Object(x);
    assert x.Keys == Kept(a);
    if b.RecordValue? && LogicalValue(c, b).Some? {
      var y := map k | k in Kept(b.fields) :: LogicalField(c, k, b.fields[k]).value;
      assert LogicalValue(c, b).value == F.Object(y);
      assert y.Keys == Kept(b.fields);
      assert x == y ==> forall k :: k in Kept(a) ==> x[k] == y[k];
    }
    if b.RecordValue? && Kept(a) == Kept(b.fields) {
      if forall k :: k in Kept(a) ==> LogicalField(c, k, b.fields[k]) == LogicalField(c, k, a[k]) {
        SameFields(c, a, b.fields);
      }
    }
  }

  lemma {:induction false} PairedExact(c: Codec, a: seq<Value>, b: seq<Value>)
    requires Injective(c) && AllDefined(c, a)
    ensures PairedOff(c, a, b) <==> AllDefined(c, b) && SameImages(c, a, b)
    decreases a, 0
  {
    if a == [] {
      assert |multiset(Map(Logical(c), b))| == |b|;
    } else {
      var init, last := a[..|a| - 1], a[|a| - 1];
      assert a == init + [last];
      forall i: nat | i < |b|
        ensures Agree(c, last, b[i]) && PairedOff(c, init, Without(b, i)) <==>
                LogicalValue(c, b[i]) == LogicalValue(c, last) && AllDefined(c, b) && SameImages(c, a, b)
      {
        LogicalExact(c, last, b[i]);
        PairedExact(c, init, Without(b, i));
        if LogicalValue(c, b[i]) == LogicalValue(c, last) {
          PairOff(Logical(c), init, last, b, i);
          WithoutDefined(c, b, i);
        }
      }
      if AllDefined(c, b) && SameImages(c, a, b) {
        var i := Partner(Logical(c), init, last, b);
        DefinedImage(c, last, b[i]);
      }
    }
  }

  ghost predicate SameImages(c: Codec, a: seq<Value>, b: seq<Value>) {
    multiset(Map(Logical(c), a)) == multiset(Map(Logical(c), b))
  }

  lemma DefinedImage(c: Codec, a: Value, b: Value)
    requires LogicalValue(c, a).Some? && LogicalValue(c, b).Some? && Logical(c)(a) == Logical(c)(b)
    ensures LogicalValue(c, a) == LogicalValue(c, b)
  {
  }

  lemma WithoutDefined(c: Codec, b: seq<Value>, i: nat)
    requires i < |b| && LogicalValue(c, b[i]).Some?
    ensures AllDefined(c, Without(b, i)) <==> AllDefined(c, b)
  {
    var rest := Without(b, i);
    assert forall j :: 0 <= j < i ==> rest[j] == b[j];
    assert forall j :: i < j < |b| ==> rest[j - 1] == b[j];
  }

  // ---- What follows for whole results ----

  /** Reordering a list changes nothing; repeating or dropping a row always does. */
  lemma ListsCompareAsBags(c: Codec, a: seq<Value>, b: seq<Value>)
    requires Injective(c) && AllDefined(c, a)
    ensures multiset(a) == multiset(b) ==> Agree(c, ListValue(a), ListValue(b))
    ensures Agree(c, ListValue(a), ListValue(b)) ==> |a| == |b|
  {
    PairedExact(c, a, b);
    if multiset(a) == multiset(b) {
      PermutedImages(c, a, b);
    }
    assert |multiset(Map(Logical(c), a))| == |a| && |multiset(Map(Logical(c), b))| == |b|;
  }

  lemma PermutedImages(c: Codec, a: seq<Value>, b: seq<Value>)
    requires AllDefined(c, a) && multiset(a) == multiset(b)
    ensures AllDefined(c, b) && SameImages(c, a, b)
  {
    MapPermuted(Logical(c), a, b);
    forall i | 0 <= i < |b|
      ensures LogicalValue(c, b[i]).Some?
    {
      assert b[i] in multiset(b) && b[i] in a;
    }
  }

  /** Audit fields of any value, at any name on the list, may be added, changed or dropped. */
  lemma AuditFieldsForgotten(c: Codec, a: map<string, Value>, b: map<string, Value>)
    requires forall k :: k !in AUDIT_FIELDS ==> (k in a <==> k in b) && (k in a ==> a[k] == b[k])
    ensures LogicalValue(c, RecordValue(a)) == LogicalValue(c, RecordValue(b))
  {
    assert Kept(a) == Kept(b);
    SameFields(c, b, a);
  }

  /** Two results describe the same finances: same contract, and every logical section agrees. */
  ghost predicate SameFinances(c: Codec, a: Value, b: Value)
    requires LogicalDocument(c, a).Some?
  {
    Version(b) == Version(a) && forall s :: s in LOGICAL_SECTIONS ==>
    s in b.fields && Agree(c, a.fields[s], b.fields[s])
  }

  /** Fingerprints are equal exactly when the finances are. */
  lemma FingerprintExact(c: Codec, a: Value, b: Value)
    requires Injective(c) && LogicalFingerprint(c, a).Some?
    ensures LogicalFingerprint(c, b) == LogicalFingerprint(c, a) <==> SameFinances(c, a, b)
  {
    forall s | b.RecordValue? && s in LOGICAL_SECTIONS && s in b.fields
      ensures LogicalValue(c, b.fields[s]) == LogicalValue(c, a.fields[s]) <==> Agree(c, a.fields[s], b.fields[s])
    {
      LogicalExact(c, a.fields[s], b.fields[s]);
    }
    DocumentExact(c, a, b);
  }

  ghost predicate SameSections(c: Codec, a: Value, b: Value)
    requires HasSections(c, a)
  {
    b.RecordValue? && forall s :: s in LOGICAL_SECTIONS ==>
    s in b.fields && LogicalValue(c, b.fields[s]) == LogicalValue(c, a.fields[s])
  }

  lemma DocumentExact(c: Codec, a: Value, b: Value)
    requires LogicalDocument(c, a).Some?
    ensures LogicalDocument(c, b) == LogicalDocument(c, a) <==> Version(b) == Version(a) && SameSections(c, a, b)
  {
    if LogicalDocument(c, b) == LogicalDocument(c, a) {
      var x, y := LogicalDocument(c, a).value.fields, LogicalDocument(c, b).value.fields;
      assert x["contract_version"] == F.Text(Version(a).value) && y["contract_version"] == F.Text(Version(b).value);
      forall s | s in LOGICAL_SECTIONS
        ensures LogicalValue(c, b.fields[s]) == LogicalValue(c, a.fields[s])
      {
        SectionShown(c, a, s);
        SectionShown(c, b, s);
      }
    } else if SameSections(c, a, b) {
      assert Sections(c, a) == Sections(c, b);
    }
  }

  lemma SectionShown(c: Codec, v: Value, s: string)
    requires LogicalDocument(c, v).Some? && s in LOGICAL_SECTIONS
    ensures var d := LogicalDocument(c, v).value.fields; s in d && Some(d[s]) == LogicalValue(c, v.fields[s])
  {
    assert s != "contract_version" && s != "fingerprint_version" by {
      NotASection();
    }
  }

  lemma NotASection()
    ensures "contract_version" !in LOGICAL_SECTIONS && "fingerprint_version" !in LOGICAL_SECTIONS
    ensures "financial_fingerprint_version" !in LOGICAL_SECTIONS
  {
  }

  /** The stored form of a result: its full serialisation, stamped with the fingerprint version. */
  function Artifact(result: Value): Option<Json> {
    match JsonValue(result)
    case Some(Object(fields)) => Some(F.Object(fields["financial_fingerprint_version" := F.Num(2)]))
    case _ => None
  }

  /** Every published artifact verifies against the fingerprint of the result it was made from. */
  lemma ArtifactVerifies(c: Codec, result: Value)
    requires Readable(c, result) && LogicalFingerprint(c, result).Some? && JsonValue(result).Some?
    ensures Artifact(result).Some? && VerifyStored(c, Artifact(result).value, LogicalFingerprint(c, result).value)
  {
    StoredSections(c, result);
    StoredField(result, "contract_version");
    DocumentExact(c, result, Reread(Artifact(result).value));
  }

  lemma StoredSections(c: Codec, result: Value)
    requires Readable(c, result) && HasSections(c, result) && JsonValue(result).Some?
    ensures Artifact(result).Some? && SameSections(c, result, Reread(Artifact(result).value))
  {
    NotASection();
    forall s | s in LOGICAL_SECTIONS
      ensures var stored := Reread(Artifact(result).value);
              s in stored.fields && LogicalValue(c, stored.fields[s]) == LogicalValue(c, result.fields[s])
    {
      LogicalRereads(c, result.fields[s]);
      StoredField(result, s);
    }
  }

  lemma StoredField(result: Value, name: string)
    requires result.RecordValue? && JsonValue(result).Some? && name in result.fields &&
      name != "financial_fingerprint_version"
    ensures var stored := Reread(Artifact(result).value);
            name in stored.fields && JsonValue(result.fields[name]).Some? &&
            stored.fields[name] == Reread(JsonValue(result.fields[name]).value)
  {
  }

  /** A stored payload passes against a result's fingerprint exactly when it is stamped version 2 and still has
      that result's finances. */
  lemma TamperingDetected(c: Codec, result: Value, payload: Json)
    requires Injective(c) && LogicalFingerprint(c, result).Some?
    ensures VerifyStored(c, payload, LogicalFingerprint(c, result).value) <==>
            payload.Object? && "financial_fingerprint_version" in payload.fields &&
            payload.fields["financial_fingerprint_version"] == F.Num(2) &&
            SameFinances(c, result, Reread(payload))
  {
    FingerprintExact(c, result, Reread(payload));
  }

  // ---- The names that count ----

  lemma SectionNames(s: string)
    ensures s in LOGICAL_SECTIONS <==>
      s == "transactions" || s == "expected_movements" || s == "payouts" || s == "exceptions" ||
      s == "source_completeness"
  {
    if s in LOGICAL_SECTIONS {
      var i :| 0 <= i < |LOGICAL_SECTIONS| && LOGICAL_SECTIONS[i] == s;
    }
    assert LOGICAL_SECTIONS[0] == "transactions" && LOGICAL_SECTIONS[1] == "expected_movements" &&
      LOGICAL_SECTIONS[2] == "payouts" && LOGICAL_SECTIONS[3] == "exceptions" &&
      LOGICAL_SECTIONS[4] == "source_completeness";
  }

  /** The names of execution and delivery evidence. */
  lemma AuditNames(k: string)
    ensures k in AUDIT_FIELDS <==>
      k == "run_id" || k == "detected_at" || k == "detected_at_utc" || k == "observed_at" ||
      k == "observed_at_utc" || k == "received_at_utc" || k == "ingested_at_utc" || k == "published_at_utc" ||
      k == "created_at_utc" || k == "receipt_id" || k == "batch_id" || k == "original_filename" ||
      k == "archive_path"
  {
  }

  /** The names of amounts. */
  lemma MoneyNames(k: string)
    ensures k in MONEY_FIELDS <==>
      k == "expected_collection" || k == "captured_total" || k == "collection_variance" ||
      k == "successful_refund_total" || k == "expected_fee_total" || k == "reported_fee_total" ||
      k == "lifetime_net_collection" || k == "expected_payout" || k == "reported_line_total" ||
      k == "reported_net_amount" || k == "provider_report_variance" || k == "end_to_end_payout_variance" ||
      k == "signed_amount" || k == "expected_amount" || k == "actual_amount" || k == "variance"
  {
  }

  ghost predicate AgreeUnder(c: Codec, a: Value, b: Value, s: string) {
    a.RecordValue? && b.RecordValue? && s in a.fields && s in b.fields && Agree(c, a.fields[s], b.fields[s])
  }

  lemma EverySectionAgrees(c: Codec, a: Value, b: Value)
    ensures (forall s :: s in LOGICAL_SECTIONS ==> AgreeUnder(c, a, b, s)) <==>
      AgreeUnder(c, a, b, "transactions") && AgreeUnder(c, a, b, "expected_movements") &&
      AgreeUnder(c, a, b, "payouts") && AgreeUnder(c, a, b, "exceptions") && AgreeUnder(c, a, b, "source_completeness")
  {
    SectionNames("transactions");
    SectionNames("expected_movements");
    SectionNames("payouts");
    SectionNames("exceptions");
    SectionNames("source_completeness");
    forall s | s in LOGICAL_SECTIONS
      ensures s == "transactions" || s == "expected_movements" || s == "payouts" || s == "exceptions" ||
        s == "source_completeness"
    {
      SectionNames(s);
    }
  }

  lemma SectionsByName(c: Codec, a: Value, b: Value)
    requires HasSections(c, a) && b.RecordValue?
    ensures (forall s :: s in LOGICAL_SECTIONS ==> s in b.fields && Agree(c, a.fields[s], b.fields[s])) <==>
      (forall s :: s in LOGICAL_SECTIONS ==> AgreeUnder(c, a, b, s))
  {
    forall s | s in LOGICAL_SECTIONS
      ensures AgreeUnder(c, a, b, s) <==> s in b.fields && Agree(c, a.fields[s], b.fields[s])
    {
    }
  }

  ghost predicate SameContract(a: Value, b: Value) {
    a.RecordValue? && b.RecordValue? && "contract_version" in a.fields && "contract_version" in b.fields &&
    b.fields["contract_version"] == a.fields["contract_version"]
  }

  /** Equal fingerprints, by name: the contract versions are equal and the values of the five sections agree. */
  lemma FingerprintInFull(c: Codec, a: Value, b: Value)
    requires Injective(c) && LogicalFingerprint(c, a).Some?
    ensures LogicalFingerprint(c, b) == LogicalFingerprint(c, a) <==>
      SameContract(a, b) && AgreeUnder(c, a, b, "transactions") && AgreeUnder(c, a, b, "expected_movements") &&
      AgreeUnder(c, a, b, "payouts") && AgreeUnder(c, a, b, "exceptions") && AgreeUnder(c, a, b, "source_completeness")
  {
    FingerprintExact(c, a, b);
    EverySectionAgrees(c, a, b);
    assert Version(b) == Version(a) <==> SameContract(a, b);
    if b.RecordValue? {
      SectionsByName(c, a, b);
    }
  }

  /** A stored payload passes, by name: it is stamped version 2, has the contract version, and agrees with the result
      in the five sections; so one that differs in any of them fails. */
  lemma TamperingInFull(c: Codec, result: Value, payload: Json)
    requires Injective(c) && LogicalFingerprint(c, result).Some?
    ensures VerifyStored(c, payload, LogicalFingerprint(c, result).value) <==>
      payload.Object? && "financial_fingerprint_version" in payload.fields &&
      payload.fields["financial_fingerprint_version"] == F.Num(2) && SameContract(result, Reread(payload)) &&
      AgreeUnder(c, result, Reread(payload), "transactions") &&
      AgreeUnder(c, result, Reread(payload), "expected_movements") &&
      AgreeUnder(c, result, Reread(payload), "payouts") &&
      AgreeUnder(c, result, Reread(payload), "exceptions") &&
      AgreeUnder(c, result, Reread(payload), "source_completeness")
  {
    FingerprintInFull(c, result, Reread(payload));
  }

  /** Two records that differ only in the run, or in when something was detected, have one logical value. */
  lemma RunForgotten(c: Codec, a: map<string, Value>, run: Value, detected: Value)
    ensures LogicalValue(c, RecordValue(a["run_id" := run]["detected_at_utc" := detected]))
      == LogicalValue(c, RecordValue(a))
  {
    AuditFieldsForgotten(c, a["run_id" := run]["detected_at_utc" := detected], a);
  }

  /** Any name that is not on the written-out list of audit fields counts. */
  lemma NothingElseForgotten(c: Codec, a: map<string, Value>, b: map<string, Value>, k: string)
    requires Injective(c) && LogicalValue(c, RecordValue(a)).Some?
    requires k in a
    requires !(
      k == "run_id" || k == "detected_at" || k == "detected_at_utc" || k == "observed_at" ||
      k == "observed_at_utc" || k == "received_at_utc" || k == "ingested_at_utc" || k == "published_at_utc" ||
      k == "created_at_utc" || k == "receipt_id" || k == "batch_id" || k == "original_filename" ||
      k == "archive_path")
    requires k in b ==> (if k in MONEY_FIELDS then !SameAmount(c, a[k], b[k]) else !Agree(c, a[k], b[k]))
    ensures LogicalValue(c, RecordValue(b)) != LogicalValue(c, RecordValue(a))
  {
    AuditNames(k);
    LogicalExact(c, RecordValue(a), RecordValue(b));
    assert k in Kept(a);
    assert Agree(c, RecordValue(a), RecordValue(b)) ==> k in Kept(b) && FieldAgrees(c, k, a[k], b[k]);
  }
}
