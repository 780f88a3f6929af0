/**
  The checkpoint migration of scripts/migrate_context_semantic_naming_v3.py: rewriting every version 2
  checkpoint inside an arbitrary JSON tree, and the normaliser that must not see the difference.

  Object keys are strings in the source; here every key the code tests for has its own constructor.
  An object is the sequence of its entries in insertion order.
*/
module Migration {
  import opened Wrappers

  datatype IdentityField = RunId | Task | Workspace | Status | CurrentStep | MessagesCount | ObservationsCount

  datatype Key =
    | SessionDigest              // CHECKPOINT_V2_FIELD
    | ConversationHistoryDigest  // CHECKPOINT_V3_FIELD
    | SchemaVersion
    | Identity(field: IdentityField)
    | Integrity(name: string)    // sha256, …_sha256 and byte_size
    | OtherKey(name: string)

  datatype Json =
    | JNull
    | JBool(b: bool)
    | JInt(i: int)
    | JFloat(x: real)
    | JString(s: string)
    | JArray(items: seq<Json>)
    | JObject(fields: seq<Field>)

  datatype Field = Field(key: Key, value: Json)

  /** The value of an entry is smaller than the object, which is what the recursions below descend on. */
  lemma ValueDecreases(fields: seq<Field>)
    requires fields != []
    ensures (fields decreases to fields[0].value)
  {
    var field := fields[0];
    assert (fields decreases to field);
    assert (field decreases to field.value);
  }

  predicate Has(fields: seq<Field>, key: Key) {
    fields != [] && (fields[0].key == key || Has(fields[1..], key))
  }

  function Get(fields: seq<Field>, key: Key): Option<Json> {
    if fields == [] then None
    else if fields[0].key == key then Some(fields[0].value)
    else Get(fields[1..], key)
  }

  /** Python's `value == n` for a JSON value. */
  predicate IsNumber(v: Option<Json>, n: int) {
    v == Some(JInt(n)) || v == Some(JFloat(n as real))
  }

  /** `_is_checkpoint`. */
  predicate IsCheckpoint(fields: seq<Field>, digest: Key) {
    && Has(fields, digest)
    && Has(fields, Identity(RunId)) && Has(fields, Identity(Task)) && Has(fields, Identity(Workspace))
    && Has(fields, Identity(Status)) && Has(fields, Identity(CurrentStep))
    && Has(fields, Identity(MessagesCount)) && Has(fields, Identity(ObservationsCount))
  }

  /** `json.loads` never yields an object with the same key twice. */
  predicate UniqueKeys(fields: seq<Field>) {
    fields == [] || (!Has(fields[1..], fields[0].key) && UniqueKeys(fields[1..]))
  }

  predicate WellFormed(j: Json)
    decreases j, 1
  {
    match j
    case JArray(items) => WellFormedItems(items)
    case JObject(fields) => UniqueKeys(fields) && WellFormedFields(fields)
    case _ => true
  }

  predicate WellFormedItems(items: seq<Json>)
    decreases items, 0
  {
    items == [] || (WellFormed(items[0]) && WellFormedItems(items[1..]))
  }

  predicate WellFormedFields(fields: seq<Field>)
    decreases fields, 0
  {
    if fields == [] then true
    else
      ValueDecreases(fields);
      var Field(_, value) := fields[0];
      WellFormed(value) && WellFormedFields(fields[1..])
  }

  datatype Rejection = BothDigestFields | NotSchemaVersion2

  datatype Migrated<T> = Migrated(value: T, count: nat)

  /** `_transform_checkpoints`: the rewritten tree and the number of rewritten checkpoints. */
  function Transform(j: Json): Result<Migrated<Json>, Rejection>
    decreases j, 1
  {
    match j
    case JArray(items) =>
      var r :- TransformItems(items);
      Success(Migrated(JArray(r.value), r.count))
    case JObject(fields) =>
      var isV2 := IsCheckpoint(fields, SessionDigest);
      if isV2 && Has(fields, ConversationHistoryDigest) then Failure(BothDigestFields)
      else if isV2 && !IsNumber(Get(fields, SchemaVersion), 2) then Failure(NotSchemaVersion2)
      else
        var r :- TransformFields(fields, isV2);
        Success(Migrated(JObject(r.value), r.count + if isV2 then 1 else 0))
    case _ => Success(Migrated(j, 0))
  }

  function TransformItems(items: seq<Json>): Result<Migrated<seq<Json>>, Rejection>
    decreases items, 0
  {
    if items == [] then Success(Migrated([], 0))
    else
      var head :- Transform(items[0]);
      var tail :- TransformItems(items[1..]);
      Success(Migrated([head.value] + tail.value, head.count + tail.count))
  }

  /** The loop over `value.items()`; a replaced version number is a leaf, so migrating it changes nothing. */
  function TransformFields(fields: seq<Field>, isV2: bool): Result<Migrated<seq<Field>>, Rejection>
    decreases fields, 0
  {
    if fields == [] then Success(Migrated([], 0))
    else
      ValueDecreases(fields);
      var Field(key, value) := fields[0];
      var nextKey := if isV2 && key == SessionDigest then ConversationHistoryDigest else key;
      var head :- if isV2 && key == SchemaVersion then Success(Migrated(JInt(3), 0)) else Transform(value);
      var tail :- TransformFields(fields[1..], isV2);
      Success(Migrated([Field(nextKey, head.value)] + tail.value, head.count + tail.count))
  }

  /** `_semantic_normalize`. */
  function Normalize(j: Json): Json
    decreases j, 1
  {
    match j
    case JArray(items) => JArray(NormalizeItems(items))
    case JObject(fields) => JObject(NormalizeFields(fields, IsCheckpoint(fields, ConversationHistoryDigest)))
    case _ => j
  }

  function NormalizeItems(items: seq<Json>): seq<Json>
    decreases items, 0
  {
    if items == [] then [] else [Normalize(items[0])] + NormalizeItems(items[1..])
  }

  function NormalizeFields(fields: seq<Field>, isV3: bool): seq<Field>
    decreases fields, 0
  {
    if fields == [] then []
    else
      ValueDecreases(fields);
      var Field(key, value) := fields[0];
      var rest := NormalizeFields(fields[1..], isV3);
      if key.Integrity? then rest
      else
        var nextKey := if isV3 && key == ConversationHistoryDigest then SessionDigest else key;
        [Field(nextKey, if isV3 && key == SchemaVersion then JInt(2) else Normalize(value))] + rest
  }

  /** `_count_checkpoint_field`. */
  function Count(j: Json, digest: Key): nat
    decreases j, 1
  {
    match j
    case JArray(items) => CountItems(items, digest)
    case JObject(fields) => (if IsCheckpoint(fields, digest) then 1 else 0) + CountFields(fields, digest)
    case _ => 0
  }

  function CountItems(items: seq<Json>, digest: Key): nat
    decreases items, 0
  {
    if items == [] then 0 else Count(items[0], digest) + CountItems(items[1..], digest)
  }

  function CountFields(fields: seq<Field>, digest: Key): nat
    decreases fields, 0
  {
    if fields == [] then 0
    else
      ValueDecreases(fields);
      var Field(_, value) := fields[0];
      Count(value, digest) + CountFields(fields[1..], digest)
  }

  /** Whether some checkpoint that holds one of `digests` carries this schema version. */
  predicate HasSchema(j: Json, v2: bool, version: int)
    decreases j, 1
  {
    match j
    case JArray(items) => HasSchemaItems(items, v2, version)
    case JObject(fields) =>
      ((IsCheckpoint(fields, ConversationHistoryDigest) || (v2 && IsCheckpoint(fields, SessionDigest))) &&
       IsNumber(Get(fields, SchemaVersion), version))
      || HasSchemaFields(fields, v2, version)
    case _ => false
  }

  predicate HasSchemaItems(items: seq<Json>, v2: bool, version: int)
    decreases items, 0
  {
    items != [] && (HasSchema(items[0], v2, version) || HasSchemaItems(items[1..], v2, version))
  }

  predicate HasSchemaFields(fields: seq<Field>, v2: bool, version: int)
    decreases fields, 0
  {
    if fields == [] then false
    else
      ValueDecreases(fields);
      var Field(_, value) := fields[0];
      HasSchema(value, v2, version) || HasSchemaFields(fields[1..], v2, version)
  }

  /** `_has_checkpoint_schema` looks at checkpoints of either version. */
  predicate HasCheckpointSchema(j: Json, version: int) {
    HasSchema(j, true, version)
  }

  // ----- what the transform does to the keys of one object -----

  /** How the keys of an object change. */
  lemma {:induction false} TransformedKeys(fields: seq<Field>, isV2: bool, key: Key)
    requires TransformFields(fields, isV2).Success?
    ensures
      var out := TransformFields(fields, isV2).value.value;
      Has(out, key) <==>
        if isV2 && key == SessionDigest then false
        else if isV2 && key == ConversationHistoryDigest then Has(fields, key) || Has(fields, SessionDigest)
        else Has(fields, key)
  {
    if fields != [] {
      TransformedKeys(fields[1..], isV2, key);
    }
  }

  lemma {:induction false} TransformedVersion(fields: seq<Field>, isV2: bool)
    requires TransformFields(fields, isV2).Success?
    ensures
      var out := TransformFields(fields, isV2).value.value;
      && (isV2 && Has(fields, SchemaVersion) ==> Get(out, SchemaVersion) == Some(JInt(3)))
      && (forall n :: !isV2 ==> (IsNumber(Get(out, SchemaVersion), n) <==> IsNumber(Get(fields, SchemaVersion), n)))
  {
    if fields != [] {
      TransformedVersion(fields[1..], isV2);
    }
  }

  lemma {:induction false} FoundIsHeld(fields: seq<Field>, key: Key)
    ensures Get(fields, key).Some? <==> Has(fields, key)
  {
    if fields != [] { FoundIsHeld(fields[1..], key); }
  }

  /** A rewritten object is a version 3 checkpoint exactly if it was a checkpoint, and never a version 2 one. */
  lemma TransformedKind(fields: seq<Field>)
    requires Transform(JObject(fields)).Success?
    ensures
      var isV2 := IsCheckpoint(fields, SessionDigest);
      && TransformFields(fields, isV2).Success?
      && (var out := TransformFields(fields, isV2).value.value;
          && !IsCheckpoint(out, SessionDigest)
          && (IsCheckpoint(out, ConversationHistoryDigest) <==>
                isV2 || IsCheckpoint(fields, ConversationHistoryDigest))
          && !(isV2 && IsCheckpoint(fields, ConversationHistoryDigest)))
  {
    var isV2 := IsCheckpoint(fields, SessionDigest);
    TransformedKeys(fields, isV2, SessionDigest);
    TransformedKeys(fields, isV2, ConversationHistoryDigest);
    TransformedKeys(fields, isV2, Identity(RunId));
    TransformedKeys(fields, isV2, Identity(Task));
    TransformedKeys(fields, isV2, Identity(Workspace));
    TransformedKeys(fields, isV2, Identity(Status));
    TransformedKeys(fields, isV2, Identity(CurrentStep));
    TransformedKeys(fields, isV2, Identity(MessagesCount));
    TransformedKeys(fields, isV2, Identity(ObservationsCount));
  }

  predicate IsNumeric(v: Json) {
    v.JInt? || v.JFloat?
  }

  /** Every entry under `schema_version` holds `v`; with unique keys there is at most one such entry. */
  predicate AllVersions(fields: seq<Field>, v: Json) {
    fields == [] || ((fields[0].key == SchemaVersion ==> fields[0].value == v) && AllVersions(fields[1..], v))
  }

  lemma {:induction false} UniqueVersion(fields: seq<Field>, v: Json)
    requires UniqueKeys(fields) && (Get(fields, SchemaVersion) == Some(v) || !Has(fields, SchemaVersion))
    ensures AllVersions(fields, v)
  {
    if fields != [] {
      FoundIsHeld(fields[1..], SchemaVersion);
      UniqueVersion(fields[1..], v);
    }
  }

  /** The version number an accepted version 2 checkpoint carries. */
  function VersionOf(fields: seq<Field>): Json {
    match Get(fields, SchemaVersion)
    case Some(v) => v
    case None => JNull
  }

  // ----- counting -----

  /**
    The returned count is the number of version 2 checkpoints at any depth; afterwards there is none,
    and there are as many version 3 checkpoints as there were checkpoints of either version.
  */
  lemma {:induction false} TransformCounts(j: Json)
    requires WellFormed(j) && Transform(j).Success?
    ensures Transform(j).value.count == Count(j, SessionDigest)
    ensures Count(Transform(j).value.value, SessionDigest) == 0
    ensures Count(Transform(j).value.value, ConversationHistoryDigest) ==
            Count(j, ConversationHistoryDigest) + Count(j, SessionDigest)
    decreases j, 1
  {
    match j
    case JArray(items) => TransformCountsItems(items);
    case JObject(fields) => TransformCountsObject(fields);
    case _ =>
  }

  lemma {:induction false} TransformCountsObject(fields: seq<Field>)
    requires WellFormed(JObject(fields)) && Transform(JObject(fields)).Success?
    ensures
      var isV2 := IsCheckpoint(fields, SessionDigest);
      var r := TransformFields(fields, isV2).value;
      && r.count == CountFields(fields, SessionDigest)
      && Count(JObject(r.value), SessionDigest) == 0
      && Count(JObject(r.value), ConversationHistoryDigest) ==
         Count(JObject(fields), ConversationHistoryDigest) + Count(JObject(fields), SessionDigest)
    decreases fields, 1
  {
    TransformedKind(fields);
    var isV2 := IsCheckpoint(fields, SessionDigest);
    if isV2 { UniqueVersion(fields, VersionOf(fields)); }
    TransformCountsFields(fields, isV2, VersionOf(fields));
  }

  lemma {:induction false} TransformCountsItems(items: seq<Json>)
    requires WellFormedItems(items) && TransformItems(items).Success?
    ensures
      var r := TransformItems(items).value;
      && r.count == CountItems(items, SessionDigest)
      && CountItems(r.value, SessionDigest) == 0
      && CountItems(r.value, ConversationHistoryDigest) ==
         CountItems(items, ConversationHistoryDigest) + CountItems(items, SessionDigest)
    decreases items, 0
  {
    if items != [] {
      TransformCounts(items[0]);
      TransformCountsItems(items[1..]);
    }
  }

  lemma {:induction false} TransformCountsFields(fields: seq<Field>, isV2: bool, v: Json)
    requires WellFormedFields(fields) && TransformFields(fields, isV2).Success?
    requires isV2 ==> AllVersions(fields, v) && IsNumeric(v)
    ensures
      var r := TransformFields(fields, isV2).value;
      && r.count == CountFields(fields, SessionDigest)
      && CountFields(r.value, SessionDigest) == 0
      && CountFields(r.value, ConversationHistoryDigest) ==
         CountFields(fields, ConversationHistoryDigest) + CountFields(fields, SessionDigest)
    decreases fields, 0
  {
    if fields != [] {
      ValueDecreases(fields);
      var Field(key, value) := fields[0];
      if !(isV2 && key == SchemaVersion) {
        TransformCounts(value);
      }
      TransformCountsFields(fields[1..], isV2, v);
    }
  }
}
