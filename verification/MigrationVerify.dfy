/**
  When an applied migration passes `verify_applied_migration`, and trees on which it does not although
  planning accepted them.
*/
module MigrationVerify {
  import opened Wrappers
  import opened Migration
  import opened MigrationMeaning

  type Files = map<string, Json>

  /** The three conditions on one listed file, with the recorded normal form. */
  predicate Verifies(after: Json, recorded: Json) {
    && Count(after, SessionDigest) == 0
    && !(Count(after, ConversationHistoryDigest) > 0 && HasCheckpointSchema(after, 2))
    && Normalize(after) == recorded
  }

  /** The condition on one tree, as it can be read off before the migration. */
  predicate Sound(j: Json) {
    !HasV3Schema(j, 2) && IntegerVersions(j)
  }

  lemma TreeVerifiesIff(j: Json)
    requires WellFormed(j) && Transform(j).Success?
    ensures Verifies(Transform(j).value.value, Normalize(j)) <==> Sound(j)
  {
    TransformCounts(j);
    LeftoverSchema(j);
    SameSpelling(j);
    if HasV3Schema(j, 2) { SchemaImpliesCheckpoint(j); }
  }

  /** `_transform_checkpoints` accepted every file of the closure. */
  ghost predicate Accepted(files: Files) {
    forall path :: path in files ==> WellFormed(files[path]) && Transform(files[path]).Success?
  }

  /** The files that hold a version 2 checkpoint; each of them is in the write-set. */
  ghost function Touched(files: Files): set<string>
    requires Accepted(files)
  {
    set path | path in files && Transform(files[path]).value.count > 0
  }

  ghost predicate VerifiesAll(files: Files, writeSet: set<string>)
    requires Accepted(files) && writeSet <= files.Keys
  {
    forall path :: path in writeSet ==> Verifies(Transform(files[path]).value.value, Normalize(files[path]))
  }

  /**
    Verification reads the files that the manifest lists, and no others.  An accepted and applied
    migration passes it exactly when in every file of the write-set no version 3 checkpoint already said
    version 2 and no visible version 2 checkpoint spelled its version 2.0.
  */
  lemma AcceptedVerifiesIff(files: Files, writeSet: set<string>)
    requires Accepted(files) && Touched(files) <= writeSet <= files.Keys
    ensures VerifiesAll(files, writeSet) <==> forall path :: path in writeSet ==> Sound(files[path])
  {
    forall path | path in writeSet
      ensures Verifies(Transform(files[path]).value.value, Normalize(files[path])) <==> Sound(files[path])
    {
      TreeVerifiesIff(files[path]);
    }
  }

  // ----- trees that are accepted and then refused -----

  predicate Leaf(j: Json) {
    !j.JArray? && !j.JObject?
  }

  predicate Flat(fields: seq<Field>) {
    forall i :: 0 <= i < |fields| ==> Leaf(fields[i].value)
  }

  lemma {:induction false} HasAt(fields: seq<Field>, key: Key)
    ensures Has(fields, key) <==> exists i :: 0 <= i < |fields| && fields[i].key == key
  {
    if fields != [] {
      HasAt(fields[1..], key);
      assert forall i :: 1 <= i < |fields| ==> fields[i] == fields[1..][i - 1];
    }
  }

  lemma {:induction false} DistinctKeys(fields: seq<Field>)
    requires forall i, j :: 0 <= i < j < |fields| ==> fields[i].key != fields[j].key
    ensures UniqueKeys(fields)
  {
    if fields != [] {
      HasAt(fields[1..], fields[0].key);
      DistinctKeys(fields[1..]);
    }
  }

  /** Objects of leaves hold nothing to recurse into. */
  lemma {:induction false} FlatFields(fields: seq<Field>, isV2: bool)
    requires Flat(fields)
    ensures WellFormedFields(fields) && TransformFields(fields, isV2).Success?
    ensures TransformFields(fields, isV2).value.count == 0 && !HasSchemaFields(fields, false, 2)
  {
    if fields != [] {
      ValueDecreases(fields);
      assert Leaf(fields[0].value);
      FlatFields(fields[1..], isV2);
    }
  }

  const OTHER_FIELDS: seq<Field> := [
    Field(Identity(RunId), JNull), Field(Identity(Task), JNull), Field(Identity(Workspace), JNull),
    Field(Identity(Status), JNull), Field(Identity(CurrentStep), JNull), Field(Identity(MessagesCount), JNull),
    Field(Identity(ObservationsCount), JNull)]

  /** The smallest checkpoint with this digest field and version. */
  function CheckpointFields(digest: Key, version: Json): seq<Field> {
    [Field(digest, JNull), Field(SchemaVersion, version)] + OTHER_FIELDS
  }

  lemma CheckpointHas(digest: Key, version: Json, key: Key)
    ensures Has(CheckpointFields(digest, version), key) <==>
            key == digest || key == SchemaVersion || key.Identity?
  {
    var fields := CheckpointFields(digest, version);
    HasAt(fields, key);
    assert fields[0].key == digest && fields[1].key == SchemaVersion;
    assert forall i :: 2 <= i < 9 ==> fields[i] == OTHER_FIELDS[i - 2];
    if key.Identity? {
      match key.field
      case RunId => assert fields[2].key == key;
      case Task => assert fields[3].key == key;
      case Workspace => assert fields[4].key == key;
      case Status => assert fields[5].key == key;
      case CurrentStep => assert fields[6].key == key;
      case MessagesCount => assert fields[7].key == key;
      case ObservationsCount => assert fields[8].key == key;
    }
  }

  lemma CheckpointVersion(digest: Key, version: Json)
    requires digest != SchemaVersion
    ensures Get(CheckpointFields(digest, version), SchemaVersion) == Some(version)
  {
    var fields := CheckpointFields(digest, version);
    assert fields[1..][0] == Field(SchemaVersion, version);
  }

  lemma CheckpointKinds(digest: Key, version: Json, other: Key)
    requires digest == SessionDigest || digest == ConversationHistoryDigest
    requires other == SessionDigest || other == ConversationHistoryDigest
    ensures IsCheckpoint(CheckpointFields(digest, version), other) <==> other == digest
    ensures Has(CheckpointFields(digest, version), other) <==> other == digest
  {
    CheckpointHas(digest, version, other);
    forall field ensures Has(CheckpointFields(digest, version), Identity(field)) {
      CheckpointHas(digest, version, Identity(field));
    }
  }

  lemma CheckpointUnique(digest: Key, version: Json)
    requires digest == SessionDigest || digest == ConversationHistoryDigest
    ensures UniqueKeys(CheckpointFields(digest, version))
  {
    var fields := CheckpointFields(digest, version);
    assert forall i :: 2 <= i < 9 ==> fields[i] == OTHER_FIELDS[i - 2];
    DistinctKeys(fields);
  }

  lemma CheckpointIsFlat(digest: Key, version: Json)
    requires Leaf(version)
    ensures Flat(CheckpointFields(digest, version))
  {
    var fields := CheckpointFields(digest, version);
    assert forall i :: 2 <= i < 9 ==> fields[i] == OTHER_FIELDS[i - 2];
  }

  /** A flat object that is a checkpoint of one kind or the other, with version 2. */
  lemma FlatAccepted(fields: seq<Field>, digest: Key)
    requires digest == SessionDigest || digest == ConversationHistoryDigest
    requires Flat(fields) && UniqueKeys(fields) && IsNumber(Get(fields, SchemaVersion), 2)
    requires IsCheckpoint(fields, SessionDigest) <==> digest == SessionDigest
    requires IsCheckpoint(fields, ConversationHistoryDigest) <==> digest == ConversationHistoryDigest
    requires Has(fields, ConversationHistoryDigest) <==> digest == ConversationHistoryDigest
    ensures
      var j := JObject(fields);
      && WellFormed(j) && Transform(j).Success?
      && Transform(j).value.count == (if digest == SessionDigest then 1 else 0)
      && (HasV3Schema(j, 2) <==> digest == ConversationHistoryDigest)
  {
    FlatFields(fields, digest == SessionDigest);
  }

  /** A version 2 or version 3 checkpoint that says 2 or 2.0 is accepted. */
  lemma CheckpointAccepted(digest: Key, version: Json)
    requires digest == SessionDigest || digest == ConversationHistoryDigest
    requires Leaf(version) && IsNumber(Some(version), 2)
    ensures
      var j := JObject(CheckpointFields(digest, version));
      && WellFormed(j) && Transform(j).Success?
      && Transform(j).value.count == (if digest == SessionDigest then 1 else 0)
      && (HasV3Schema(j, 2) <==> digest == ConversationHistoryDigest)
  {
    var fields := CheckpointFields(digest, version);
    CheckpointKinds(digest, version, SessionDigest);
    CheckpointKinds(digest, version, ConversationHistoryDigest);
    CheckpointVersion(digest, version);
    CheckpointUnique(digest, version);
    CheckpointIsFlat(digest, version);
    FlatAccepted(fields, digest);
  }

  lemma FloatIsNoInteger(fields: seq<Field>)
    requires IsCheckpoint(fields, SessionDigest) && Get(fields, SchemaVersion) == Some(JFloat(2.0))
    ensures !IntegerVersions(JObject(fields))
  {
  }

  /** A version 2 checkpoint that says 2.0 is accepted, and its migrated file fails verification. */
  lemma FloatVersionWitness()
    ensures
      var j := JObject(CheckpointFields(SessionDigest, JFloat(2.0)));
      && WellFormed(j) && Transform(j).Success? && Transform(j).value.count == 1
      && PythonEqual(Normalize(Transform(j).value.value), Normalize(j))
      && !Verifies(Transform(j).value.value, Normalize(j))
  {
    CheckpointAccepted(SessionDigest, JFloat(2.0));
    CheckpointKinds(SessionDigest, JFloat(2.0), SessionDigest);
    CheckpointVersion(SessionDigest, JFloat(2.0));
    FloatIsNoInteger(CheckpointFields(SessionDigest, JFloat(2.0)));
    Refused(JObject(CheckpointFields(SessionDigest, JFloat(2.0))));
  }

  /** An accepted tree passes the comparison of the planning, and fails verification unless it is sound. */
  lemma Refused(j: Json)
    requires WellFormed(j) && Transform(j).Success? && !Sound(j)
    ensures PythonEqual(Normalize(Transform(j).value.value), Normalize(j))
    ensures !Verifies(Transform(j).value.value, Normalize(j))
  {
    MigrationInvisible(j);
    TreeVerifiesIff(j);
  }

  /** A version 3 checkpoint that says 2, beside one to migrate, is accepted, and the file fails verification. */
  lemma LeftoverVersionWitness()
    ensures
      var j := JArray([JObject(CheckpointFields(SessionDigest, JInt(2))),
                       JObject(CheckpointFields(ConversationHistoryDigest, JInt(2)))]);
      && WellFormed(j) && Transform(j).Success? && Transform(j).value.count == 1
      && PythonEqual(Normalize(Transform(j).value.value), Normalize(j))
      && !Verifies(Transform(j).value.value, Normalize(j))
  {
    var a := JObject(CheckpointFields(SessionDigest, JInt(2)));
    var b := JObject(CheckpointFields(ConversationHistoryDigest, JInt(2)));
    CheckpointAccepted(SessionDigest, JInt(2));
    CheckpointAccepted(ConversationHistoryDigest, JInt(2));
    PairAccepted(a, b);
    Refused(JArray([a, b]));
  }

  lemma PairAccepted(a: Json, b: Json)
    requires WellFormed(a) && WellFormed(b) && Transform(a).Success? && Transform(b).Success?
    ensures
      var j := JArray([a, b]);
      && WellFormed(j) && Transform(j).Success?
      && Transform(j).value.count == Transform(a).value.count + Transform(b).value.count
      && (HasV3Schema(j, 2) <==> HasV3Schema(a, 2) || HasV3Schema(b, 2))
  {
    assert [a, b][1..] == [b] && [b][1..] == [];
    assert WellFormedItems([b]);
    assert TransformItems([b]).Success? && TransformItems([b]).value.count == Transform(b).value.count;
    assert HasSchemaItems([b], false, 2) <==> HasSchema(b, false, 2);
    assert HasSchemaItems([a, b], false, 2) <==> HasSchema(a, false, 2) || HasSchemaItems([b], false, 2);
  }
}
