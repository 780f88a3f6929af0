/**
  What the checkpoint migration preserves, and exactly when an accepted migration passes the checks
  of `verify_applied_migration`.
*/
module MigrationMeaning {
  import opened Wrappers
  import opened Migration

  // ----- a second migration changes nothing -----

  lemma {:induction false} TransformIdempotent(j: Json)
    requires Transform(j).Success?
    ensures Transform(Transform(j).value.value) == Success(Migrated(Transform(j).value.value, 0))
    decreases j, 1
  {
    match j
    case JArray(items) => IdempotentItems(items);
    case JObject(fields) =>
      TransformedKind(fields);
      IdempotentFields(fields, IsCheckpoint(fields, SessionDigest));
    case _ =>
  }

  lemma {:induction false} IdempotentItems(items: seq<Json>)
    requires TransformItems(items).Success?
    ensures var out := TransformItems(items).value.value; TransformItems(out) == Success(Migrated(out, 0))
    decreases items, 0
  {
    if items != [] {
      TransformIdempotent(items[0]);
      IdempotentItems(items[1..]);
      assert TransformItems(items).value.value[1..] == TransformItems(items[1..]).value.value;
    }
  }

  lemma {:induction false} IdempotentFields(fields: seq<Field>, isV2: bool)
    requires TransformFields(fields, isV2).Success?
    ensures
      var out := TransformFields(fields, isV2).value.value;
      TransformFields(out, false) == Success(Migrated(out, 0))
    decreases fields, 0
  {
    if fields != [] {
      ValueDecreases(fields);
      var Field(key, value) := fields[0];
      if !(isV2 && key == SchemaVersion) { TransformIdempotent(value); }
      IdempotentFields(fields[1..], isV2);
      assert TransformFields(fields, isV2).value.value[1..] == TransformFields(fields[1..], isV2).value.value;
    }
  }

  // ----- the output is a JSON document again -----

  lemma {:induction false} TransformWellFormed(j: Json)
    requires WellFormed(j) && Transform(j).Success?
    ensures WellFormed(Transform(j).value.value)
    decreases j, 1
  {
    match j
    case JArray(items) => WellFormedOutItems(items);
    case JObject(fields) => WellFormedOutFields(fields, IsCheckpoint(fields, SessionDigest));
    case _ =>
  }

  lemma {:induction false} WellFormedOutItems(items: seq<Json>)
    requires WellFormedItems(items) && TransformItems(items).Success?
    ensures WellFormedItems(TransformItems(items).value.value)
    decreases items, 0
  {
    if items != [] {
      TransformWellFormed(items[0]);
      WellFormedOutItems(items[1..]);
    }
  }

  lemma {:induction false} WellFormedOutFields(fields: seq<Field>, isV2: bool)
    requires WellFormedFields(fields) && UniqueKeys(fields) && TransformFields(fields, isV2).Success?
    requires isV2 ==> !Has(fields, ConversationHistoryDigest)
    ensures
      var out := TransformFields(fields, isV2).value.value;
      WellFormedFields(out) && UniqueKeys(out)
    decreases fields, 0
  {
    if fields != [] {
      ValueDecreases(fields);
      var Field(key, value) := fields[0];
      if !(isV2 && key == SchemaVersion) { TransformWellFormed(value); }
      WellFormedOutFields(fields[1..], isV2);
      TransformedKeys(fields[1..], isV2, key);
      TransformedKeys(fields[1..], isV2, ConversationHistoryDigest);
      var out := TransformFields(fields, isV2).value.value;
      assert out[1..] == TransformFields(fields[1..], isV2).value.value;
    }
  }

  // ----- the normaliser does not see the migration -----

  /** Python compares numbers by value, and True and False as 1 and 0; this picks one spelling of each value. */
  function Canon(j: Json): Json
    decreases j, 1
  {
    match j
    case JBool(b) => JInt(if b then 1 else 0)
    case JFloat(x) => if x.Floor as real == x then JInt(x.Floor) else j
    case JArray(items) => JArray(CanonItems(items))
    case JObject(fields) => JObject(CanonFields(fields))
    case _ => j
  }

  function CanonItems(items: seq<Json>): seq<Json>
    decreases items, 0
  {
    if items == [] then [] else [Canon(items[0])] + CanonItems(items[1..])
  }

  function CanonFields(fields: seq<Field>): seq<Field>
    decreases fields, 0
  {
    if fields == [] then []
    else
      ValueDecreases(fields);
      var Field(key, value) := fields[0];
      [Field(key, Canon(value))] + CanonFields(fields[1..])
  }

  /** Python's `==` on JSON values. */
  predicate PythonEqual(a: Json, b: Json) {
    Canon(a) == Canon(b)
  }

  lemma {:induction false} CanonItemsAt(items: seq<Json>)
    ensures |CanonItems(items)| == |items|
    ensures forall i :: 0 <= i < |items| ==> CanonItems(items)[i] == Canon(items[i])
  {
    if items != [] { CanonItemsAt(items[1..]); }
  }

  lemma {:induction false} CanonFieldsAt(fields: seq<Field>)
    ensures |CanonFields(fields)| == |fields|
    ensures forall i :: 0 <= i < |fields| ==> CanonFields(fields)[i] == Field(fields[i].key, Canon(fields[i].value))
  {
    if fields != [] { CanonFieldsAt(fields[1..]); }
  }

  /** The value of a number; True and False are numbers too. */
  function NumberOf(j: Json): Option<real> {
    match j
    case JBool(b) => Some(if b then 1.0 else 0.0)
    case JInt(i) => Some(i as real)
    case JFloat(x) => Some(x)
    case _ => None
  }

  lemma CanonNumber(a: Json, b: Json)
    requires NumberOf(a).Some?
    ensures PythonEqual(a, b) <==> NumberOf(a) == NumberOf(b)
  {
    assert a.JInt? ==> (a.i as real).Floor == a.i;
    assert b.JInt? ==> (b.i as real).Floor == b.i;
  }

  /** Numbers are compared by value, lists and objects entry by entry, and everything else is itself. */
  lemma PythonEqualIff(a: Json, b: Json)
    ensures PythonEqual(a, b) <==>
      match a
      case JArray(items) =>
        && b.JArray? && |b.items| == |items|
        && forall i :: 0 <= i < |items| ==> PythonEqual(items[i], b.items[i])
      case JObject(fields) =>
        && b.JObject? && |b.fields| == |fields|
        && forall i :: 0 <= i < |fields| ==>
             b.fields[i].key == fields[i].key && PythonEqual(fields[i].value, b.fields[i].value)
      case _ => if NumberOf(a).Some? then NumberOf(a) == NumberOf(b) else a == b
  {
    if a.JArray? && b.JArray? {
      CanonItemsAt(a.items);
      CanonItemsAt(b.items);
      if |a.items| == |b.items| && forall i :: 0 <= i < |a.items| ==> PythonEqual(a.items[i], b.items[i]) {
        assert CanonItems(a.items) == CanonItems(b.items);
      }
    } else if a.JObject? && b.JObject? {
      CanonFieldsAt(a.fields);
      CanonFieldsAt(b.fields);
      if |a.fields| == |b.fields| && forall i :: 0 <= i < |a.fields| ==>
           b.fields[i].key == a.fields[i].key && PythonEqual(a.fields[i].value, b.fields[i].value) {
        assert CanonFields(a.fields) == CanonFields(b.fields);
      }
    } else if NumberOf(a).Some? {
      CanonNumber(a, b);
    }
  }

  lemma CanonItemsStep(x: Json, rest: seq<Json>)
    ensures CanonItems([x] + rest) == [Canon(x)] + CanonItems(rest)
  {
    assert ([x] + rest)[1..] == rest;
  }

  lemma CanonFieldsStep(key: Key, value: Json, rest: seq<Field>)
    ensures CanonFields([Field(key, value)] + rest) == [Field(key, Canon(value))] + CanonFields(rest)
  {
    assert ([Field(key, value)] + rest)[1..] == rest;
  }

  /** One entry of an object under the normaliser. */
  function NormalField(key: Key, value: Json, isV3: bool): seq<Field> {
    if key.Integrity? then []
    else [Field(if isV3 && key == ConversationHistoryDigest then SessionDigest else key,
                if isV3 && key == SchemaVersion then JInt(2) else Normalize(value))]
  }

  lemma NormalizeFieldsStep(key: Key, value: Json, rest: seq<Field>, isV3: bool)
    ensures NormalizeFields([Field(key, value)] + rest, isV3) ==
            NormalField(key, value, isV3) + NormalizeFields(rest, isV3)
  {
    assert ([Field(key, value)] + rest)[1..] == rest;
  }

  lemma {:induction false} CanonFieldsConcat(a: seq<Field>, b: seq<Field>)
    requires |a| <= 1
    ensures CanonFields(a + b) == CanonFields(a) + CanonFields(b)
  {
    if a == [] {
      assert a + b == b;
    } else {
      CanonFieldsStep(a[0].key, a[0].value, b);
      CanonFieldsStep(a[0].key, a[0].value, []);
      assert a == [a[0]] + [];
      assert a + b == [a[0]] + b;
    }
  }

  /** The migrated entry of one object. */
  function MigratedField(key: Key, value: Json, isV2: bool): Field
    requires (isV2 && key == SchemaVersion) || Transform(value).Success?
  {
    Field(if isV2 && key == SessionDigest then ConversationHistoryDigest else key,
          if isV2 && key == SchemaVersion then JInt(3) else Transform(value).value.value)
  }

  lemma TransformFieldsStep(fields: seq<Field>, isV2: bool)
    requires fields != [] && TransformFields(fields, isV2).Success?
    ensures (isV2 && fields[0].key == SchemaVersion) || Transform(fields[0].value).Success?
    ensures TransformFields(fields[1..], isV2).Success?
    ensures TransformFields(fields, isV2).value.value ==
            [MigratedField(fields[0].key, fields[0].value, isV2)] + TransformFields(fields[1..], isV2).value.value
  {
  }

  /**
    Whatever was migrated, the normalised trees before and after are equal in Python's sense: the
    comparison in `build_migration_plan` never rejects what `_transform_checkpoints` accepted.
  */
  lemma {:induction false} MigrationInvisible(j: Json)
    requires WellFormed(j) && Transform(j).Success?
    ensures PythonEqual(Normalize(Transform(j).value.value), Normalize(j))
    decreases j, 1
  {
    match j
    case JArray(items) => InvisibleItems(items);
    case JObject(fields) =>
      var isV2, isV3 := IsCheckpoint(fields, SessionDigest), IsCheckpoint(fields, ConversationHistoryDigest);
      TransformedKind(fields);
      if isV2 { UniqueVersion(fields, VersionOf(fields)); }
      InvisibleFields(fields, isV2, isV3, VersionOf(fields));
    case _ =>
  }

  lemma {:induction false} InvisibleItems(items: seq<Json>)
    requires WellFormedItems(items) && TransformItems(items).Success?
    ensures CanonItems(NormalizeItems(TransformItems(items).value.value)) == CanonItems(NormalizeItems(items))
    decreases items, 0
  {
    if items != [] {
      MigrationInvisible(items[0]);
      InvisibleItems(items[1..]);
      var out, rest := Transform(items[0]).value.value, TransformItems(items[1..]).value.value;
      assert ([out] + rest)[1..] == rest;
      CanonItemsStep(Normalize(out), NormalizeItems(rest));
      CanonItemsStep(Normalize(items[0]), NormalizeItems(items[1..]));
    }
  }

  /** An entry that the migration left to the normaliser. */
  lemma FieldInvisible(key: Key, value: Json, isV2: bool, isV3: bool, v: Json)
    requires (isV2 && key == SchemaVersion) || Transform(value).Success?
    requires !(isV2 && key == SchemaVersion) ==> PythonEqual(Normalize(Transform(value).value.value), Normalize(value))
    requires isV2 ==> !isV3 && key != ConversationHistoryDigest && IsNumber(Some(v), 2)
    requires isV2 && key == SchemaVersion ==> value == v
    ensures
      var m := MigratedField(key, value, isV2);
      CanonFields(NormalField(m.key, m.value, isV2 || isV3)) == CanonFields(NormalField(key, value, isV3))
  {
    var m := MigratedField(key, value, isV2);
    if !key.Integrity? {
      var a, b := NormalField(m.key, m.value, isV2 || isV3)[0], NormalField(key, value, isV3)[0];
      CanonFieldsStep(a.key, a.value, []);
      CanonFieldsStep(b.key, b.value, []);
      assert [a] + [] == [a] && [b] + [] == [b];
      assert Canon(a.value) == Canon(b.value);
    }
  }

  lemma {:induction false} InvisibleFields(fields: seq<Field>, isV2: bool, isV3: bool, v: Json)
    requires WellFormedFields(fields) && TransformFields(fields, isV2).Success?
    requires isV2 ==> !isV3 && !Has(fields, ConversationHistoryDigest)
    requires isV2 ==> AllVersions(fields, v) && IsNumber(Some(v), 2)
    ensures CanonFields(NormalizeFields(TransformFields(fields, isV2).value.value, isV2 || isV3)) ==
            CanonFields(NormalizeFields(fields, isV3))
    decreases fields, 0
  {
    if fields != [] {
      ValueDecreases(fields);
      var Field(key, value) := fields[0];
      TransformFieldsStep(fields, isV2);
      if !(isV2 && key == SchemaVersion) { MigrationInvisible(value); }
      InvisibleFields(fields[1..], isV2, isV3, v);
      FieldInvisible(key, value, isV2, isV3, v);
      var m, rest := MigratedField(key, value, isV2), TransformFields(fields[1..], isV2).value.value;
      NormalizeFieldsStep(m.key, m.value, rest, isV2 || isV3);
      NormalizeFieldsStep(key, value, fields[1..], isV3);
      assert fields == [Field(key, value)] + fields[1..];
      CanonFieldsConcat(NormalField(m.key, m.value, isV2 || isV3), NormalizeFields(rest, isV2 || isV3));
      CanonFieldsConcat(NormalField(key, value, isV3), NormalizeFields(fields[1..], isV3));
    }
  }

  // ----- when the trees are the same even in spelling -----

  /**
    Every version 2 checkpoint that the normaliser can see writes its version as the integer 2 and
    not as the float 2.0.
  */
  predicate IntegerVersions(j: Json)
    decreases j, 1
  {
    match j
    case JArray(items) => IntegerVersionsItems(items)
    case JObject(fields) =>
      (IsCheckpoint(fields, SessionDigest) ==> VersionOf(fields) == JInt(2)) &&
      IntegerVersionsFields(fields, IsCheckpoint(fields, ConversationHistoryDigest))
    case _ => true
  }

  predicate IntegerVersionsItems(items: seq<Json>)
    decreases items, 0
  {
    items == [] || (IntegerVersions(items[0]) && IntegerVersionsItems(items[1..]))
  }

  /** Entries whose value the normaliser drops or replaces. */
  predicate Hidden(key: Key, isV3: bool) {
    key.Integrity? || (isV3 && key == SchemaVersion)
  }

  predicate IntegerVersionsFields(fields: seq<Field>, isV3: bool)
    decreases fields, 0
  {
    if fields == [] then true
    else
      ValueDecreases(fields);
      var Field(key, value) := fields[0];
      (Hidden(key, isV3) || IntegerVersions(value)) && IntegerVersionsFields(fields[1..], isV3)
  }

  /**
    The normalised trees agree in spelling, and hence in digest, exactly when every visible version 2
    checkpoint spells its version as an integer.
  */
  lemma {:induction false} SameSpelling(j: Json)
    requires WellFormed(j) && Transform(j).Success?
    ensures Normalize(Transform(j).value.value) == Normalize(j) <==> IntegerVersions(j)
    decreases j, 1
  {
    match j
    case JArray(items) => SameSpellingItems(items);
    case JObject(fields) => SameSpellingObject(fields);
    case _ =>
  }

  lemma {:induction false} SameSpellingObject(fields: seq<Field>)
    requires WellFormed(JObject(fields)) && Transform(JObject(fields)).Success?
    ensures Normalize(Transform(JObject(fields)).value.value) == Normalize(JObject(fields)) <==>
            IntegerVersions(JObject(fields))
    decreases fields, 1
  {
    var isV2, isV3 := IsCheckpoint(fields, SessionDigest), IsCheckpoint(fields, ConversationHistoryDigest);
    TransformedKind(fields);
    if isV2 {
      UniqueVersion(fields, VersionOf(fields));
      FoundIsHeld(fields, SchemaVersion);
    }
    SameSpellingFields(fields, isV2, isV3, VersionOf(fields));
  }

  lemma {:induction false} SameSpellingItems(items: seq<Json>)
    requires WellFormedItems(items) && TransformItems(items).Success?
    ensures NormalizeItems(TransformItems(items).value.value) == NormalizeItems(items) <==> IntegerVersionsItems(items)
    decreases items, 0
  {
    if items != [] {
      SameSpelling(items[0]);
      SameSpellingItems(items[1..]);
      var out, rest := Transform(items[0]).value.value, TransformItems(items[1..]).value.value;
      assert ([out] + rest)[1..] == rest;
      var a, b := NormalizeItems(TransformItems(items).value.value), NormalizeItems(items);
      assert a == [Normalize(out)] + NormalizeItems(rest);
      assert a[0] == Normalize(out) && a[1..] == NormalizeItems(rest);
      assert b[0] == Normalize(items[0]) && b[1..] == NormalizeItems(items[1..]);
    }
  }

  lemma SameHeadTail(x: seq<Field>, y: seq<Field>, rest: seq<Field>, rest': seq<Field>)
    requires |x| == |y|
    ensures x + rest == y + rest' <==> x == y && rest == rest'
  {
    if x + rest == y + rest' {
      assert x == (x + rest)[..|x|] && y == (y + rest')[..|y|];
      assert rest == (x + rest)[|x|..] && rest' == (y + rest')[|y|..];
    }
  }

  /** The spelling of one entry. */
  lemma FieldSpelling(key: Key, value: Json, isV2: bool, isV3: bool, v: Json)
    requires (isV2 && key == SchemaVersion) || Transform(value).Success?
    requires !(isV2 && key == SchemaVersion) ==>
      (Normalize(Transform(value).value.value) == Normalize(value) <==> IntegerVersions(value))
    requires isV2 ==> !isV3 && key != ConversationHistoryDigest && IsNumber(Some(v), 2)
    requires isV2 && key == SchemaVersion ==> value == v
    ensures
      var m := MigratedField(key, value, isV2);
      var x, y := NormalField(m.key, m.value, isV2 || isV3), NormalField(key, value, isV3);
      |x| == |y| &&
      (x == y <==>
         (isV2 && key == SchemaVersion ==> v == JInt(2)) && (Hidden(key, isV3) || IntegerVersions(value)))
  {
    var m := MigratedField(key, value, isV2);
    if !key.Integrity? {
      var a, b := NormalField(m.key, m.value, isV2 || isV3)[0], NormalField(key, value, isV3)[0];
      assert [a] == [b] <==> a == b by { if [a] == [b] { assert [a][0] == [b][0]; } }
      if isV2 && key == SchemaVersion { assert v.JInt? || v.JFloat?; }
    }
  }

  lemma {:induction false} SameSpellingFields(fields: seq<Field>, isV2: bool, isV3: bool, v: Json)
    requires WellFormedFields(fields) && TransformFields(fields, isV2).Success?
    requires isV2 ==> !isV3 && !Has(fields, ConversationHistoryDigest)
    requires isV2 ==> AllVersions(fields, v) && IsNumber(Some(v), 2)
    ensures NormalizeFields(TransformFields(fields, isV2).value.value, isV2 || isV3) == NormalizeFields(fields, isV3)
            <==> (isV2 && Has(fields, SchemaVersion) ==> v == JInt(2)) && IntegerVersionsFields(fields, isV3)
    decreases fields, 0
  {
    if fields != [] {
      ValueDecreases(fields);
      var Field(key, value) := fields[0];
      TransformFieldsStep(fields, isV2);
      if !(isV2 && key == SchemaVersion) { SameSpelling(value); }
      SameSpellingFields(fields[1..], isV2, isV3, v);
      var m, rest := MigratedField(key, value, isV2), TransformFields(fields[1..], isV2).value.value;
      FieldSpelling(key, value, isV2, isV3, v);
      NormalizeFieldsStep(m.key, m.value, rest, isV2 || isV3);
      NormalizeFieldsStep(key, value, fields[1..], isV3);
      assert fields == [Field(key, value)] + fields[1..];
      SameHeadTail(NormalField(m.key, m.value, isV2 || isV3), NormalField(key, value, isV3),
                   NormalizeFields(rest, isV2 || isV3), NormalizeFields(fields[1..], isV3));
    }
  }

  // ----- version 3 checkpoints that still say 2 -----

  /** Whether some version 3 checkpoint carries this schema version. */
  predicate HasV3Schema(j: Json, version: int) {
    HasSchema(j, false, version)
  }

  /** After the migration a checkpoint with schema version 2 is left exactly if a version 3 one had it before. */
  lemma {:induction false} LeftoverSchema(j: Json)
    requires WellFormed(j) && Transform(j).Success?
    ensures HasCheckpointSchema(Transform(j).value.value, 2) <==> HasV3Schema(j, 2)
    decreases j, 1
  {
    match j
    case JArray(items) => LeftoverSchemaItems(items);
    case JObject(fields) =>
      var isV2 := IsCheckpoint(fields, SessionDigest);
      TransformedKind(fields);
      TransformedVersion(fields, isV2);
      FoundIsHeld(fields, SchemaVersion);
      if isV2 { UniqueVersion(fields, VersionOf(fields)); }
      LeftoverSchemaFields(fields, isV2, VersionOf(fields));
    case _ =>
  }

  lemma {:induction false} LeftoverSchemaItems(items: seq<Json>)
    requires WellFormedItems(items) && TransformItems(items).Success?
    ensures HasSchemaItems(TransformItems(items).value.value, true, 2) <==> HasSchemaItems(items, false, 2)
    decreases items, 0
  {
    if items != [] {
      LeftoverSchema(items[0]);
      LeftoverSchemaItems(items[1..]);
      assert TransformItems(items).value.value[1..] == TransformItems(items[1..]).value.value;
    }
  }

  lemma {:induction false} LeftoverSchemaFields(fields: seq<Field>, isV2: bool, v: Json)
    requires WellFormedFields(fields) && TransformFields(fields, isV2).Success?
    requires isV2 ==> AllVersions(fields, v) && IsNumber(Some(v), 2)
    ensures HasSchemaFields(TransformFields(fields, isV2).value.value, true, 2) <==> HasSchemaFields(fields, false, 2)
    decreases fields, 0
  {
    if fields != [] {
      ValueDecreases(fields);
      var Field(key, value) := fields[0];
      if !(isV2 && key == SchemaVersion) { LeftoverSchema(value); }
      LeftoverSchemaFields(fields[1..], isV2, v);
      assert TransformFields(fields, isV2).value.value[1..] == TransformFields(fields[1..], isV2).value.value;
    }
  }

  lemma {:induction false} SchemaImpliesCheckpoint(j: Json)
    requires HasV3Schema(j, 2)
    ensures Count(j, ConversationHistoryDigest) > 0
    decreases j, 1
  {
    match j
    case JArray(items) => SchemaImpliesCheckpointItems(items);
    case JObject(fields) =>
      if !IsCheckpoint(fields, ConversationHistoryDigest) { SchemaImpliesCheckpointFields(fields); }
  }

  lemma {:induction false} SchemaImpliesCheckpointItems(items: seq<Json>)
    requires HasSchemaItems(items, false, 2)
    ensures CountItems(items, ConversationHistoryDigest) > 0
    decreases items, 0
  {
    if HasSchema(items[0], false, 2) {
      SchemaImpliesCheckpoint(items[0]);
    } else {
      SchemaImpliesCheckpointItems(items[1..]);
    }
  }

  lemma {:induction false} SchemaImpliesCheckpointFields(fields: seq<Field>)
    requires HasSchemaFields(fields, false, 2)
    ensures CountFields(fields, ConversationHistoryDigest) > 0
    decreases fields, 0
  {
    ValueDecreases(fields);
    if HasSchema(fields[0].value, false, 2) {
      SchemaImpliesCheckpoint(fields[0].value);
    } else {
      SchemaImpliesCheckpointFields(fields[1..]);
    }
  }
}
