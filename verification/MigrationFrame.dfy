/**
  What the checkpoint migration does to a document place by place, when it rejects one, and what it
  counts, in terms of the places of the document alone.

  A place is a path of positions: positions in the list of an array and in the entries of an object.
*/
module MigrationFrame {
  import opened Wrappers
  import opened Migration
  import Counting
  import Ordering

  type Path = seq<nat>

  function NodeAt(j: Json, path: Path): Option<Json>
    decreases |path|
  {
    if path == [] then Some(j)
    else
      match j
      case JArray(items) => if path[0] < |items| then NodeAt(items[path[0]], path[1..]) else None
      case JObject(fields) => if path[0] < |fields| then NodeAt(fields[path[0]].value, path[1..]) else None
      case _ => None
  }

  ghost predicate HoldsKey(fields: seq<Field>, key: Key) {
    exists i :: 0 <= i < |fields| && fields[i].key == key
  }

  /** An object that has the digest entry and every identity entry. */
  ghost predicate Checkpoint(fields: seq<Field>, digest: Key) {
    HoldsKey(fields, digest) && forall f: IdentityField :: HoldsKey(fields, Identity(f))
  }

  lemma {:induction false} HasIff(fields: seq<Field>, key: Key)
    ensures Has(fields, key) <==> HoldsKey(fields, key)
  {
    if fields != [] {
      HasIff(fields[1..], key);
      if i :| 0 <= i < |fields| && fields[i].key == key {
        if i > 0 { assert fields[1..][i - 1].key == key; }
      }
      if i :| 0 <= i < |fields[1..]| && fields[1..][i].key == key { assert fields[i + 1].key == key; }
    }
  }

  lemma CheckpointIff(fields: seq<Field>, digest: Key)
    ensures IsCheckpoint(fields, digest) <==> Checkpoint(fields, digest)
  {
    HasIff(fields, digest);
    forall f: IdentityField ensures Has(fields, Identity(f)) <==> HoldsKey(fields, Identity(f)) {
      HasIff(fields, Identity(f));
    }
    assert Checkpoint(fields, digest) ==> IsCheckpoint(fields, digest);
    if IsCheckpoint(fields, digest) {
      forall f: IdentityField ensures HoldsKey(fields, Identity(f)) {
        match f
        case RunId | Task | Workspace | Status | CurrentStep | MessagesCount | ObservationsCount =>
      }
    }
  }

  // ----- place by place -----

  /** The place is the version entry of a version 2 checkpoint. */
  ghost predicate VersionPlace(j: Json, path: Path)
    decreases |path|
  {
    path != [] &&
    match j
    case JArray(items) => path[0] < |items| && VersionPlace(items[path[0]], path[1..])
    case JObject(fields) =>
      path[0] < |fields| &&
      if |path| == 1 then fields[path[0]].key == SchemaVersion && Checkpoint(fields, SessionDigest)
      else VersionPlace(fields[path[0]].value, path[1..])
    case _ => false
  }

  /** Two nodes of the same kind and size, an object with its keys in the same order but for the digest key. */
  ghost predicate SameShape(x: Json, y: Json) {
    match x
    case JArray(items) => y.JArray? && |y.items| == |items|
    case JObject(fields) =>
      && y.JObject? && |y.fields| == |fields|
      && forall i :: 0 <= i < |fields| ==>
           y.fields[i].key ==
           if fields[i].key == SessionDigest && Checkpoint(fields, SessionDigest) then ConversationHistoryDigest
           else fields[i].key
    case _ => y == x
  }

  lemma {:induction false} ItemAt(items: seq<Json>, i: nat)
    requires TransformItems(items).Success? && i < |items|
    ensures Transform(items[i]).Success?
    ensures
      var out := TransformItems(items).value.value;
      |out| == |items| && out[i] == Transform(items[i]).value.value
  {
    if i > 0 { ItemAt(items[1..], i - 1); } else if |items| > 1 { ItemAt(items[1..], 0); }
  }

  lemma {:induction false} FieldAt(fields: seq<Field>, isV2: bool, i: nat)
    requires TransformFields(fields, isV2).Success? && i < |fields|
    ensures (isV2 && fields[i].key == SchemaVersion) || Transform(fields[i].value).Success?
    ensures
      var out := TransformFields(fields, isV2).value.value;
      && |out| == |fields|
      && out[i].key ==
         (if isV2 && fields[i].key == SessionDigest then ConversationHistoryDigest else fields[i].key)
      && out[i].value ==
         if isV2 && fields[i].key == SchemaVersion then JInt(3) else Transform(fields[i].value).value.value
  {
    if i > 0 { FieldAt(fields[1..], isV2, i - 1); } else if |fields| > 1 { FieldAt(fields[1..], isV2, 0); }
  }

  lemma {:induction false} WellFormedItemAt(items: seq<Json>, i: nat)
    requires WellFormedItems(items) && i < |items|
    ensures WellFormed(items[i])
  {
    if i > 0 { WellFormedItemAt(items[1..], i - 1); }
  }

  lemma {:induction false} WellFormedFieldAt(fields: seq<Field>, i: nat)
    requires WellFormedFields(fields) && i < |fields|
    ensures WellFormed(fields[i].value)
  {
    if i > 0 { WellFormedFieldAt(fields[1..], i - 1); }
  }

  lemma {:induction false} AllVersionsAt(fields: seq<Field>, v: Json, i: nat)
    requires AllVersions(fields, v) && i < |fields| && fields[i].key == SchemaVersion
    ensures fields[i].value == v
  {
    if i > 0 { AllVersionsAt(fields[1..], v, i - 1); }
  }

  /** The version entry of an accepted version 2 checkpoint is a number. */
  lemma VersionIsNumber(fields: seq<Field>, i: nat)
    requires WellFormed(JObject(fields)) && Transform(JObject(fields)).Success?
    requires IsCheckpoint(fields, SessionDigest) && i < |fields| && fields[i].key == SchemaVersion
    ensures IsNumeric(fields[i].value)
  {
    UniqueVersion(fields, VersionOf(fields));
    AllVersionsAt(fields, VersionOf(fields), i);
  }

  /**
    At every place of the document the migrated one has the same value, or a node of the same shape, except
    that the version of a version 2 checkpoint is 3; and it has no other place.
  */
  lemma {:induction false} FrameAt(j: Json, path: Path)
    requires WellFormed(j) && Transform(j).Success?
    ensures
      var x, y := NodeAt(j, path), NodeAt(Transform(j).value.value, path);
      && (x.None? <==> y.None?)
      && (x.Some? ==> if VersionPlace(j, path) then y.value == JInt(3) else SameShape(x.value, y.value))
    decreases |path|
  {
    if path == [] {
      if j.JObject? { ObjectShape(j.fields); }
      if j.JArray? && j.items != [] { ItemAt(j.items, 0); }
    } else if j.JArray? && path[0] < |j.items| {
      ItemAt(j.items, path[0]);
      WellFormedItemAt(j.items, path[0]);
      FrameAt(j.items[path[0]], path[1..]);
    } else if j.JArray? {
      if j.items != [] { ItemAt(j.items, 0); }
    } else if j.JObject? {
      FrameField(j.fields, path);
    }
  }

  lemma ObjectShape(fields: seq<Field>)
    requires Transform(JObject(fields)).Success?
    ensures SameShape(JObject(fields), Transform(JObject(fields)).value.value)
    ensures |Transform(JObject(fields)).value.value.fields| == |fields|
  {
    CheckpointIff(fields, SessionDigest);
    var isV2 := IsCheckpoint(fields, SessionDigest);
    var out := TransformFields(fields, isV2).value.value;
    if fields != [] { FieldAt(fields, isV2, 0); }
    forall i | 0 <= i < |fields|
      ensures out[i].key ==
              if isV2 && fields[i].key == SessionDigest then ConversationHistoryDigest else fields[i].key
    {
      FieldAt(fields, isV2, i);
    }
  }

  lemma {:induction false} FrameField(fields: seq<Field>, path: Path)
    requires WellFormed(JObject(fields)) && Transform(JObject(fields)).Success? && path != []
    ensures
      var j := JObject(fields);
      var x, y := NodeAt(j, path), NodeAt(Transform(j).value.value, path);
      && (x.None? <==> y.None?)
      && (x.Some? ==> if VersionPlace(j, path) then y.value == JInt(3) else SameShape(x.value, y.value))
    decreases |path|, 0
  {
    ObjectShape(fields);
    CheckpointIff(fields, SessionDigest);
    var isV2, i := IsCheckpoint(fields, SessionDigest), path[0];
    if i < |fields| {
      FieldAt(fields, isV2, i);
      if isV2 && fields[i].key == SchemaVersion {
        VersionIsNumber(fields, i);
        assert |path| == 1 ==> path[1..] == [];
      } else {
        WellFormedFieldAt(fields, i);
        assert |path| == 1 ==> path[1..] == [] && !VersionPlace(fields[i].value, []);
        FrameAt(fields[i].value, path[1..]);
      }
    }
  }

  /** A document without a version 2 checkpoint is accepted and stays exactly as it is. */
  lemma {:induction false} UntouchedWithoutCheckpoint(j: Json)
    requires Count(j, SessionDigest) == 0
    ensures Transform(j) == Success(Migrated(j, 0))
    decreases j, 1
  {
    match j
    case JArray(items) => UntouchedItems(items);
    case JObject(fields) => UntouchedFields(fields);
    case _ =>
  }

  lemma {:induction false} UntouchedItems(items: seq<Json>)
    requires CountItems(items, SessionDigest) == 0
    ensures TransformItems(items) == Success(Migrated(items, 0))
    decreases items, 0
  {
    if items != [] {
      UntouchedWithoutCheckpoint(items[0]);
      UntouchedItems(items[1..]);
      assert items == [items[0]] + items[1..];
    }
  }

  lemma {:induction false} UntouchedFields(fields: seq<Field>)
    requires CountFields(fields, SessionDigest) == 0
    ensures TransformFields(fields, false) == Success(Migrated(fields, 0))
    decreases fields, 0
  {
    if fields != [] {
      ValueDecreases(fields);
      UntouchedWithoutCheckpoint(fields[0].value);
      UntouchedFields(fields[1..]);
      assert fields == [fields[0]] + fields[1..];
    }
  }

  // ----- all nodes in document order -----

  function Nodes(j: Json): (nodes: seq<Json>)
    ensures |nodes| > 0 && nodes[0] == j
    decreases j, 1
  {
    match j
    case JArray(items) => [j] + NodesOfItems(items)
    case JObject(fields) => [j] + NodesOfFields(fields)
    case _ => [j]
  }

  function NodesOfItems(items: seq<Json>): seq<Json>
    decreases items, 0
  {
    if items == [] then [] else Nodes(items[0]) + NodesOfItems(items[1..])
  }

  function NodesOfFields(fields: seq<Field>): seq<Json>
    decreases fields, 0
  {
    if fields == [] then []
    else
      ValueDecreases(fields);
      var Field(_, value) := fields[0];
      Nodes(value) + NodesOfFields(fields[1..])
  }

  ghost predicate CheckpointNode(node: Json, digest: Key) {
    node.JObject? && Checkpoint(node.fields, digest)
  }

  ghost function CheckpointWith(digest: Key): Json -> bool {
    node => CheckpointNode(node, digest)
  }

  // ----- what is counted -----

  lemma CountHead(j: Json, rest: seq<Json>, digest: Key)
    ensures Counting.Count([j] + rest, CheckpointWith(digest)) ==
            (if CheckpointNode(j, digest) then 1 else 0) + Counting.Count(rest, CheckpointWith(digest))
  {
    Counting.CountConcat([j], rest, CheckpointWith(digest));
    Counting.CountAppend([], j, CheckpointWith(digest));
    assert [] + [j] == [j];
    assert CheckpointWith(digest)(j) == CheckpointNode(j, digest);
  }

  lemma {:induction false} CountIsNodes(j: Json, digest: Key)
    ensures Count(j, digest) == Counting.Count(Nodes(j), CheckpointWith(digest))
    decreases j, 1
  {
    match j
    case JArray(items) =>
      CountItemsIsNodes(items, digest);
      CountHead(j, NodesOfItems(items), digest);
    case JObject(fields) =>
      CheckpointIff(fields, digest);
      CountFieldsIsNodes(fields, digest);
      CountHead(j, NodesOfFields(fields), digest);
    case _ =>
      CountHead(j, [], digest);
      assert [j] + [] == [j];
  }

  lemma {:induction false} CountItemsIsNodes(items: seq<Json>, digest: Key)
    ensures CountItems(items, digest) == Counting.Count(NodesOfItems(items), CheckpointWith(digest))
    decreases items, 0
  {
    if items != [] {
      CountIsNodes(items[0], digest);
      CountItemsIsNodes(items[1..], digest);
      Counting.CountConcat(Nodes(items[0]), NodesOfItems(items[1..]), CheckpointWith(digest));
    }
  }

  lemma {:induction false} CountFieldsIsNodes(fields: seq<Field>, digest: Key)
    ensures CountFields(fields, digest) == Counting.Count(NodesOfFields(fields), CheckpointWith(digest))
    decreases fields, 0
  {
    if fields != [] {
      ValueDecreases(fields);
      CountIsNodes(fields[0].value, digest);
      CountFieldsIsNodes(fields[1..], digest);
      Counting.CountConcat(Nodes(fields[0].value), NodesOfFields(fields[1..]), CheckpointWith(digest));
    }
  }

  /** `_count_checkpoint_field` is the number of checkpoints among the nodes, at any depth. */
  lemma CheckpointsCounted(j: Json, digest: Key)
    ensures Count(j, digest) ==
            |set k: nat | k < |Nodes(j)| && Nodes(j)[k].JObject? && Checkpoint(Nodes(j)[k].fields, digest)|
  {
    CountIsNodes(j, digest);
    Counting.CountIsSize(Nodes(j), CheckpointWith(digest));
    assert Counting.Places(Nodes(j), CheckpointWith(digest)) ==
           set k: nat | k < |Nodes(j)| && Nodes(j)[k].JObject? && Checkpoint(Nodes(j)[k].fields, digest);
  }

  // ----- when a document is rejected -----

  ghost predicate VersionIs(fields: seq<Field>, version: int) {
    exists i :: 0 <= i < |fields| && fields[i].key == SchemaVersion &&
                fields[i].value in {JInt(version), JFloat(version as real)}
  }

  /** What is wrong with a node: a version 2 checkpoint with both digests, or one that says another version. */
  ghost function Defect(node: Json): Option<Rejection> {
    if !CheckpointNode(node, SessionDigest) then None
    else if HoldsKey(node.fields, ConversationHistoryDigest) then Some(BothDigestFields)
    else if !VersionIs(node.fields, 2) then Some(NotSchemaVersion2)
    else None
  }

  ghost function FirstDefect(nodes: seq<Json>): Option<Rejection> {
    if nodes == [] then None
    else if Defect(nodes[0]).Some? then Defect(nodes[0])
    else FirstDefect(nodes[1..])
  }

  lemma {:induction false} FirstDefectIs(nodes: seq<Json>)
    ensures FirstDefect(nodes).None? <==> forall k :: 0 <= k < |nodes| ==> Defect(nodes[k]).None?
    ensures FirstDefect(nodes).Some? ==>
      exists k :: 0 <= k < |nodes| && Defect(nodes[k]) == FirstDefect(nodes) &&
                  forall m :: 0 <= m < k ==> Defect(nodes[m]).None?
  {
    if nodes != [] && Defect(nodes[0]).None? {
      FirstDefectIs(nodes[1..]);
      assert forall k :: 0 < k < |nodes| ==> nodes[k] == nodes[1..][k - 1];
      if FirstDefect(nodes).Some? {
        var k :| 0 <= k < |nodes[1..]| && Defect(nodes[1..][k]) == FirstDefect(nodes[1..]) &&
                 forall m :: 0 <= m < k ==> Defect(nodes[1..][m]).None?;
        assert Defect(nodes[k + 1]) == FirstDefect(nodes);
        assert forall m :: 0 < m < k + 1 ==> nodes[m] == nodes[1..][m - 1];
      }
    }
  }

  lemma {:induction false} FirstDefectConcat(a: seq<Json>, b: seq<Json>)
    ensures FirstDefect(a + b) == if FirstDefect(a).Some? then FirstDefect(a) else FirstDefect(b)
  {
    if a == [] {
      assert a + b == b;
    } else {
      assert (a + b)[1..] == a[1..] + b;
      FirstDefectConcat(a[1..], b);
    }
  }

  /** With unique keys the entry that `value.get` finds is the only one. */
  lemma {:induction false} VersionIsIff(fields: seq<Field>, version: int)
    requires UniqueKeys(fields)
    ensures IsNumber(Get(fields, SchemaVersion), version) <==> VersionIs(fields, version)
  {
    if fields != [] {
      VersionIsIff(fields[1..], version);
      HasIff(fields[1..], SchemaVersion);
      assert forall i :: 0 < i < |fields| ==> fields[i] == fields[1..][i - 1];
      if VersionIs(fields[1..], version) {
        var i :| 0 <= i < |fields[1..]| && fields[1..][i].key == SchemaVersion &&
                 fields[1..][i].value in {JInt(version), JFloat(version as real)};
        assert fields[i + 1].key == SchemaVersion;
      }
    }
  }

  lemma DefectIff(fields: seq<Field>)
    requires UniqueKeys(fields)
    ensures
      var isV2 := IsCheckpoint(fields, SessionDigest);
      Defect(JObject(fields)) ==
      if isV2 && Has(fields, ConversationHistoryDigest) then Some(BothDigestFields)
      else if isV2 && !IsNumber(Get(fields, SchemaVersion), 2) then Some(NotSchemaVersion2)
      else None
  {
    CheckpointIff(fields, SessionDigest);
    HasIff(fields, ConversationHistoryDigest);
    VersionIsIff(fields, 2);
  }

  lemma {:induction false} RejectsFirst(j: Json)
    requires WellFormed(j)
    ensures
      match FirstDefect(Nodes(j))
      case Some(e) => Transform(j) == Failure(e)
      case None => Transform(j).Success?
    decreases j, 1
  {
    match j
    case JArray(items) =>
      RejectsFirstItem(items);
      assert Nodes(j)[1..] == NodesOfItems(items);
    case JObject(fields) =>
      DefectIff(fields);
      assert Nodes(j)[1..] == NodesOfFields(fields);
      if Defect(j).None? {
        var isV2 := IsCheckpoint(fields, SessionDigest);
        if isV2 { UniqueVersion(fields, VersionOf(fields)); }
        RejectsFirstField(fields, isV2, VersionOf(fields));
      }
    case _ =>
      assert Nodes(j)[1..] == [];
  }

  lemma {:induction false} RejectsFirstItem(items: seq<Json>)
    requires WellFormedItems(items)
    ensures
      match FirstDefect(NodesOfItems(items))
      case Some(e) => TransformItems(items) == Failure(e)
      case None => TransformItems(items).Success?
    decreases items, 0
  {
    if items != [] {
      RejectsFirst(items[0]);
      RejectsFirstItem(items[1..]);
      FirstDefectConcat(Nodes(items[0]), NodesOfItems(items[1..]));
    }
  }

  lemma {:induction false} RejectsFirstField(fields: seq<Field>, isV2: bool, v: Json)
    requires WellFormedFields(fields) && (isV2 ==> AllVersions(fields, v) && IsNumeric(v))
    ensures
      match FirstDefect(NodesOfFields(fields))
      case Some(e) => TransformFields(fields, isV2) == Failure(e)
      case None => TransformFields(fields, isV2).Success?
    decreases fields, 0
  {
    if fields != [] {
      ValueDecreases(fields);
      var Field(key, value) := fields[0];
      RejectsFirst(value);
      RejectsFirstField(fields[1..], isV2, v);
      FirstDefectConcat(Nodes(value), NodesOfFields(fields[1..]));
      if isV2 && key == SchemaVersion {
        assert Nodes(value) == [value] && [value][1..] == [];
        assert FirstDefect(Nodes(value)).None?;
      }
    }
  }

  /** A document is rejected exactly when some node is defective, and for the first such node in document order. */
  lemma RejectedIff(j: Json)
    requires WellFormed(j)
    ensures Transform(j).Success? <==> forall k :: 0 <= k < |Nodes(j)| ==> Defect(Nodes(j)[k]).None?
    ensures Transform(j).Failure? ==>
      exists k :: 0 <= k < |Nodes(j)| && Defect(Nodes(j)[k]) == Some(Transform(j).error) &&
                  forall m :: 0 <= m < k ==> Defect(Nodes(j)[m]).None?
  {
    RejectsFirst(j);
    FirstDefectIs(Nodes(j));
  }

  // ----- which versions checkpoints say -----

  ghost predicate SaysVersion(node: Json, v2: bool, version: int) {
    && node.JObject? && VersionIs(node.fields, version)
    && (Checkpoint(node.fields, ConversationHistoryDigest) || (v2 && Checkpoint(node.fields, SessionDigest)))
  }

  ghost predicate SomeSays(nodes: seq<Json>, v2: bool, version: int) {
    exists k :: 0 <= k < |nodes| && SaysVersion(nodes[k], v2, version)
  }

  lemma SomeSaysConcat(a: seq<Json>, b: seq<Json>, v2: bool, version: int)
    ensures SomeSays(a + b, v2, version) <==> SomeSays(a, v2, version) || SomeSays(b, v2, version)
  {
    if k :| 0 <= k < |a| && SaysVersion(a[k], v2, version) { assert (a + b)[k] == a[k]; }
    if k :| 0 <= k < |b| && SaysVersion(b[k], v2, version) { assert (a + b)[|a| + k] == b[k]; }
  }

  /** `_has_checkpoint_schema`: some checkpoint among the nodes, at any depth, says this version. */
  lemma {:induction false} SchemaIff(j: Json, v2: bool, version: int)
    requires WellFormed(j)
    ensures HasSchema(j, v2, version) <==> SomeSays(Nodes(j), v2, version)
    decreases j, 1
  {
    assert SomeSays([j], v2, version) <==> SaysVersion(j, v2, version) by { assert [j][0] == j; }
    match j
    case JArray(items) =>
      assert !SaysVersion(j, v2, version);
      SchemaItemsIff(items, v2, version);
      SomeSaysConcat([j], NodesOfItems(items), v2, version);
    case JObject(fields) =>
      CheckpointIff(fields, ConversationHistoryDigest);
      CheckpointIff(fields, SessionDigest);
      VersionIsIff(fields, version);
      SchemaFieldsIff(fields, v2, version);
      SomeSaysConcat([j], NodesOfFields(fields), v2, version);
    case _ =>
  }

  lemma {:induction false} SchemaItemsIff(items: seq<Json>, v2: bool, version: int)
    requires WellFormedItems(items)
    ensures HasSchemaItems(items, v2, version) <==> SomeSays(NodesOfItems(items), v2, version)
    decreases items, 0
  {
    if items != [] {
      SchemaIff(items[0], v2, version);
      SchemaItemsIff(items[1..], v2, version);
      SomeSaysConcat(Nodes(items[0]), NodesOfItems(items[1..]), v2, version);
    }
  }

  lemma {:induction false} SchemaFieldsIff(fields: seq<Field>, v2: bool, version: int)
    requires WellFormedFields(fields)
    ensures HasSchemaFields(fields, v2, version) <==> SomeSays(NodesOfFields(fields), v2, version)
    decreases fields, 0
  {
    if fields != [] {
      ValueDecreases(fields);
      SchemaIff(fields[0].value, v2, version);
      SchemaFieldsIff(fields[1..], v2, version);
      SomeSaysConcat(Nodes(fields[0].value), NodesOfFields(fields[1..]), v2, version);
    }
  }

  // ----- what the normaliser forgets -----

  function Visible(fields: seq<Field>): seq<Field> {
    Ordering.Filter(fields, (f: Field) => !f.key.Integrity?)
  }

  lemma VisibleFirst(fields: seq<Field>)
    requires fields != []
    ensures Visible(fields) == (if fields[0].key.Integrity? then [] else [fields[0]]) + Visible(fields[1..])
  {
    assert fields == [fields[0]] + fields[1..];
    Ordering.FilterConcat([fields[0]], fields[1..], (f: Field) => !f.key.Integrity?);
  }

  /** Of an object the entries that are not integrity data are left, in order. */
  lemma {:induction false} NormalizedFields(fields: seq<Field>, isV3: bool)
    ensures
      var kept, out := Visible(fields), NormalizeFields(fields, isV3);
      && |out| == |kept|
      && forall i :: 0 <= i < |kept| ==>
           && out[i].key ==
              (if isV3 && kept[i].key == ConversationHistoryDigest then SessionDigest else kept[i].key)
           && out[i].value == if isV3 && kept[i].key == SchemaVersion then JInt(2) else Normalize(kept[i].value)
  {
    if fields == [] {
      assert Visible(fields) == [];
    } else {
      var rest, kept := NormalizeFields(fields[1..], isV3), Visible(fields[1..]);
      NormalizedFields(fields[1..], isV3);
      VisibleFirst(fields);
      if fields[0].key.Integrity? {
        assert NormalizeFields(fields, isV3) == rest && Visible(fields) == kept;
      } else {
        assert NormalizeFields(fields, isV3)[1..] == rest && Visible(fields) == [fields[0]] + kept;
      }
    }
  }

  lemma {:induction false} NormalizedItems(items: seq<Json>)
    ensures
      var out := NormalizeItems(items);
      |out| == |items| && forall i :: 0 <= i < |items| ==> out[i] == Normalize(items[i])
  {
    if items != [] { NormalizedItems(items[1..]); }
  }

  /**
    One node under the normaliser.  Only a version 3 checkpoint gets its digest key and its version back, and
    only integrity entries are dropped; nothing else is changed.
  */
  lemma NormalizedNode(j: Json)
    ensures
      match j
      case JArray(items) =>
        var out := Normalize(j);
        && out.JArray? && |out.items| == |items|
        && forall i :: 0 <= i < |items| ==> out.items[i] == Normalize(items[i])
      case JObject(fields) =>
        var out, kept, isV3 := Normalize(j), Visible(fields), Checkpoint(fields, ConversationHistoryDigest);
        && out.JObject? && |out.fields| == |kept|
        && forall i :: 0 <= i < |kept| ==>
             && out.fields[i].key ==
                (if isV3 && kept[i].key == ConversationHistoryDigest then SessionDigest else kept[i].key)
             && out.fields[i].value ==
                if isV3 && kept[i].key == SchemaVersion then JInt(2) else Normalize(kept[i].value)
      case _ => Normalize(j) == j
  {
    match j
    case JArray(items) => NormalizedItems(items);
    case JObject(fields) =>
      CheckpointIff(fields, ConversationHistoryDigest);
      NormalizedFields(fields, IsCheckpoint(fields, ConversationHistoryDigest));
    case _ =>
  }
}
