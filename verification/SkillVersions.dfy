/**
  The version order of the skill index (`_version_key`) and what registration does to one name's list
  of versions (agent_forge/skills/registry.py).
*/
module SkillVersions {
  import opened Counting
  import opened Ordering

  // ----- version keys -----

  predicate Separator(c: char) {
    c == '.' || c == '-' || c == '+' || c == '_'
  }

  /** Splitting at every separator; empty tokens are kept. */
  function Tokens(version: string): (tokens: seq<string>)
    ensures tokens != []
  {
    if version == [] then [""]
    else
      var rest := Tokens(version[1..]);
      if Separator(version[0]) then [""] + rest else [[version[0]] + rest[0]] + rest[1..]
  }

  predicate IsDigit(c: char) {
    '0' <= c <= '9'
  }

  predicate IsNumber(token: string) {
    token != [] && forall i :: 0 <= i < |token| ==> IsDigit(token[i])
  }

  function Decimal(token: string): nat
    requires forall i :: 0 <= i < |token| ==> IsDigit(token[i])
  {
    if token == [] then 0
    else
      var last := token[|token| - 1];
      assert IsDigit(last);
      10 * Decimal(token[..|token| - 1]) + (last as int - '0' as int)
  }

  datatype Part = Number(n: nat) | Word(s: string)

  function PartOf(token: string): Part {
    if IsNumber(token) then Number(Decimal(token)) else Word(token)
  }

  function Parts(tokens: seq<string>): seq<Part> {
    if tokens == [] then [] else Parts(tokens[..|tokens| - 1]) + [PartOf(tokens[|tokens| - 1])]
  }

  function VersionKey(version: string): seq<Part> {
    Parts(Tokens(version))
  }

  /** The loop of `_version_key`. */
  method BuildVersionKey(version: string) returns (parts: seq<Part>)
    ensures parts == VersionKey(version)
  {
    var tokens := Tokens(version);
    parts := [];
    for i := 0 to |tokens|
      invariant parts == Parts(tokens[..i])
    {
      assert tokens[..i + 1][..i] == tokens[..i];
      if IsNumber(tokens[i]) {
        parts := parts + [Number(Decimal(tokens[i]))];
      } else {
        parts := parts + [Word(tokens[i])];
      }
    }
    assert tokens[..|tokens|] == tokens;
  }

  predicate CharLess(a: char, b: char) { a < b }

  predicate TextLess(a: string, b: string) { LexLess(a, b, CharLess) }

  /** Tuple comparison of (0, number) and (1, text). */
  predicate PartLess(a: Part, b: Part) {
    match (a, b)
    case (Number(n), Number(m)) => n < m
    case (Number(_), Word(_)) => true
    case (Word(_), Number(_)) => false
    case (Word(s), Word(t)) => TextLess(s, t)
  }

  predicate KeyLess(a: seq<Part>, b: seq<Part>) { LexLess(a, b, PartLess) }

  lemma TextIsTotal()
    ensures StrictTotal(TextLess)
  {
    assert StrictTotal(CharLess);
    LexIsStrictTotal(CharLess);
    assert forall a, b :: TextLess(a, b) == Lex(CharLess)(a, b);
  }

  /** Any two version keys compare, and equal only if they are the same. */
  lemma KeysAreTotal()
    ensures StrictTotal(KeyLess)
  {
    TextIsTotal();
    assert StrictTotal(PartLess);
    LexIsStrictTotal(PartLess);
    assert forall a, b :: KeyLess(a, b) == Lex(PartLess)(a, b);
  }

  // ----- one name's versions -----

  /** `body` stands for everything that selection does not look at. */
  datatype SkillSpec = SkillSpec(
    name: string,
    version: string,
    activationTerms: seq<string>,
    writes: bool,
    body: string)

  predicate VersionLess(x: SkillSpec, y: SkillSpec) {
    KeyLess(VersionKey(x.version), VersionKey(y.version))
  }

  lemma VersionsAreOrdered()
    ensures WeakOrder(VersionLess)
  {
    KeysAreTotal();
  }

  function OtherThan(version: string): SkillSpec -> bool {
    (item: SkillSpec) => item.version != version
  }

  /** `register` on the list of one name. */
  function RegisterIn(versions: seq<SkillSpec>, spec: SkillSpec): seq<SkillSpec> {
    StableSort(Filter(versions, OtherThan(spec.version)) + [spec], VersionLess)
  }

  ghost predicate UniqueVersions(versions: seq<SkillSpec>) {
    && (forall x, y :: x in versions && y in versions && x.version == y.version ==> x == y)
    && (forall x :: multiset(versions)[x] <= 1)
  }

  ghost predicate ValidVersions(versions: seq<SkillSpec>, name: string) {
    && (forall x :: x in versions ==> x.name == name)
    && Sorted(versions, VersionLess) && UniqueVersions(versions)
  }

  lemma RegisterElements(versions: seq<SkillSpec>, spec: SkillSpec)
    ensures multiset(RegisterIn(versions, spec)) == multiset(Filter(versions, OtherThan(spec.version))) + multiset{spec}
    ensures forall x :: x in RegisterIn(versions, spec) <==> x == spec || (x in versions && x.version != spec.version)
    ensures Sorted(RegisterIn(versions, spec), VersionLess)
  {
    VersionsAreOrdered();
    var kept := Filter(versions, OtherThan(spec.version));
    StableSortSorts(kept + [spec], VersionLess);
    FilterElements(versions, OtherThan(spec.version));
    forall x ensures x in RegisterIn(versions, spec) <==> x == spec || (x in versions && x.version != spec.version) {
      assert x in RegisterIn(versions, spec) <==> x in multiset(RegisterIn(versions, spec));
      assert x in versions <==> x in multiset(versions);
      assert x in multiset(kept) <==> multiset(kept)[x] > 0;
    }
  }

  /** Registration keeps the list sorted and its versions unique. */
  lemma RegisterKeeps(versions: seq<SkillSpec>, spec: SkillSpec)
    requires ValidVersions(versions, spec.name)
    ensures ValidVersions(RegisterIn(versions, spec), spec.name) && RegisterIn(versions, spec) != []
  {
    RegisterElements(versions, spec);
    FilterElements(versions, OtherThan(spec.version));
    assert spec in RegisterIn(versions, spec);
  }

  /** The last spec of a list is its maximum; among equal keys it is the one registered last. */
  lemma LastIsMaximum(versions: seq<SkillSpec>, name: string, x: SkillSpec)
    requires ValidVersions(versions, name) && x in versions
    ensures !VersionLess(versions[|versions| - 1], x)
  {
    KeysAreTotal();
    var i :| 0 <= i < |versions| && versions[i] == x;
  }

  /** It outranks every spec of a version that the list holds. */
  lemma LastOutranks(versions: seq<SkillSpec>, name: string, kept: SkillSpec, x: SkillSpec)
    requires ValidVersions(versions, name) && kept in versions && kept.version == x.version
    ensures !VersionLess(versions[|versions| - 1], x)
  {
    LastIsMaximum(versions, name, kept);
    assert VersionKey(kept.version) == VersionKey(x.version);
  }

  /** A list in which different versions have different keys is determined by its elements. */
  lemma ElementsDetermine(a: seq<SkillSpec>, b: seq<SkillSpec>, name: string)
    requires ValidVersions(a, name) && ValidVersions(b, name)
    requires forall x :: x in a <==> x in b
    requires DistinctKeys(a)
    ensures a == b
  {
    KeysAreTotal();
    Ascending(a, name);
    assert DistinctKeys(b);
    Ascending(b, name);
    AscendingUnique(a, b, VersionLess);
  }

  ghost predicate DistinctKeys(specs: seq<SkillSpec>) {
    forall x, y :: x in specs && y in specs && x.name == y.name && VersionKey(x.version) == VersionKey(y.version) ==>
      x.version == y.version
  }

  lemma Ascending(a: seq<SkillSpec>, name: string)
    requires ValidVersions(a, name) && DistinctKeys(a)
    ensures forall i, j :: 0 <= i < j < |a| ==> VersionLess(a[i], a[j])
  {
    KeysAreTotal();
    forall i, j | 0 <= i < j < |a| ensures VersionLess(a[i], a[j]) {
      NoRepeats(a, i, j);
      assert a[i] in a && a[j] in a;
    }
  }

  lemma NoRepeats(a: seq<SkillSpec>, i: nat, j: nat)
    requires UniqueVersions(a) && i < j < |a|
    ensures a[i] != a[j] && a[i].version != a[j].version
  {
    if a[j] == a[i] { TwoPlaces(a, i, j); }
    assert a[i] in a && a[j] in a;
  }
}
