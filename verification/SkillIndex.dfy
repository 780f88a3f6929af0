/**
  The skill registry: registration histories, version resolution, discovery and activation
  (agent_forge/skills/registry.py).
*/
module SkillIndex {
  import opened Wrappers
  import opened Counting
  import opened Ordering
  import opened SkillVersions

  type Catalogue = map<string, seq<SkillSpec>>

  // ----- registration histories -----

  function VersionsOf(c: Catalogue, name: string): seq<SkillSpec> {
    if name in c then c[name] else []
  }

  function Latest(c: Catalogue, name: string): Option<SkillSpec> {
    var versions := VersionsOf(c, name);
    if versions == [] then None else Some(versions[|versions| - 1])
  }

  function Put(c: Catalogue, spec: SkillSpec): Catalogue {
    c[spec.name := RegisterIn(VersionsOf(c, spec.name), spec)]
  }

  function Built(history: seq<SkillSpec>): Catalogue {
    if history == [] then map[] else Put(Built(history[..|history| - 1]), history[|history| - 1])
  }

  /** What a history registered last under a name and a version. */
  function LastRegistered(history: seq<SkillSpec>, name: string, version: string): Option<SkillSpec> {
    if history == [] then None
    else
      var last := history[|history| - 1];
      if last.name == name && last.version == version then Some(last)
      else LastRegistered(history[..|history| - 1], name, version)
  }

  ghost predicate ValidCatalogue(c: Catalogue) {
    forall name :: name in c ==> ValidVersions(c[name], name) && c[name] != []
  }

  /** After any registrations every list is sorted with unique versions and not empty. */
  lemma {:induction false} BuiltIsValid(history: seq<SkillSpec>)
    ensures ValidCatalogue(Built(history))
  {
    if history != [] {
      var before, spec := Built(history[..|history| - 1]), history[|history| - 1];
      BuiltIsValid(history[..|history| - 1]);
      PutKeeps(before, spec);
    }
  }

  lemma PutKeeps(c: Catalogue, spec: SkillSpec)
    requires ValidCatalogue(c)
    ensures ValidCatalogue(Put(c, spec))
  {
    RegisterKeeps(VersionsOf(c, spec.name), spec);
  }

  /** The catalogue holds exactly the last registration of each name and version. */
  lemma {:induction false} BuiltHolds(history: seq<SkillSpec>, name: string, x: SkillSpec)
    ensures x in VersionsOf(Built(history), name) <==> LastRegistered(history, name, x.version) == Some(x)
  {
    if history != [] {
      var rest, spec := history[..|history| - 1], history[|history| - 1];
      BuiltHolds(rest, name, x);
      RegisterElements(VersionsOf(Built(rest), spec.name), spec);
      LastRegisteredIs(rest, name, x.version);
    }
  }

  lemma {:induction false} LastRegisteredIs(history: seq<SkillSpec>, name: string, version: string)
    ensures
      var last := LastRegistered(history, name, version);
      && (last.Some? ==> last.value in history && last.value.name == name && last.value.version == version)
      && (last.None? ==> forall x :: x in history ==> !(x.name == name && x.version == version))
  {
    if history != [] {
      LastRegisteredIs(history[..|history| - 1], name, version);
      assert history == history[..|history| - 1] + [history[|history| - 1]];
    }
  }

  lemma HeldVersion(history: seq<SkillSpec>, x: SkillSpec) returns (kept: SkillSpec)
    requires x in history
    ensures kept in VersionsOf(Built(history), x.name) && kept.version == x.version
  {
    LastRegisteredIs(history, x.name, x.version);
    kept := LastRegistered(history, x.name, x.version).value;
    BuiltHolds(history, x.name, kept);
  }

  /** `resolve(name)` is a maximum of every version ever registered under the name. */
  lemma LatestIsMaximum(history: seq<SkillSpec>, x: SkillSpec)
    requires x in history
    ensures
      var latest := Latest(Built(history), x.name);
      latest.Some? && !VersionLess(latest.value, x)
  {
    BuiltIsValid(history);
    var kept := HeldVersion(history, x);
    LastOutranks(VersionsOf(Built(history), x.name), x.name, kept, x);
  }

  ghost predicate SameRegistrations(a: seq<SkillSpec>, b: seq<SkillSpec>) {
    forall name, version :: LastRegistered(a, name, version) == LastRegistered(b, name, version)
  }

  lemma SameList(a: seq<SkillSpec>, b: seq<SkillSpec>, name: string)
    requires SameRegistrations(a, b) && DistinctKeys(a)
    ensures VersionsOf(Built(a), name) == VersionsOf(Built(b), name)
  {
    var x, y := VersionsOf(Built(a), name), VersionsOf(Built(b), name);
    BuiltIsValid(a);
    BuiltIsValid(b);
    forall spec ensures spec in x <==> spec in y {
      BuiltHolds(a, name, spec);
      BuiltHolds(b, name, spec);
    }
    forall spec | spec in x ensures spec in a {
      BuiltHolds(a, name, spec);
      LastRegisteredIs(a, name, spec.version);
    }
    ElementsDetermine(x, y, name);
  }

  lemma BuiltKey(a: seq<SkillSpec>, b: seq<SkillSpec>, name: string)
    requires SameRegistrations(a, b) && name in Built(a)
    ensures name in Built(b)
  {
    BuiltIsValid(a);
    var spec := Built(a)[name][0];
    assert spec in VersionsOf(Built(a), name);
    BuiltHolds(a, name, spec);
    BuiltHolds(b, name, spec);
  }

  /**
    When different versions of a name have different keys, the catalogue depends only on what was last
    registered under each name and version, not on the order of the registrations.
  */
  lemma OrderFree(a: seq<SkillSpec>, b: seq<SkillSpec>)
    requires SameRegistrations(a, b) && DistinctKeys(a)
    ensures Built(a) == Built(b)
  {
    forall name ensures name in Built(a) <==> name in Built(b) {
      if name in Built(a) { BuiltKey(a, b, name); }
      if name in Built(b) { BuiltKey(b, a, name); }
    }
    forall name | name in Built(a) ensures Built(a)[name] == Built(b)[name] { SameList(a, b, name); }
  }

  /** Registering `x` puts it behind every other version with an equal key. */
  lemma RegisterBehind(versions: seq<SkillSpec>, x: SkillSpec, y: SkillSpec) returns (i: nat, j: nat)
    requires y in versions && y.version != x.version && VersionKey(y.version) == VersionKey(x.version)
    ensures i < j < |RegisterIn(versions, x)| && RegisterIn(versions, x)[i] == y && RegisterIn(versions, x)[j] == x
  {
    KeysAreTotal();
    var kept := Filter(versions, OtherThan(x.version));
    FilterIn(versions, OtherThan(x.version));
    StableSortElements(kept, VersionLess);
    assert y in multiset(StableSort(kept, VersionLess));
    assert (kept + [x])[..|kept|] == kept;
    i, j := InsertBehind(StableSort(kept, VersionLess), x, VersionLess, y);
  }

  /** Registering again what a history holds changes no last registration. */
  lemma RegisteredAgain(history: seq<SkillSpec>, x: SkillSpec)
    requires LastRegistered(history, x.name, x.version) == Some(x)
    ensures SameRegistrations(history, history + [x])
  {
    assert (history + [x])[..|history|] == history;
  }

  lemma BuiltAppend(history: seq<SkillSpec>, x: SkillSpec)
    ensures VersionsOf(Built(history + [x]), x.name) == RegisterIn(VersionsOf(Built(history), x.name), x)
  {
    assert (history + [x])[..|history|] == history;
  }

  /** A list cannot have each of two specs before the other. */
  lemma OneOrder(versions: seq<SkillSpec>, i: nat, j: nat, k: nat, l: nat)
    requires UniqueVersions(versions) && i < j < |versions| && k < l < |versions|
    ensures !(versions[i] == versions[l] && versions[j] == versions[k])
  {
    if i < l { NoRepeats(versions, i, l); } else if l < i { NoRepeats(versions, l, i); }
    if k < j { NoRepeats(versions, k, j); } else if j < k { NoRepeats(versions, j, k); }
  }

  /** Two versions with equal keys: registering one of them again changes the catalogue. */
  lemma TiesDecide(history: seq<SkillSpec>, x: SkillSpec, y: SkillSpec)
    requires LastRegistered(history, x.name, x.version) == Some(x)
    requires LastRegistered(history, y.name, y.version) == Some(y)
    requires x.name == y.name && x.version != y.version && VersionKey(x.version) == VersionKey(y.version)
    ensures Built(history + [x]) != Built(history) || Built(history + [y]) != Built(history)
  {
    if Built(history + [x]) == Built(history) && Built(history + [y]) == Built(history) {
      var versions := VersionsOf(Built(history), x.name);
      BuiltIsValid(history);
      BuiltHolds(history, x.name, x);
      BuiltHolds(history, x.name, y);
      BuiltAppend(history, x);
      BuiltAppend(history, y);
      var i, j := RegisterBehind(versions, x, y);
      var k, l := RegisterBehind(versions, y, x);
      OneOrder(versions, i, j, k, l);
    }
  }

  /** A history with the same last registrations and another catalogue. */
  lemma TiedHistory(history: seq<SkillSpec>, a: SkillSpec, b: SkillSpec) returns (other: seq<SkillSpec>)
    requires a in history && b in history && a.name == b.name && a.version != b.version
    requires VersionKey(a.version) == VersionKey(b.version)
    ensures SameRegistrations(history, other) && Built(other) != Built(history)
  {
    LastRegisteredIs(history, a.name, a.version);
    LastRegisteredIs(history, b.name, b.version);
    var x, y := LastRegistered(history, a.name, a.version).value, LastRegistered(history, b.name, b.version).value;
    RegisteredAgain(history, x);
    RegisteredAgain(history, y);
    TiesDecide(history, x, y);
    other := if Built(history + [x]) != Built(history) then history + [x] else history + [y];
  }

  /** Nothing but the last registration under each name and version matters to the catalogue. */
  ghost predicate OrderDoesNotMatter(history: seq<SkillSpec>) {
    forall other :: SameRegistrations(history, other) ==> Built(other) == Built(history)
  }

  /**
    The catalogue is determined by what was last registered under each name and version exactly when
    different versions of a name have different keys; otherwise the order of registration decides.
  */
  lemma OrderFreeIff(history: seq<SkillSpec>)
    ensures OrderDoesNotMatter(history) <==> DistinctKeys(history)
  {
    if DistinctKeys(history) {
      forall other | SameRegistrations(history, other) ensures Built(other) == Built(history) {
        OrderFree(history, other);
      }
    } else {
      var a, b :| a in history && b in history && a.name == b.name &&
                  VersionKey(a.version) == VersionKey(b.version) && a.version != b.version;
      var other := TiedHistory(history, a, b);
    }
  }

  /** The versions 1.0 and 1-0 have equal keys, so the order in which they are registered shows. */
  lemma EqualKeysWitness(name: string)
    ensures
      var x, y := SkillSpec(name, "1.0", [], false, ""), SkillSpec(name, "1-0", [], false, "");
      VersionKey(x.version) == VersionKey(y.version) && Built([x, y]) != Built([y, x])
  {
    var x, y := SkillSpec(name, "1.0", [], false, ""), SkillSpec(name, "1-0", [], false, "");
    SameTokens("1", '.', '-', "0");
    assert "1.0" == "1" + ['.'] + "0" && "1-0" == "1" + ['-'] + "0";
    assert x.version[1] != y.version[1];
    CommuteIff(x, y);
  }

  /** Which separator stands in a version makes no difference to its tokens. */
  lemma {:induction false} SameTokens(before: string, c: char, d: char, after: string)
    requires Separator(c) && Separator(d)
    ensures Tokens(before + [c] + after) == Tokens(before + [d] + after)
  {
    var x, y := before + [c] + after, before + [d] + after;
    if before == [] {
      assert x[1..] == after && y[1..] == after;
    } else {
      SameTokens(before[1..], c, d, after);
      assert x[1..] == before[1..] + [c] + after && y[1..] == before[1..] + [d] + after;
    }
  }

  lemma RegisterTwice(x: SkillSpec, y: SkillSpec)
    ensures RegisterIn([], x) == [x]
    ensures RegisterIn([x], y) == PairOf(x, y)
  {
    assert [x][..0] == [] && Filter([x], OtherThan(y.version)) == if x.version != y.version then [x] else [];
    assert [] + [x] == [x] && [] + [y] == [y];
    SortPair(x, y, VersionLess);
    SortPair(y, x, VersionLess);
  }

  /** The list that two registrations of one name leave. */
  function PairOf(x: SkillSpec, y: SkillSpec): seq<SkillSpec> {
    if x.version == y.version then [y] else if VersionLess(y, x) then [y, x] else [x, y]
  }

  /** The catalogue that two registrations leave. */
  function PairCatalogue(x: SkillSpec, y: SkillSpec): Catalogue {
    map[x.name := [x]][y.name := if x.name == y.name then PairOf(x, y) else [y]]
  }

  lemma PutOn(c: Catalogue, spec: SkillSpec, versions: seq<SkillSpec>, after: seq<SkillSpec>)
    requires VersionsOf(c, spec.name) == versions && RegisterIn(versions, spec) == after
    ensures Put(c, spec) == c[spec.name := after]
  {
  }

  lemma PutFirst(x: SkillSpec)
    ensures Put(map[], x) == map[x.name := [x]]
  {
    RegisterTwice(x, x);
    PutOn(map[], x, [], [x]);
  }

  lemma PutSecond(x: SkillSpec, y: SkillSpec)
    ensures Put(map[x.name := [x]], y) == PairCatalogue(x, y)
  {
    if x.name == y.name {
      RegisterTwice(x, y);
      PutOn(map[x.name := [x]], y, [x], PairOf(x, y));
    } else {
      RegisterTwice(y, x);
      PutOn(map[x.name := [x]], y, [], [y]);
    }
  }

  lemma BuiltPair(x: SkillSpec, y: SkillSpec)
    ensures Built([x, y]) == PairCatalogue(x, y)
  {
    assert [x, y][..1] == [x];
    assert Built([x]) == Put(Built([]), x) by { assert [x][..0] == []; }
    assert Built([x, y]) == Put(Put(map[], x), y);
    PutFirst(x);
    PutSecond(x, y);
  }

  lemma PairsEqualIff(x: SkillSpec, y: SkillSpec)
    ensures PairOf(x, y) == PairOf(y, x) <==> x == y || VersionKey(x.version) != VersionKey(y.version)
  {
    KeysAreTotal();
    if PairOf(x, y) == PairOf(y, x) { assert PairOf(x, y)[0] == PairOf(y, x)[0]; }
  }

  lemma PairCataloguesEqualIff(x: SkillSpec, y: SkillSpec)
    ensures PairCatalogue(x, y) == PairCatalogue(y, x) <==>
            x == y || x.name != y.name || VersionKey(x.version) != VersionKey(y.version)
  {
    PairsEqualIff(x, y);
    if x.name == y.name {
      assert PairCatalogue(x, y)[x.name] == PairOf(x, y) && PairCatalogue(y, x)[x.name] == PairOf(y, x);
    }
  }

  /** Two registrations commute exactly when they are of different names, the same spec, or differ in key. */
  lemma CommuteIff(x: SkillSpec, y: SkillSpec)
    ensures Built([x, y]) == Built([y, x]) <==>
            x == y || x.name != y.name || VersionKey(x.version) != VersionKey(y.version)
  {
    calc <==> {
      Built([x, y]) == Built([y, x]);
      { BuiltPair(x, y); BuiltPair(y, x); }
      PairCatalogue(x, y) == PairCatalogue(y, x);
      { PairCataloguesEqualIff(x, y); }
      x == y || x.name != y.name || VersionKey(x.version) != VersionKey(y.version);
    }
  }

  // ----- the registry object -----

  datatype Unknown = UnknownSkill(name: string) | UnknownVersion(name: string, version: string)

  datatype Reason = ExplicitInvocation | TaskMetadata(score: nat) | BoundedFallback

  /** What discovery lists: metadata, without the body. */
  datatype Entry = Entry(name: string, version: string, reason: Reason)

  function EntryOf(spec: SkillSpec, reason: Reason): Entry {
    Entry(spec.name, spec.version, reason)
  }

  /** Python's `items[:limit]`. */
  function Slice<T>(items: seq<T>, limit: int): seq<T> {
    if limit >= |items| then items
    else if limit >= 0 then items[..limit]
    else if |items| + limit >= 0 then items[..|items| + limit]
    else []
  }

  /** Four points for every activation term that occurs in the request text. */
  function Score(spec: SkillSpec, occurs: string -> bool): nat {
    4 * Count(spec.activationTerms, occurs)
  }

  datatype Scored = Scored(score: nat, spec: SkillSpec)

  /** The sort key (-score, name). */
  predicate RankLess(a: Scored, b: Scored) {
    a.score > b.score || (a.score == b.score && TextLess(a.spec.name, b.spec.name))
  }

  ghost predicate Candidate(c: Catalogue, readOnly: bool, occurs: string -> bool, s: Scored) {
    && Latest(c, s.spec.name) == Some(s.spec)
    && !(readOnly && s.spec.writes)
    && s.score == Score(s.spec, occurs) && s.score > 0
  }

  /** All candidates, each once, best first. */
  ghost predicate Ranking(c: Catalogue, readOnly: bool, occurs: string -> bool, ranking: seq<Scored>) {
    && (forall s :: s in ranking <==> Candidate(c, readOnly, occurs, s))
    && (forall i, j :: 0 <= i < j < |ranking| ==>
          RankLess(ranking[i], ranking[j]) && ranking[i].spec.name != ranking[j].spec.name)
  }

  lemma RankIsOrdered()
    ensures WeakOrder(RankLess)
  {
    TextIsTotal();
  }

  /** The ranking is determined by the catalogue, so the selection does not depend on the order of the scan. */
  lemma RankingUnique(c: Catalogue, readOnly: bool, occurs: string -> bool, a: seq<Scored>, b: seq<Scored>)
    requires Ranking(c, readOnly, occurs, a) && Ranking(c, readOnly, occurs, b)
    ensures a == b
  {
    RankIsOrdered();
    AscendingUnique(a, b, RankLess);
  }

  function FallbackNames(readOnly: bool): seq<string> {
    if readOnly then ["repo_orientation"] else ["targeted_code_edit", "repo_orientation"]
  }

  /** The latest versions of those names that are known. */
  function Known(c: Catalogue, names: seq<string>, reason: Reason): seq<Entry> {
    if names == [] then []
    else
      var rest, latest := Known(c, names[..|names| - 1], reason), Latest(c, names[|names| - 1]);
      if latest.Some? then rest + [EntryOf(latest.value, reason)] else rest
  }

  ghost predicate AllKnown(c: Catalogue, names: seq<string>) {
    forall i :: 0 <= i < |names| ==> Latest(c, names[i]).Some?
  }

  /** The error names the first name that is not known. */
  ghost predicate FirstUnknown(c: Catalogue, names: seq<string>, error: Unknown) {
    exists i: nat ::
      i < |names| && Latest(c, names[i]).None? && AllKnown(c, names[..i]) && error == UnknownSkill(names[i])
  }

  lemma AllKnownStep(c: Catalogue, names: seq<string>, i: nat)
    requires i < |names| && AllKnown(c, names[..i])
    ensures AllKnown(c, names[..i + 1]) <==> Latest(c, names[i]).Some?
    ensures Latest(c, names[i]).None? ==> !AllKnown(c, names)
  {
    assert names[..i + 1] == names[..i] + [names[i]];
  }

  lemma KnownStep(c: Catalogue, names: seq<string>, i: nat, reason: Reason)
    requires i < |names|
    ensures
      var latest := Latest(c, names[i]);
      Known(c, names[..i + 1], reason) ==
        Known(c, names[..i], reason) + if latest.Some? then [EntryOf(latest.value, reason)] else []
  {
    assert names[..i + 1][..i] == names[..i];
  }

  function EntriesOf(ranking: seq<Scored>): seq<Entry> {
    if ranking == [] then []
    else
      var last := ranking[|ranking| - 1];
      EntriesOf(ranking[..|ranking| - 1]) + [EntryOf(last.spec, TaskMetadata(last.score))]
  }

  predicate IsLatest(c: Catalogue, entry: Entry) {
    Latest(c, entry.name).Some? && Latest(c, entry.name).value.version == entry.version
  }

  /** The specs are those that the entries list. */
  ghost predicate Activates(c: Catalogue, entries: seq<Entry>, specs: seq<SkillSpec>) {
    |specs| == |entries| && forall i :: 0 <= i < |entries| ==> Latest(c, entries[i].name) == Some(specs[i])
  }

  ghost predicate AllLatest(c: Catalogue, entries: seq<Entry>) {
    forall i :: 0 <= i < |entries| ==> IsLatest(c, entries[i])
  }

  lemma {:induction false} KnownAreLatest(c: Catalogue, names: seq<string>, reason: Reason)
    requires ValidCatalogue(c)
    ensures AllLatest(c, Known(c, names, reason))
  {
    if names != [] { KnownAreLatest(c, names[..|names| - 1], reason); }
  }

  lemma {:induction false} RankedAreLatest(c: Catalogue, readOnly: bool, occurs: string -> bool, ranking: seq<Scored>)
    requires forall s :: s in ranking ==> Candidate(c, readOnly, occurs, s)
    ensures AllLatest(c, EntriesOf(ranking))
  {
    if ranking != [] {
      assert ranking[|ranking| - 1] in ranking;
      RankedAreLatest(c, readOnly, occurs, ranking[..|ranking| - 1]);
    }
  }

  // ----- listing and scoring -----

  /** `sorted(self._skills)`. */
  method SortedNames(c: Catalogue) returns (names: seq<string>)
    ensures forall name :: name in names <==> name in c
    ensures Distinct(names) && Sorted(names, TextLess)
  {
    var rest, unsorted: seq<string> := c.Keys, [];
    while rest != {}
      invariant rest <= c.Keys
      invariant forall name :: multiset(unsorted)[name] == if name in c.Keys - rest then 1 else 0
    {
      var name :| name in rest;
      unsorted, rest := unsorted + [name], rest - {name};
    }
    TextIsTotal();
    StableSortSorts(unsorted, TextLess);
    names := StableSort(unsorted, TextLess);
    OnceIsDistinct(names);
    forall name ensures name in names <==> name in c { assert name in names <==> name in multiset(names); }
  }

  /** By name, and by version within a name. */
  predicate CatalogueLess(x: SkillSpec, y: SkillSpec) {
    TextLess(x.name, y.name) || (x.name == y.name && VersionLess(x, y))
  }

  lemma NextName(c: Catalogue, names: seq<string>, i: nat, specs: seq<SkillSpec>)
    requires ValidCatalogue(c) && Distinct(names) && Sorted(names, TextLess) && i < |names| && names[i] in c
    requires Sorted(specs, CatalogueLess) && forall x :: x in specs ==> x.name in names[..i]
    ensures Sorted(specs + c[names[i]], CatalogueLess)
    ensures forall x :: x in specs + c[names[i]] ==> x.name in names[..i + 1]
  {
    TextIsTotal();
    var next := c[names[i]];
    forall j, k | 0 <= j < |specs| && 0 <= k < |next| ensures !CatalogueLess(next[k], specs[j]) {
      assert specs[j] in specs && next[k] in next;
      var l :| 0 <= l < i && names[l] == specs[j].name;
    }
    forall j, k | 0 <= j < k < |next| ensures !CatalogueLess(next[k], next[j]) {
      assert next[j] in next && next[k] in next;
    }
  }

  /** The specs of the first names, each as often as its list holds it. */
  ghost predicate Lists(c: Catalogue, names: seq<string>, specs: seq<SkillSpec>) {
    forall x :: multiset(specs)[x] == if x.name in names then multiset(VersionsOf(c, x.name))[x] else 0
  }

  lemma ListsNext(c: Catalogue, names: seq<string>, i: nat, specs: seq<SkillSpec>)
    requires ValidCatalogue(c) && Distinct(names) && i < |names| && names[i] in c && Lists(c, names[..i], specs)
    ensures Lists(c, names[..i + 1], specs + c[names[i]])
  {
    var next := c[names[i]];
    assert names[..i + 1] == names[..i] + [names[i]];
    forall x
      ensures multiset(specs + next)[x] == if x.name in names[..i + 1] then multiset(VersionsOf(c, x.name))[x] else 0
    {
      assert multiset(specs + next)[x] == multiset(specs)[x] + multiset(next)[x];
      assert x.name != names[i] ==> x !in next;
    }
  }

  /** `list_specs`: the lists of all names, one after the other. */
  method ListSpecs(c: Catalogue) returns (specs: seq<SkillSpec>)
    requires ValidCatalogue(c)
    ensures forall x :: multiset(specs)[x] == multiset(VersionsOf(c, x.name))[x]
    ensures forall i, j :: 0 <= i < j < |specs| ==>
      TextLess(specs[i].name, specs[j].name) ||
      (specs[i].name == specs[j].name && !VersionLess(specs[j], specs[i]))
  {
    var names := SortedNames(c);
    specs := [];
    for i := 0 to |names|
      invariant Lists(c, names[..i], specs)
      invariant Sorted(specs, CatalogueLess) && forall x :: x in specs ==> x.name in names[..i]
    {
      NextName(c, names, i, specs);
      ListsNext(c, names, i, specs);
      specs := specs + c[names[i]];
    }
    assert names[..|names|] == names;
    assert Lists(c, names, specs);
    ListedInOrder(specs);
  }

  lemma ListedInOrder(specs: seq<SkillSpec>)
    requires Sorted(specs, CatalogueLess)
    ensures forall i, j :: 0 <= i < j < |specs| ==>
      TextLess(specs[i].name, specs[j].name) ||
      (specs[i].name == specs[j].name && !VersionLess(specs[j], specs[i]))
  {
    TextIsTotal();
    forall i, j | 0 <= i < j < |specs|
      ensures TextLess(specs[i].name, specs[j].name) ||
              (specs[i].name == specs[j].name && !VersionLess(specs[j], specs[i]))
    {
      assert !CatalogueLess(specs[j], specs[i]);
    }
  }

  /** Of one name's versions only the latest passes the comparison with `resolve(name)`. */
  lemma LatestPasses(c: Catalogue, spec: SkillSpec)
    requires ValidCatalogue(c) && spec in VersionsOf(c, spec.name)
    ensures
      var latest := Latest(c, spec.name);
      latest.Some? && (latest.value.version == spec.version <==> latest == Some(spec))
  {
    var versions := c[spec.name];
    assert versions[|versions| - 1] in versions;
  }

  /** The scoring loop of `discover_for_task`. */
  method ScoreSpecs(c: Catalogue, specs: seq<SkillSpec>, readOnly: bool, occurs: string -> bool)
    returns (scored: seq<Scored>)
    requires ValidCatalogue(c) && forall x :: x in specs ==> x in VersionsOf(c, x.name)
    ensures forall s :: multiset(scored)[s] == if Candidate(c, readOnly, occurs, s) then multiset(specs)[s.spec] else 0
  {
    scored := [];
    for i := 0 to |specs|
      invariant forall s ::
        multiset(scored)[s] == if Candidate(c, readOnly, occurs, s) then multiset(specs[..i])[s.spec] else 0
    {
      assert specs[..i + 1] == specs[..i] + [specs[i]];
      LatestPasses(c, specs[i]);
      if Latest(c, specs[i].name).value.version != specs[i].version { continue; }
      if readOnly && specs[i].writes { continue; }
      var score := Score(specs[i], occurs);
      if score > 0 { scored := scored + [Scored(score, specs[i])]; }
    }
    assert specs[..|specs|] == specs;
  }

  ghost predicate EachCandidateOnce(c: Catalogue, readOnly: bool, occurs: string -> bool, scored: seq<Scored>) {
    forall s :: multiset(scored)[s] == if Candidate(c, readOnly, occurs, s) then 1 else 0
  }

  /** Every spec is listed once, so every candidate was scored once. */
  lemma ScoredOnce(c: Catalogue, specs: seq<SkillSpec>, readOnly: bool, occurs: string -> bool, scored: seq<Scored>)
    requires ValidCatalogue(c)
    requires forall x :: multiset(specs)[x] == multiset(VersionsOf(c, x.name))[x]
    requires forall s :: multiset(scored)[s] == if Candidate(c, readOnly, occurs, s) then multiset(specs)[s.spec] else 0
    ensures EachCandidateOnce(c, readOnly, occurs, scored)
  {
    forall s | Candidate(c, readOnly, occurs, s) ensures multiset(scored)[s] == 1 {
      var versions := c[s.spec.name];
      assert versions[|versions| - 1] in versions;
      assert ValidVersions(versions, s.spec.name);
      assert s.spec in multiset(versions);
    }
  }

  lemma OnceIsRanking(c: Catalogue, readOnly: bool, occurs: string -> bool, ranking: seq<Scored>)
    requires EachCandidateOnce(c, readOnly, occurs, ranking) && Sorted(ranking, RankLess)
    ensures Ranking(c, readOnly, occurs, ranking)
  {
    OnceIsDistinct(ranking);
    TextIsTotal();
    forall s ensures s in ranking <==> Candidate(c, readOnly, occurs, s) {
      assert s in ranking <==> multiset(ranking)[s] > 0;
    }
    forall i, j | 0 <= i < j < |ranking|
      ensures RankLess(ranking[i], ranking[j]) && ranking[i].spec.name != ranking[j].spec.name
    {
      assert ranking[i] in ranking && ranking[j] in ranking;
      assert Candidate(c, readOnly, occurs, ranking[i]) && Candidate(c, readOnly, occurs, ranking[j]);
    }
  }

  /** Sorting the scored specs gives the ranking of all candidates. */
  lemma SortedIsRanking(c: Catalogue, readOnly: bool, occurs: string -> bool, scored: seq<Scored>)
    requires EachCandidateOnce(c, readOnly, occurs, scored)
    ensures Ranking(c, readOnly, occurs, StableSort(scored, RankLess))
  {
    RankIsOrdered();
    StableSortSorts(scored, RankLess);
    OnceIsRanking(c, readOnly, occurs, StableSort(scored, RankLess));
  }

  class SkillRegistry {
    var skills: Catalogue
    ghost var history: seq<SkillSpec>

    ghost predicate Valid()
      reads this
    {
      skills == Built(history)
    }

    constructor ()
      ensures Valid() && history == []
    {
      skills, history := map[], [];
    }

    /** `register`. */
    method Register(spec: SkillSpec)
      requires Valid()
      modifies this
      ensures Valid() && history == old(history) + [spec] && skills == Put(old(skills), spec)
    {
      var versions := Filter(VersionsOf(skills, spec.name), OtherThan(spec.version));
      versions := versions + [spec];
      skills := skills[spec.name := StableSort(versions, VersionLess)];
      history := history + [spec];
      assert history[..|history| - 1] == old(history);
    }

    /** `resolve`: the given version, or the latest. */
    method Resolve(name: string, version: Option<string>) returns (r: Result<SkillSpec, Unknown>)
      requires Valid()
      ensures version.None? ==>
        match Latest(skills, name)
        case Some(spec) => r == Success(spec)
        case None => r == Failure(UnknownSkill(name))
      ensures version.Some? ==>
        match LastRegistered(history, name, version.value)
        case Some(spec) => r == Success(spec)
        case None =>
          r == Failure(if Latest(skills, name).None? then UnknownSkill(name) else UnknownVersion(name, version.value))
    {
      var versions := VersionsOf(skills, name);
      if versions == [] {
        if version.Some? { Unregistered(history, name, version.value); }
        return Failure(UnknownSkill(name));
      }
      if version.None? { return Success(versions[|versions| - 1]); }
      var found := FindVersion(versions, version.value);
      if found.Some? {
        BuiltHolds(history, name, found.value);
        return Success(found.value);
      }
      Unregistered(history, name, version.value);
      r := Failure(UnknownVersion(name, version.value));
    }

    /** The explicit names; the first unknown one raises. */
    method ExplicitEntries(names: seq<string>) returns (r: Result<seq<Entry>, Unknown>)
      requires Valid()
      ensures r.Success? <==> AllKnown(skills, names)
      ensures r.Success? ==> r.value == Known(skills, names, ExplicitInvocation)
      ensures r.Failure? ==> FirstUnknown(skills, names, r.error)
    {
      var entries := [];
      for i := 0 to |names|
        invariant entries == Known(skills, names[..i], ExplicitInvocation)
        invariant AllKnown(skills, names[..i])
      {
        KnownStep(skills, names, i, ExplicitInvocation);
        AllKnownStep(skills, names, i);
        var spec := Resolve(names[i], None);
        if spec.Failure? { return Failure(spec.error); }
        entries := entries + [EntryOf(spec.value, ExplicitInvocation)];
      }
      assert names[..|names|] == names;
      r := Success(entries);
    }

    /** The loop over the fallback names, which passes over unknown ones. */
    method FallbackEntries(names: seq<string>) returns (entries: seq<Entry>)
      requires Valid()
      ensures entries == Known(skills, names, BoundedFallback)
    {
      entries := [];
      for i := 0 to |names|
        invariant entries == Known(skills, names[..i], BoundedFallback)
      {
        KnownStep(skills, names, i, BoundedFallback);
        var spec := Resolve(names[i], None);
        if spec.Success? { entries := entries + [EntryOf(spec.value, BoundedFallback)]; }
      }
      assert names[..|names|] == names;
    }

    /** The automatic part of `discover_for_task`: every candidate once, best first. */
    method RankSkills(readOnly: bool, occurs: string -> bool) returns (ranking: seq<Scored>)
      requires Valid()
      ensures Ranking(skills, readOnly, occurs, ranking)
    {
      BuiltIsValid(history);
      var specs := ListSpecs(skills);
      forall x | x in specs ensures x in VersionsOf(skills, x.name) { assert multiset(specs)[x] > 0; }
      var scored := ScoreSpecs(skills, specs, readOnly, occurs);
      ScoredOnce(skills, specs, readOnly, occurs, scored);
      SortedIsRanking(skills, readOnly, occurs, scored);
      ranking := StableSort(scored, RankLess);
    }

    /**
      `discover_for_task`.  `readOnly` and `occurs` are what the text rules say about a request: whether
      it asks for read-only work, and which activation terms occur in it.
    */
    method DiscoverForTask(names: seq<string>, limit: int, readOnly: bool, occurs: string -> bool)
      returns (r: Result<seq<Entry>, Unknown>, ghost ranking: seq<Scored>)
      requires Valid()
      ensures names != [] ==>
        (r.Success? <==> AllKnown(skills, names)) &&
        (r.Success? ==> r.value == Known(skills, names, ExplicitInvocation)) &&
        (r.Failure? ==> FirstUnknown(skills, names, r.error))
      ensures names == [] ==>
        Ranking(skills, readOnly, occurs, ranking) &&
        r == Success(if ranking != [] then EntriesOf(Slice(ranking, limit))
                     else Slice(Known(skills, FallbackNames(readOnly), BoundedFallback), limit))
      ensures r.Success? ==> AllLatest(skills, r.value)
    {
      ranking := [];
      BuiltIsValid(history);
      if names != [] {
        r := ExplicitEntries(names);
        KnownAreLatest(skills, names, ExplicitInvocation);
        return;
      }
      var ranked := RankSkills(readOnly, occurs);
      ranking := ranked;
      if ranked != [] {
        RankedAreLatest(skills, readOnly, occurs, Slice(ranked, limit));
        return Success(EntriesOf(Slice(ranked, limit))), ranking;
      }
      var fallback := FallbackEntries(FallbackNames(readOnly));
      KnownAreLatest(skills, FallbackNames(readOnly), BoundedFallback);
      r := Success(Slice(fallback, limit));
    }

    /** `activate` on an entry that discovery returned: the version resolves, to the discovered spec. */
    method Activate(entry: Entry) returns (spec: SkillSpec)
      requires Valid() && IsLatest(skills, entry)
      ensures Latest(skills, entry.name) == Some(spec)
    {
      var latest := Latest(skills, entry.name).value;
      BuiltHolds(history, entry.name, latest);
      var r := Resolve(entry.name, Some(entry.version));
      spec := r.value;
    }

    /** `select_for_task`: every entry that discovery lists is activated as the very spec that was listed. */
    method SelectForTask(names: seq<string>, limit: int, readOnly: bool, occurs: string -> bool)
      returns (r: Result<seq<SkillSpec>, Unknown>)
      requires Valid()
      ensures names != [] ==>
        (r.Success? <==> AllKnown(skills, names)) &&
        (r.Success? ==> Activates(skills, Known(skills, names, ExplicitInvocation), r.value)) &&
        (r.Failure? ==> FirstUnknown(skills, names, r.error))
      ensures names == [] ==>
        r.Success? && exists ranking ::
          Ranking(skills, readOnly, occurs, ranking) &&
          Activates(skills,
                    if ranking != [] then EntriesOf(Slice(ranking, limit))
                    else Slice(Known(skills, FallbackNames(readOnly), BoundedFallback), limit),
                    r.value)
    {
      var discovered;
      ghost var ranking;
      discovered, ranking := DiscoverForTask(names, limit, readOnly, occurs);
      if discovered.Failure? { return Failure(discovered.error); }
      var selected := ActivateAll(discovered.value);
      r := Success(selected);
    }

    method ActivateAll(entries: seq<Entry>) returns (selected: seq<SkillSpec>)
      requires Valid() && AllLatest(skills, entries)
      ensures Activates(skills, entries, selected)
    {
      selected := [];
      for i := 0 to |entries|
        invariant |selected| == i
        invariant forall j :: 0 <= j < i ==> Latest(skills, entries[j].name) == Some(selected[j])
      {
        assert IsLatest(skills, entries[i]);
        var spec := Activate(entries[i]);
        selected := selected + [spec];
      }
    }
  }

  method FindVersion(versions: seq<SkillSpec>, version: string) returns (found: Option<SkillSpec>)
    ensures found.Some? ==> found.value in versions && found.value.version == version
    ensures found.None? ==> forall i :: 0 <= i < |versions| ==> versions[i].version != version
  {
    for i := 0 to |versions|
      invariant forall j :: 0 <= j < i ==> versions[j].version != version
    {
      if versions[i].version == version { return Some(versions[i]); }
    }
    found := None;
  }

  /** A version that is not in the list was never registered. */
  lemma Unregistered(history: seq<SkillSpec>, name: string, version: string)
    requires
      var versions := VersionsOf(Built(history), name);
      forall i :: 0 <= i < |versions| ==> versions[i].version != version
    ensures LastRegistered(history, name, version) == None
  {
    LastRegisteredIs(history, name, version);
    var last := LastRegistered(history, name, version);
    if last.Some? { BuiltHolds(history, name, last.value); }
  }
}
