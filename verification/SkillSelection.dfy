/** What discovery lists, told from the specs, the request and the limit alone. */
module SkillSelection {
  import opened Wrappers
  import opened Ordering
  import opened SkillVersions
  import opened SkillIndex
  import opened SkillOrder
  import Counting

  /** Four points for every activation term that occurs in the request. */
  function Points(spec: SkillSpec, occurs: string -> bool): nat {
    4 * |set i: nat | i < |spec.activationTerms| && occurs(spec.activationTerms[i])|
  }

  lemma ScoreIsPoints(spec: SkillSpec, occurs: string -> bool)
    ensures Score(spec, occurs) == Points(spec, occurs)
  {
    Counting.CountIsSize(spec.activationTerms, occurs);
    assert Counting.Places(spec.activationTerms, occurs) ==
           set i: nat | i < |spec.activationTerms| && occurs(spec.activationTerms[i]);
  }

  /** How many of `n` items `items[:limit]` keeps. */
  function Limited(n: nat, limit: int): nat {
    if limit >= n then n else if limit >= 0 then limit else if n + limit >= 0 then n + limit else 0
  }

  /** The first items, in order: at most `limit`, or all but the last ones for a negative limit. */
  lemma SliceIs<T>(items: seq<T>, limit: int)
    ensures |Slice(items, limit)| == Limited(|items|, limit)
    ensures forall i :: 0 <= i < |Slice(items, limit)| ==> Slice(items, limit)[i] == items[i]
  {
  }

  lemma {:induction false} EntriesAre(ranking: seq<Scored>)
    ensures |EntriesOf(ranking)| == |ranking|
    ensures forall i :: 0 <= i < |ranking| ==>
      EntriesOf(ranking)[i] ==
      Entry(ranking[i].spec.name, ranking[i].spec.version, TaskMetadata(ranking[i].score))
  {
    if ranking != [] { EntriesAre(ranking[..|ranking| - 1]); }
  }

  /** The latest version of its name, allowed for the request, with at least one term that occurs. */
  ghost predicate Eligible(c: Catalogue, readOnly: bool, occurs: string -> bool, spec: SkillSpec) {
    Latest(c, spec.name) == Some(spec) && !(readOnly && spec.writes) && Points(spec, occurs) > 0
  }

  /** More points first, and among equal points the name that comes first as a text. */
  ghost predicate Better(a: SkillSpec, b: SkillSpec, occurs: string -> bool) {
    Points(a, occurs) > Points(b, occurs) ||
    (Points(a, occurs) == Points(b, occurs) && TextBefore(a.name, b.name))
  }

  /** The entries of these specs, with their points as the reason. */
  ghost predicate Lists(entries: seq<Entry>, specs: seq<SkillSpec>, occurs: string -> bool) {
    |entries| == |specs| &&
    forall i :: 0 <= i < |specs| ==>
      entries[i] == Entry(specs[i].name, specs[i].version, TaskMetadata(Points(specs[i], occurs)))
  }

  lemma RankedIsBetter(a: Scored, b: Scored, occurs: string -> bool)
    requires a.score == Points(a.spec, occurs) && b.score == Points(b.spec, occurs)
    ensures RankLess(a, b) <==> Better(a.spec, b.spec, occurs)
  {
    TextLessIff(a.spec.name, b.spec.name);
  }

  lemma CandidateIff(c: Catalogue, readOnly: bool, occurs: string -> bool, spec: SkillSpec)
    ensures Eligible(c, readOnly, occurs, spec) <==>
            Candidate(c, readOnly, occurs, Scored(Points(spec, occurs), spec))
  {
    ScoreIsPoints(spec, occurs);
  }

  /**
    The automatic choice.  The specs of the entries are eligible and stand best first; the list is cut off by
    the limit, and every eligible spec that is not listed comes after all that are.
  */
  lemma SelectionTells(c: Catalogue, readOnly: bool, occurs: string -> bool, ranking: seq<Scored>, limit: int)
    returns (specs: seq<SkillSpec>)
    requires Ranking(c, readOnly, occurs, ranking)
    ensures Lists(EntriesOf(Slice(ranking, limit)), specs, occurs)
    ensures |specs| == Limited(|ranking|, limit)
    ensures forall i :: 0 <= i < |specs| ==> Eligible(c, readOnly, occurs, specs[i])
    ensures forall i, j :: 0 <= i < j < |specs| ==> Better(specs[i], specs[j], occurs)
    ensures forall spec :: Eligible(c, readOnly, occurs, spec) && spec !in specs ==>
      forall i :: 0 <= i < |specs| ==> Better(specs[i], spec, occurs)
  {
    SliceIs(ranking, limit);
    var chosen := Slice(ranking, limit);
    EntriesAre(chosen);
    specs := seq(|chosen|, i requires 0 <= i < |chosen| => chosen[i].spec);
    forall i | 0 <= i < |ranking|
      ensures Eligible(c, readOnly, occurs, ranking[i].spec) && ranking[i].score == Points(ranking[i].spec, occurs)
    {
      assert ranking[i] in ranking;
      ScoreIsPoints(ranking[i].spec, occurs);
    }
    forall i, j | 0 <= i < j < |ranking| ensures Better(ranking[i].spec, ranking[j].spec, occurs) {
      RankedIsBetter(ranking[i], ranking[j], occurs);
    }
    forall m | 0 <= m < |specs| ensures ranking[m].spec in specs { assert specs[m] == ranking[m].spec; }
    forall spec, i | Eligible(c, readOnly, occurs, spec) && spec !in specs && 0 <= i < |specs|
      ensures Better(specs[i], spec, occurs)
    {
      var j := RankOf(c, readOnly, occurs, ranking, spec);
    }
  }

  lemma RankOf(c: Catalogue, readOnly: bool, occurs: string -> bool, ranking: seq<Scored>, spec: SkillSpec)
    returns (j: nat)
    requires Ranking(c, readOnly, occurs, ranking) && Eligible(c, readOnly, occurs, spec)
    ensures j < |ranking| && ranking[j].spec == spec
  {
    CandidateIff(c, readOnly, occurs, spec);
    assert Scored(Points(spec, occurs), spec) in ranking;
    j :| 0 <= j < |ranking| && ranking[j] == Scored(Points(spec, occurs), spec);
  }

  /** There is something to list exactly when some spec is eligible. */
  lemma RankingIsEmptyIff(c: Catalogue, readOnly: bool, occurs: string -> bool, ranking: seq<Scored>)
    requires Ranking(c, readOnly, occurs, ranking)
    ensures ranking == [] <==> forall spec :: !Eligible(c, readOnly, occurs, spec)
  {
    if ranking != [] {
      assert ranking[0] in ranking;
      ScoreIsPoints(ranking[0].spec, occurs);
      assert Eligible(c, readOnly, occurs, ranking[0].spec);
    }
    if spec :| Eligible(c, readOnly, occurs, spec) {
      var j := RankOf(c, readOnly, occurs, ranking, spec);
    }
  }

  /** The entry of a name's latest version, if the name is known. */
  function EntryFor(c: Catalogue, name: string, reason: Reason): seq<Entry> {
    match Latest(c, name)
    case Some(spec) => [Entry(spec.name, spec.version, reason)]
    case None => []
  }

  /** Without an eligible spec: orientation only for a read-only request, otherwise the targeted edit before it. */
  lemma FallbackTells(c: Catalogue, readOnly: bool)
    ensures Known(c, FallbackNames(readOnly), BoundedFallback) ==
            (if readOnly then [] else EntryFor(c, "targeted_code_edit", BoundedFallback)) +
            EntryFor(c, "repo_orientation", BoundedFallback)
  {
    var names := FallbackNames(readOnly);
    KnownStep(c, names, 0, BoundedFallback);
    if !readOnly { KnownStep(c, names, 1, BoundedFallback); }
    assert names[..|names|] == names && names[..0] == [];
  }

  /** The explicit names, all known: one entry each, in the given order, for the latest version. */
  lemma {:induction false} ExplicitTells(c: Catalogue, names: seq<string>)
    requires AllKnown(c, names)
    ensures |Known(c, names, ExplicitInvocation)| == |names|
    ensures forall i :: 0 <= i < |names| ==>
      var spec := Latest(c, names[i]).value;
      Known(c, names, ExplicitInvocation)[i] == Entry(spec.name, spec.version, ExplicitInvocation)
  {
    if names != [] {
      var n := |names| - 1;
      assert forall i :: 0 <= i < n ==> names[..n][i] == names[i];
      ExplicitTells(c, names[..n]);
    }
  }
}
