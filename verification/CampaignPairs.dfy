/**
  The two paired views of a two-variant campaign (`_paired_official_summary`,
  `_paired_sample_summary`): one counts pairs with an explicit official verdict on both sides, the
  other every pair of completed runs without an infrastructure failure.
*/
module CampaignPairs {
  import opened Wrappers
  import opened CampaignDomain
  import opened CampaignMatrix
  import opened Counting
  import CampaignMachine
  import CampaignSafety

  datatype PairKey = PairKey(caseId: string, repetition: nat)

  function KeyOf(r: Record): PairKey {
    PairKey(r.slot.caseId, r.slot.repetition)
  }

  // ----- grouping -----

  /** The keys in the order of their first record, which is the order of the dictionary `grouped`. */
  function PairKeys(records: seq<Record>): seq<PairKey> {
    if records == [] then []
    else
      var keys, key := PairKeys(records[..|records| - 1]), KeyOf(records[|records| - 1]);
      if key in keys then keys else keys + [key]
  }

  /** The record that a group keeps for a variant: a later one overwrites an earlier one. */
  function Latest(records: seq<Record>, key: PairKey, variant: string): Option<Record> {
    if records == [] then None
    else
      var last := records[|records| - 1];
      if KeyOf(last) == key && last.slot.variant == variant then Some(last)
      else Latest(records[..|records| - 1], key, variant)
  }

  function At(grouped: map<PairKey, map<string, Record>>, key: PairKey, variant: string): Option<Record> {
    if key in grouped && variant in grouped[key] then Some(grouped[key][variant]) else None
  }

  /** The grouping loop that both views start with; `keys` is the insertion order of the dictionary. */
  method GroupPairs(records: seq<Record>)
    returns (keys: seq<PairKey>, grouped: map<PairKey, map<string, Record>>)
    ensures keys == PairKeys(records)
    ensures forall key :: key in grouped <==> key in keys
    ensures forall key, variant :: At(grouped, key, variant) == Latest(records, key, variant)
  {
    keys, grouped := [], map[];
    for i := 0 to |records|
      invariant keys == PairKeys(records[..i])
      invariant forall key :: key in grouped <==> key in keys
      invariant forall key, variant :: At(grouped, key, variant) == Latest(records[..i], key, variant)
    {
      assert records[..i + 1][..i] == records[..i];
      var key := KeyOf(records[i]);
      if key !in grouped {
        keys := keys + [key];
        grouped := grouped[key := map[]];
      }
      grouped := grouped[key := grouped[key][records[i].slot.variant := records[i]]];
    }
    assert records[..|records|] == records;
  }

  lemma {:induction false} PairKeysAre(records: seq<Record>)
    ensures Distinct(PairKeys(records))
    ensures forall key :: key in PairKeys(records) <==> exists i :: 0 <= i < |records| && KeyOf(records[i]) == key
  {
    if records != [] { PairKeysAre(records[..|records| - 1]); }
  }

  // ----- the verdict on one pair -----

  datatype Verdict = Excluded | ControlWin | TreatmentWin | Tie

  function Mirror(v: Verdict): Verdict {
    match v
    case ControlWin => TreatmentWin
    case TreatmentWin => ControlWin
    case _ => v
  }

  function Winner(left: Evidence, right: Evidence): Verdict {
    var l, r := left.official == OfficialResolved, right.official == OfficialResolved;
    if l && !r then ControlWin else if r && !l then TreatmentWin else Tie
  }

  predicate Comparable(left: Option<Record>, right: Option<Record>) {
    left.Some? && right.Some? && left.value.status == Completed && right.value.status == Completed
  }

  /** The body of the loop in `_paired_official_summary`. */
  function OfficialVerdict(left: Option<Record>, right: Option<Record>): Verdict {
    if !Comparable(left, right) then Excluded
    else if !Decided(left.value.evidence.official) || !Decided(right.value.evidence.official) then Excluded
    else Winner(left.value.evidence, right.value.evidence)
  }

  predicate InfrastructurePair(left: Record, right: Record) {
    Retryable(left.evidence.failureClass) || Retryable(right.evidence.failureClass)
  }

  /** The body of the loop in `_paired_sample_summary`. */
  function SampleVerdict(left: Option<Record>, right: Option<Record>): Verdict {
    if !Comparable(left, right) then Excluded
    else if InfrastructurePair(left.value, right.value) then Excluded
    else Winner(left.value.evidence, right.value.evidence)
  }

  function OfficialAt(records: seq<Record>, control: string, treatment: string): PairKey -> Verdict {
    key => OfficialVerdict(Latest(records, key, control), Latest(records, key, treatment))
  }

  function SampleAt(records: seq<Record>, control: string, treatment: string): PairKey -> Verdict {
    key => SampleVerdict(Latest(records, key, control), Latest(records, key, treatment))
  }

  function Votes(at: PairKey -> Verdict, v: Verdict): PairKey -> bool {
    key => at(key) == v
  }

  function Included(at: PairKey -> Verdict): PairKey -> bool {
    key => at(key) != Excluded
  }

  /** The four counters of a view; the official view does not report `excluded`. */
  datatype View = View(pairs: nat, excluded: nat, controlWins: nat, treatmentWins: nat, ties: nat)

  const EMPTY_VIEW := View(0, 0, 0, 0, 0)

  ghost function Tallied(keys: seq<PairKey>, at: PairKey -> Verdict): View {
    View(Count(keys, Included(at)), Count(keys, Votes(at, Excluded)), Count(keys, Votes(at, ControlWin)),
         Count(keys, Votes(at, TreatmentWin)), Count(keys, Votes(at, Tie)))
  }

  /** One pair more, with this verdict. */
  function Bump(view: View, v: Verdict): View {
    match v
    case Excluded => view.(excluded := view.excluded + 1)
    case ControlWin => view.(pairs := view.pairs + 1, controlWins := view.controlWins + 1)
    case TreatmentWin => view.(pairs := view.pairs + 1, treatmentWins := view.treatmentWins + 1)
    case Tie => view.(pairs := view.pairs + 1, ties := view.ties + 1)
  }

  function WithoutExcluded(view: View): View {
    view.(excluded := 0)
  }

  /** The official view passes over pairs without a verdict. */
  function BumpDecided(view: View, v: Verdict): View {
    if v == Excluded then view else Bump(view, v)
  }

  lemma TalliedStep(keys: seq<PairKey>, key: PairKey, at: PairKey -> Verdict)
    ensures Tallied(keys + [key], at) == Bump(Tallied(keys, at), at(key))
  {
    CountAppend(keys, key, Included(at));
    CountAppend(keys, key, Votes(at, Excluded));
    CountAppend(keys, key, Votes(at, ControlWin));
    CountAppend(keys, key, Votes(at, TreatmentWin));
    CountAppend(keys, key, Votes(at, Tie));
  }

  lemma TalliedNext(keys: seq<PairKey>, i: nat, at: PairKey -> Verdict)
    requires i < |keys|
    ensures Tallied(keys[..i + 1], at) == Bump(Tallied(keys[..i], at), at(keys[i]))
    ensures WithoutExcluded(Tallied(keys[..i + 1], at)) ==
            BumpDecided(WithoutExcluded(Tallied(keys[..i], at)), at(keys[i]))
  {
    assert keys[..i + 1] == keys[..i] + [keys[i]];
    TalliedStep(keys[..i], keys[i], at);
  }

  lemma TalliedNone(keys: seq<PairKey>, at: PairKey -> Verdict)
    ensures Tallied(keys[..0], at) == EMPTY_VIEW && Tallied(keys[..|keys|], at) == Tallied(keys, at)
  {
    assert keys[..|keys|] == keys;
  }

  ghost function OfficialView(records: seq<Record>, control: string, treatment: string): View {
    Tallied(PairKeys(records), OfficialAt(records, control, treatment))
  }

  ghost function SampleView(records: seq<Record>, control: string, treatment: string): View {
    Tallied(PairKeys(records), SampleAt(records, control, treatment))
  }

  /** The loop body of `_paired_official_summary`. */
  method CompareOfficial(view: View, left: Option<Record>, right: Option<Record>) returns (after: View)
    ensures after == BumpDecided(view, OfficialVerdict(left, right))
  {
    if left.None? || right.None? || left.value.status != Completed || right.value.status != Completed { return view; }
    var leftStatus, rightStatus := left.value.evidence.official, right.value.evidence.official;
    if !Decided(leftStatus) || !Decided(rightStatus) { return view; }
    after := view.(pairs := view.pairs + 1);
    var leftResolved, rightResolved := leftStatus == OfficialResolved, rightStatus == OfficialResolved;
    if leftResolved && !rightResolved {
      after := after.(controlWins := after.controlWins + 1);
    } else if rightResolved && !leftResolved {
      after := after.(treatmentWins := after.treatmentWins + 1);
    } else {
      after := after.(ties := after.ties + 1);
    }
  }

  /** `_paired_official_summary`. */
  method PairedOfficialSummary(variantNames: seq<string>, records: seq<Record>) returns (view: View)
    ensures |variantNames| != 2 ==> view == EMPTY_VIEW
    ensures |variantNames| == 2 ==>
      view == WithoutExcluded(OfficialView(records, variantNames[0], variantNames[1]))
  {
    if |variantNames| != 2 { return EMPTY_VIEW; }
    var control, treatment := variantNames[0], variantNames[1];
    var keys, grouped := GroupPairs(records);
    ghost var at := OfficialAt(records, control, treatment);
    view := EMPTY_VIEW;
    TalliedNone(keys, at);
    for i := 0 to |keys|
      invariant view == WithoutExcluded(Tallied(keys[..i], at))
    {
      TalliedNext(keys, i, at);
      var left, right := At(grouped, keys[i], control), At(grouped, keys[i], treatment);
      assert at(keys[i]) == OfficialVerdict(left, right);
      view := CompareOfficial(view, left, right);
    }
  }

  /** The loop body of `_paired_sample_summary`. */
  method CompareSample(view: View, left: Option<Record>, right: Option<Record>) returns (after: View)
    ensures after == Bump(view, SampleVerdict(left, right))
  {
    if left.None? || right.None? || left.value.status != Completed || right.value.status != Completed {
      return view.(excluded := view.excluded + 1);
    }
    var failureClasses := {left.value.evidence.failureClass, right.value.evidence.failureClass};
    if exists f :: f in failureClasses && Retryable(f) { return view.(excluded := view.excluded + 1); }
    after := view.(pairs := view.pairs + 1);
    var leftResolved := left.value.evidence.official == OfficialResolved;
    var rightResolved := right.value.evidence.official == OfficialResolved;
    if leftResolved && !rightResolved {
      after := after.(controlWins := after.controlWins + 1);
    } else if rightResolved && !leftResolved {
      after := after.(treatmentWins := after.treatmentWins + 1);
    } else {
      after := after.(ties := after.ties + 1);
    }
  }

  /** `_paired_sample_summary`. */
  method PairedSampleSummary(variantNames: seq<string>, records: seq<Record>) returns (view: View)
    ensures |variantNames| != 2 ==> view == EMPTY_VIEW
    ensures |variantNames| == 2 ==> view == SampleView(records, variantNames[0], variantNames[1])
  {
    if |variantNames| != 2 { return EMPTY_VIEW; }
    var control, treatment := variantNames[0], variantNames[1];
    var keys, grouped := GroupPairs(records);
    ghost var at := SampleAt(records, control, treatment);
    view := EMPTY_VIEW;
    TalliedNone(keys, at);
    for i := 0 to |keys|
      invariant view == Tallied(keys[..i], at)
    {
      TalliedNext(keys, i, at);
      var left, right := At(grouped, keys[i], control), At(grouped, keys[i], treatment);
      assert at(keys[i]) == SampleVerdict(left, right);
      view := CompareSample(view, left, right);
    }
  }

  // ----- conservation -----

  /** In either view wins and ties make up the pairs, and pairs and excluded make up the groups. */
  lemma {:induction false} ViewAddsUp(keys: seq<PairKey>, at: PairKey -> Verdict)
    ensures
      var view := Tallied(keys, at);
      && view.controlWins + view.treatmentWins + view.ties == view.pairs
      && view.pairs + view.excluded == |keys|
  {
    if keys != [] {
      ViewAddsUp(keys[..|keys| - 1], at);
      assert keys == keys[..|keys| - 1] + [keys[|keys| - 1]];
      TalliedStep(keys[..|keys| - 1], keys[|keys| - 1], at);
    }
  }

  ghost predicate MirrorOf(a: View, b: View) {
    a == View(b.pairs, b.excluded, b.treatmentWins, b.controlWins, b.ties)
  }

  lemma TalliedMirror(keys: seq<PairKey>, at: PairKey -> Verdict, swapped: PairKey -> Verdict)
    requires forall i :: 0 <= i < |keys| ==> swapped(keys[i]) == Mirror(at(keys[i]))
    ensures MirrorOf(Tallied(keys, swapped), Tallied(keys, at))
  {
    CountSame(keys, Included(swapped), Included(at));
    CountSame(keys, Votes(swapped, Excluded), Votes(at, Excluded));
    CountSame(keys, Votes(swapped, ControlWin), Votes(at, TreatmentWin));
    CountSame(keys, Votes(swapped, TreatmentWin), Votes(at, ControlWin));
    CountSame(keys, Votes(swapped, Tie), Votes(at, Tie));
  }

  /** Exchanging control and treatment exchanges the wins and changes nothing else. */
  lemma SwapMirrors(records: seq<Record>, control: string, treatment: string)
    ensures MirrorOf(OfficialView(records, treatment, control), OfficialView(records, control, treatment))
    ensures MirrorOf(SampleView(records, treatment, control), SampleView(records, control, treatment))
  {
    var keys := PairKeys(records);
    TalliedMirror(keys, OfficialAt(records, control, treatment), OfficialAt(records, treatment, control));
    TalliedMirror(keys, SampleAt(records, control, treatment), SampleAt(records, treatment, control));
  }

  /**
    A pair with official verdicts on both sides is adjudicated by the sample view, with the same
    winner, exactly when neither side is an infrastructure failure; otherwise it is excluded there.
  */
  lemma OfficialPairAdjudicated(left: Option<Record>, right: Option<Record>)
    requires OfficialVerdict(left, right) != Excluded
    ensures SampleVerdict(left, right) ==
            if InfrastructurePair(left.value, right.value) then Excluded else OfficialVerdict(left, right)
    ensures SampleVerdict(left, right) == OfficialVerdict(left, right) <==> !InfrastructurePair(left.value, right.value)
  {
  }

  /** A pair with official verdicts on both sides and an infrastructure failure on one. */
  function Marred(records: seq<Record>, control: string, treatment: string): PairKey -> bool {
    key =>
      var left, right := Latest(records, key, control), Latest(records, key, treatment);
      OfficialVerdict(left, right) != Excluded && InfrastructurePair(left.value, right.value)
  }

  /** The official verdict on the pairs without an infrastructure failure. */
  function UnmarredAt(records: seq<Record>, control: string, treatment: string): PairKey -> Verdict {
    key => if Marred(records, control, treatment)(key) then Excluded else OfficialAt(records, control, treatment)(key)
  }

  /**
    Between the two views: the official pairs are the unmarred ones and the marred ones, and every
    count of the unmarred ones is at most its sample counterpart.
  */
  lemma OfficialWithinSample(records: seq<Record>, control: string, treatment: string)
    ensures
      var keys := PairKeys(records);
      var official, sample := OfficialView(records, control, treatment), SampleView(records, control, treatment);
      var unmarred := Tallied(keys, UnmarredAt(records, control, treatment));
      && official.pairs == unmarred.pairs + Count(keys, Marred(records, control, treatment))
      && unmarred.pairs <= sample.pairs && unmarred.ties <= sample.ties
      && unmarred.controlWins <= sample.controlWins && unmarred.treatmentWins <= sample.treatmentWins
  {
    var keys, o, s := PairKeys(records), OfficialAt(records, control, treatment), SampleAt(records, control, treatment);
    var u, marred := UnmarredAt(records, control, treatment), Marred(records, control, treatment);
    forall i | 0 <= i < |keys| && u(keys[i]) != Excluded ensures s(keys[i]) == u(keys[i]) {
      OfficialPairAdjudicated(Latest(records, keys[i], control), Latest(records, keys[i], treatment));
    }
    CountSplit(keys, Included(u), marred, Included(o));
    CountAtMost(keys, Included(u), Included(s));
    CountAtMost(keys, Votes(u, ControlWin), Votes(s, ControlWin));
    CountAtMost(keys, Votes(u, TreatmentWin), Votes(s, TreatmentWin));
    CountAtMost(keys, Votes(u, Tie), Votes(s, Tie));
  }

  lemma {:induction false} LatestIsListed(records: seq<Record>, key: PairKey, variant: string)
    ensures
      var r := Latest(records, key, variant);
      r.Some? ==>
        exists i :: 0 <= i < |records| && records[i] == r.value && KeyOf(r.value) == key &&
                    r.value.slot.variant == variant
    ensures
      Latest(records, key, variant).None? ==>
      forall i :: 0 <= i < |records| ==> !(KeyOf(records[i]) == key && records[i].slot.variant == variant)
  {
    if records != [] { LatestIsListed(records[..|records| - 1], key, variant); }
  }

  // ----- on a planned matrix -----

  /** The keys of the first `rounds` repetitions. */
  function Grid(caseIds: seq<string>, rounds: nat): (g: seq<PairKey>)
    ensures forall key :: key in g <==> key.caseId in caseIds && 1 <= key.repetition <= rounds
  {
    if rounds == 0 then []
    else
      var row := seq(|caseIds|, i requires 0 <= i < |caseIds| => PairKey(caseIds[i], rounds));
      GridRow(caseIds, rounds, row);
      Grid(caseIds, rounds - 1) + row
  }

  lemma GridRow(caseIds: seq<string>, rounds: nat, row: seq<PairKey>)
    requires |row| == |caseIds| && forall i :: 0 <= i < |row| ==> row[i] == PairKey(caseIds[i], rounds)
    ensures forall key :: key in row <==> key.caseId in caseIds && key.repetition == rounds
  {
    forall key: PairKey | key.caseId in caseIds && key.repetition == rounds ensures key in row {
      var i :| 0 <= i < |caseIds| && caseIds[i] == key.caseId;
      assert row[i] == key;
    }
  }

  lemma {:induction false} GridIsDistinct(caseIds: seq<string>, rounds: nat)
    requires Distinct(caseIds)
    ensures Distinct(Grid(caseIds, rounds)) && |Grid(caseIds, rounds)| == Times(rounds, |caseIds|)
  {
    if rounds > 0 {
      GridIsDistinct(caseIds, rounds - 1);
      var g, above := Grid(caseIds, rounds), Grid(caseIds, rounds - 1);
      forall i, j | 0 <= i < j < |g| ensures g[i] != g[j] {
        if j >= |above| {
          assert g[j] == PairKey(caseIds[j - |above|], rounds);
          if i >= |above| {
            assert g[i] == PairKey(caseIds[i - |above|], rounds);
          } else {
            assert g[i] == above[i] && above[i] in above;
          }
        } else {
          assert g[i] == above[i] && g[j] == above[j];
        }
      }
    }
  }

  lemma KeyInGrid(c: Config, records: seq<Record>, i: nat)
    requires OnMatrix(c, records) && i < |records|
    ensures KeyOf(records[i]) in Grid(c.caseIds, c.repetitions)
  {
    var planned := PlannedRecords(c);
    NothingElse(c, planned);
    assert planned[i].slot == records[i].slot;
  }

  lemma GridKeyHeld(c: Config, records: seq<Record>, key: PairKey) returns (at: nat)
    requires OnMatrix(c, records) && Distinct(c.caseIds) && Distinct(c.variants) && c.variants != []
    requires key in Grid(c.caseIds, c.repetitions)
    ensures at < |records| && KeyOf(records[at]) == key
  {
    var planned := PlannedRecords(c);
    var j :| 0 <= j < |c.caseIds| && c.caseIds[j] == key.caseId;
    var cell := Cell(j, key.repetition, 0);
    ExactlyOnce(c, planned, cell);
    at := IndexOf(|c.caseIds|, |c.variants|, cell);
    assert planned[at].slot == records[at].slot;
  }

  lemma MatrixKeys(c: Config, records: seq<Record>, key: PairKey)
    requires OnMatrix(c, records) && Distinct(c.caseIds) && Distinct(c.variants) && c.variants != []
    ensures key in PairKeys(records) <==> key in Grid(c.caseIds, c.repetitions)
  {
    PairKeysAre(records);
    if key in PairKeys(records) {
      var i :| 0 <= i < |records| && KeyOf(records[i]) == key;
      KeyInGrid(c, records, i);
    } else if key in Grid(c.caseIds, c.repetitions) {
      var at := GridKeyHeld(c, records, key);
    }
  }

  /** On a matrix there is one pair for each case and repetition. */
  lemma PairsOnMatrix(c: Config, records: seq<Record>)
    requires OnMatrix(c, records) && Distinct(c.caseIds) && Distinct(c.variants) && c.variants != []
    ensures |PairKeys(records)| == c.repetitions * |c.caseIds|
  {
    forall key ensures key in PairKeys(records) <==> key in Grid(c.caseIds, c.repetitions) {
      MatrixKeys(c, records, key);
    }
    PairKeysAre(records);
    GridIsDistinct(c.caseIds, c.repetitions);
    SameElements(PairKeys(records), Grid(c.caseIds, c.repetitions));
    TimesIsProduct(c.repetitions, |c.caseIds|);
  }

  /** Adjudicated and excluded pairs of a two-variant matrix make up cases × repetitions. */
  lemma SampleCoversMatrix(c: Config, records: seq<Record>)
    requires OnMatrix(c, records) && ValidConfig(c) && |c.variants| == 2
    ensures
      var view := SampleView(records, c.variants[0], c.variants[1]);
      view.pairs + view.excluded == c.repetitions * |c.caseIds|
  {
    PairsOnMatrix(c, records);
    ViewAddsUp(PairKeys(records), SampleAt(records, c.variants[0], c.variants[1]));
  }

  /** No record of a matrix overwrites another in its group: a pair compares the two planned slots. */
  lemma PairIsPlanned(c: Config, records: seq<Record>, cell: Cell)
    requires OnMatrix(c, records) && Distinct(c.caseIds) && Distinct(c.variants)
    requires InMatrix(c.repetitions, |c.caseIds|, |c.variants|, cell)
    ensures
      var at := IndexOf(|c.caseIds|, |c.variants|, cell);
      && at < |records|
      && Latest(records, PairKey(c.caseIds[cell.caseIndex], cell.repetition), c.variants[cell.variantIndex]) ==
         Some(records[at])
  {
    var planned, at := PlannedRecords(c), IndexOf(|c.caseIds|, |c.variants|, cell);
    ExactlyOnce(c, planned, cell);
    var key, variant := PairKey(c.caseIds[cell.caseIndex], cell.repetition), c.variants[cell.variantIndex];
    LatestIsListed(records, key, variant);
    assert records[at].slot == planned[at].slot;
    assert KeyOf(records[at]) == key && records[at].slot.variant == variant;
    var i :| 0 <= i < |records| && records[i] == Latest(records, key, variant).value;
    assert records[i].slot == planned[i].slot;
  }

  /** Over every history the sample view of a two-variant campaign accounts for its whole planned matrix. */
  lemma HistorySampleCovers(labels: seq<CampaignMachine.Label>)
    requires var w := CampaignMachine.Exec(CampaignMachine.INITIAL, labels);
      w.disk.Some? && |w.disk.value.config.variants| == 2
    ensures
      var saved := CampaignMachine.Exec(CampaignMachine.INITIAL, labels).disk.value;
      var view := SampleView(saved.records, saved.config.variants[0], saved.config.variants[1]);
      view.pairs + view.excluded == saved.config.repetitions * |saved.config.caseIds|
  {
    CampaignSafety.ExecKeeps(CampaignMachine.INITIAL, labels);
    CampaignSafety.FixedDenominator(labels);
    var saved := CampaignMachine.Exec(CampaignMachine.INITIAL, labels).disk.value;
    SampleCoversMatrix(saved.config, saved.records);
  }
}
