/**
  Who wins a pair: the counters of the two paired views as numbers of pairs, told from the fields of the
  records alone, for any record list and place by place for a planned matrix.
*/
module CampaignWins {
  import opened Wrappers
  import opened CampaignDomain
  import opened CampaignMatrix
  import opened CampaignPairs
  import opened Counting

  predicate IsFor(r: Record, key: PairKey, variant: string) {
    r.slot.caseId == key.caseId && r.slot.repetition == key.repetition && r.slot.variant == variant
  }

  /** Record `i` is the last one for this case, repetition and variant. */
  ghost predicate Stands(records: seq<Record>, key: PairKey, variant: string, i: nat) {
    i < |records| && IsFor(records[i], key, variant) &&
    forall j :: i < j < |records| ==> !IsFor(records[j], key, variant)
  }

  lemma {:induction false} LatestStands(records: seq<Record>, key: PairKey, variant: string)
    ensures Latest(records, key, variant).None? ==> forall i: nat :: !Stands(records, key, variant, i)
    ensures forall i: nat :: Stands(records, key, variant, i) ==> Latest(records, key, variant) == Some(records[i])
    ensures Latest(records, key, variant).Some? ==> exists i: nat :: Stands(records, key, variant, i)
  {
    if records != [] {
      var n := |records| - 1;
      var rest := records[..n];
      LatestStands(rest, key, variant);
      if IsFor(records[n], key, variant) {
        assert Stands(records, key, variant, n);
      } else {
        forall i: nat ensures Stands(records, key, variant, i) <==> Stands(rest, key, variant, i) {
          if Stands(rest, key, variant, i) {
            assert forall j :: i < j < n ==> rest[j] == records[j];
          }
          if Stands(records, key, variant, i) {
            assert i < n;
            assert forall j :: i < j < n ==> rest[j] == records[j];
          }
        }
      }
    }
  }

  /** Both sides completed, with official verdicts from these two sets. */
  predicate OfficialSides(left: Record, right: Record, l: set<OfficialStatus>, r: set<OfficialStatus>) {
    && left.status == Completed && right.status == Completed
    && left.evidence.official in l && right.evidence.official in r
  }

  predicate Spoiled(r: Record) {
    r.evidence.failureClass in {ProviderTransportError, OfficialEvaluationError, RunnerOrEnvironmentError}
  }

  /** Both sides completed without an infrastructure failure, resolved or not as given. */
  predicate SampleSides(left: Record, right: Record, l: bool, r: bool) {
    && left.status == Completed && right.status == Completed && !Spoiled(left) && !Spoiled(right)
    && (left.evidence.official == OfficialResolved <==> l) && (right.evidence.official == OfficialResolved <==> r)
  }

  ghost predicate OfficialPair(records: seq<Record>, key: PairKey, control: string, treatment: string,
                               l: set<OfficialStatus>, r: set<OfficialStatus>) {
    exists i: nat, j: nat :: Stands(records, key, control, i) && Stands(records, key, treatment, j) &&
                   OfficialSides(records[i], records[j], l, r)
  }

  ghost predicate SamplePair(records: seq<Record>, key: PairKey, control: string, treatment: string, l: bool, r: bool) {
    exists i: nat, j: nat :: Stands(records, key, control, i) && Stands(records, key, treatment, j) &&
                   SampleSides(records[i], records[j], l, r)
  }

  lemma OfficialPairIs(records: seq<Record>, key: PairKey, control: string, treatment: string,
                       l: set<OfficialStatus>, r: set<OfficialStatus>)
    ensures
      var left, right := Latest(records, key, control), Latest(records, key, treatment);
      OfficialPair(records, key, control, treatment, l, r) <==>
      left.Some? && right.Some? && OfficialSides(left.value, right.value, l, r)
  {
    LatestStands(records, key, control);
    LatestStands(records, key, treatment);
  }

  lemma SamplePairIs(records: seq<Record>, key: PairKey, control: string, treatment: string, l: bool, r: bool)
    ensures
      var left, right := Latest(records, key, control), Latest(records, key, treatment);
      SamplePair(records, key, control, treatment, l, r) <==>
      left.Some? && right.Some? && SampleSides(left.value, right.value, l, r)
  {
    LatestStands(records, key, control);
    LatestStands(records, key, treatment);
  }

  /** The pairs of a record list, official pairs by their verdicts. */
  ghost function OfficialPairs(records: seq<Record>, control: string, treatment: string, l: set<OfficialStatus>,
                               r: set<OfficialStatus>): set<PairKey> {
    set key | key in PairKeys(records) && OfficialPair(records, key, control, treatment, l, r)
  }

  ghost function SamplePairs(records: seq<Record>, control: string, treatment: string, l: bool, r: bool): set<PairKey> {
    set key | key in PairKeys(records) && SamplePair(records, key, control, treatment, l, r)
  }

  lemma OfficialVotes(records: seq<Record>, key: PairKey, control: string, treatment: string)
    ensures
      var v := OfficialAt(records, control, treatment)(key);
      && (v == ControlWin <==>
            OfficialPair(records, key, control, treatment, {OfficialResolved}, {OfficialEvalFailed}))
      && (v == TreatmentWin <==>
            OfficialPair(records, key, control, treatment, {OfficialEvalFailed}, {OfficialResolved}))
      && (v == Tie <==>
            OfficialPair(records, key, control, treatment, {OfficialResolved}, {OfficialResolved}) ||
            OfficialPair(records, key, control, treatment, {OfficialEvalFailed}, {OfficialEvalFailed}))
  {
    OfficialPairIs(records, key, control, treatment, {OfficialResolved}, {OfficialEvalFailed});
    OfficialPairIs(records, key, control, treatment, {OfficialEvalFailed}, {OfficialResolved});
    OfficialPairIs(records, key, control, treatment, {OfficialResolved}, {OfficialResolved});
    OfficialPairIs(records, key, control, treatment, {OfficialEvalFailed}, {OfficialEvalFailed});
  }

  lemma SampleVotes(records: seq<Record>, key: PairKey, control: string, treatment: string)
    ensures
      var v := SampleAt(records, control, treatment)(key);
      && (v == ControlWin <==> SamplePair(records, key, control, treatment, true, false))
      && (v == TreatmentWin <==> SamplePair(records, key, control, treatment, false, true))
      && (v == Tie <==> SamplePair(records, key, control, treatment, true, true) ||
                        SamplePair(records, key, control, treatment, false, false))
  {
    SamplePairIs(records, key, control, treatment, true, false);
    SamplePairIs(records, key, control, treatment, false, true);
    SamplePairIs(records, key, control, treatment, true, true);
    SamplePairIs(records, key, control, treatment, false, false);
  }

  lemma VotesCounted(keys: seq<PairKey>, at: PairKey -> Verdict, v: Verdict, voters: set<PairKey>)
    requires Distinct(keys) && forall key :: key in voters <==> key in keys && at(key) == v
    ensures Count(keys, Votes(at, v)) == |voters|
  {
    CountDistinct(keys, Votes(at, v), voters);
  }

  /**
    The official view counts a win for the side that the official evaluation resolved when it found the other
    side unresolved, and a tie when it found the same of both.
  */
  lemma OfficialWinners(records: seq<Record>, control: string, treatment: string)
    ensures
      var view := OfficialView(records, control, treatment);
      && view.controlWins == |OfficialPairs(records, control, treatment, {OfficialResolved}, {OfficialEvalFailed})|
      && view.treatmentWins == |OfficialPairs(records, control, treatment, {OfficialEvalFailed}, {OfficialResolved})|
      && view.ties == |OfficialPairs(records, control, treatment, {OfficialResolved}, {OfficialResolved}) +
                       OfficialPairs(records, control, treatment, {OfficialEvalFailed}, {OfficialEvalFailed})|
  {
    var at, keys := OfficialAt(records, control, treatment), PairKeys(records);
    PairKeysAre(records);
    forall key { OfficialVotes(records, key, control, treatment); }
    VotesCounted(keys, at, ControlWin,
                 OfficialPairs(records, control, treatment, {OfficialResolved}, {OfficialEvalFailed}));
    VotesCounted(keys, at, TreatmentWin,
                 OfficialPairs(records, control, treatment, {OfficialEvalFailed}, {OfficialResolved}));
    VotesCounted(keys, at, Tie,
                 OfficialPairs(records, control, treatment, {OfficialResolved}, {OfficialResolved}) +
                 OfficialPairs(records, control, treatment, {OfficialEvalFailed}, {OfficialEvalFailed}));
  }

  /** The sample view does the same for all completed pairs without an infrastructure failure. */
  lemma SampleWinners(records: seq<Record>, control: string, treatment: string)
    ensures
      var view := SampleView(records, control, treatment);
      && view.controlWins == |SamplePairs(records, control, treatment, true, false)|
      && view.treatmentWins == |SamplePairs(records, control, treatment, false, true)|
      && view.ties == |SamplePairs(records, control, treatment, true, true) +
                       SamplePairs(records, control, treatment, false, false)|
  {
    var at, keys := SampleAt(records, control, treatment), PairKeys(records);
    PairKeysAre(records);
    forall key { SampleVotes(records, key, control, treatment); }
    VotesCounted(keys, at, ControlWin, SamplePairs(records, control, treatment, true, false));
    VotesCounted(keys, at, TreatmentWin, SamplePairs(records, control, treatment, false, true));
    VotesCounted(keys, at, Tie, SamplePairs(records, control, treatment, true, true) +
                                SamplePairs(records, control, treatment, false, false));
  }

  // ----- on a planned matrix -----

  /** The record that the plan has for a case, a repetition and a variant. */
  function PlannedPlace(c: Config, j: nat, repetition: nat, variant: nat): nat
    requires repetition >= 1 && variant < |c.variants|
  {
    IndexOf(|c.caseIds|, |c.variants|, Cell(j, repetition, variant))
  }

  ghost predicate TwoVariants(c: Config, records: seq<Record>) {
    ValidConfig(c) && |c.variants| == 2 && OnMatrix(c, records)
  }

  lemma PlaceStands(c: Config, records: seq<Record>, j: nat, repetition: nat, variant: nat)
    requires TwoVariants(c, records) && j < |c.caseIds| && 1 <= repetition <= c.repetitions && variant < 2
    ensures PlannedPlace(c, j, repetition, variant) < |records|
    ensures Latest(records, PairKey(c.caseIds[j], repetition), c.variants[variant]) ==
            Some(records[PlannedPlace(c, j, repetition, variant)])
  {
    PairIsPlanned(c, records, Cell(j, repetition, variant));
  }

  /** The cells, as (case index, repetition), whose two planned records are as given. */
  ghost function OfficialCells(c: Config, records: seq<Record>, l: set<OfficialStatus>, r: set<OfficialStatus>):
    set<(nat, nat)>
    requires TwoVariants(c, records)
  {
    set j: nat, repetition: nat | j < |c.caseIds| && 1 <= repetition <= c.repetitions &&
      (PlaceStands(c, records, j, repetition, 0); PlaceStands(c, records, j, repetition, 1);
       OfficialSides(records[PlannedPlace(c, j, repetition, 0)], records[PlannedPlace(c, j, repetition, 1)], l, r)) ::
      (j, repetition)
  }

  ghost function SampleCells(c: Config, records: seq<Record>, l: bool, r: bool): set<(nat, nat)>
    requires TwoVariants(c, records)
  {
    set j: nat, repetition: nat | j < |c.caseIds| && 1 <= repetition <= c.repetitions &&
      (PlaceStands(c, records, j, repetition, 0); PlaceStands(c, records, j, repetition, 1);
       SampleSides(records[PlannedPlace(c, j, repetition, 0)], records[PlannedPlace(c, j, repetition, 1)], l, r)) ::
      (j, repetition)
  }

  lemma CellPairs(c: Config, records: seq<Record>, cells: set<(nat, nat)>, pairs: set<PairKey>)
    requires Distinct(c.caseIds)
    requires forall cell :: cell in cells ==> cell.0 < |c.caseIds| && PairKey(c.caseIds[cell.0], cell.1) in pairs
    requires forall key :: key in pairs ==> exists j: nat :: j < |c.caseIds| && c.caseIds[j] == key.caseId &&
                                                             (j, key.repetition) in cells
    ensures |pairs| == |cells|
  {
    forall key | key in pairs
      ensures exists cell :: cell in cells && PairKey(c.caseIds[cell.0], cell.1) == key
    {
      var j: nat :| j < |c.caseIds| && c.caseIds[j] == key.caseId && (j, key.repetition) in cells;
      assert PairKey(c.caseIds[(j, key.repetition).0], (j, key.repetition).1) == key;
    }
    SameSize(cells, pairs, (cell: (nat, nat)) requires cell.0 < |c.caseIds| => PairKey(c.caseIds[cell.0], cell.1));
  }

  lemma KeyOnMatrix(c: Config, records: seq<Record>, key: PairKey) returns (j: nat)
    requires TwoVariants(c, records) && key in PairKeys(records)
    ensures j < |c.caseIds| && c.caseIds[j] == key.caseId && 1 <= key.repetition <= c.repetitions
  {
    MatrixKeys(c, records, key);
    j :| 0 <= j < |c.caseIds| && c.caseIds[j] == key.caseId;
  }

  lemma CellOnMatrix(c: Config, records: seq<Record>, j: nat, repetition: nat)
    requires TwoVariants(c, records) && j < |c.caseIds| && 1 <= repetition <= c.repetitions
    ensures PairKey(c.caseIds[j], repetition) in PairKeys(records)
  {
    MatrixKeys(c, records, PairKey(c.caseIds[j], repetition));
  }

  lemma OfficialCellIff(c: Config, records: seq<Record>, j: nat, repetition: nat, l: set<OfficialStatus>,
                        r: set<OfficialStatus>)
    requires TwoVariants(c, records) && j < |c.caseIds| && 1 <= repetition <= c.repetitions
    ensures (j, repetition) in OfficialCells(c, records, l, r) <==>
            PairKey(c.caseIds[j], repetition) in OfficialPairs(records, c.variants[0], c.variants[1], l, r)
  {
    var key := PairKey(c.caseIds[j], repetition);
    CellOnMatrix(c, records, j, repetition);
    PlaceStands(c, records, j, repetition, 0);
    PlaceStands(c, records, j, repetition, 1);
    OfficialPairIs(records, key, c.variants[0], c.variants[1], l, r);
  }

  lemma OfficialCellCount(c: Config, records: seq<Record>, l: set<OfficialStatus>, r: set<OfficialStatus>)
    requires TwoVariants(c, records)
    ensures |OfficialPairs(records, c.variants[0], c.variants[1], l, r)| == |OfficialCells(c, records, l, r)|
  {
    var pairs, cells := OfficialPairs(records, c.variants[0], c.variants[1], l, r), OfficialCells(c, records, l, r);
    forall cell | cell in cells ensures cell.0 < |c.caseIds| && PairKey(c.caseIds[cell.0], cell.1) in pairs {
      OfficialCellIff(c, records, cell.0, cell.1, l, r);
    }
    forall key | key in pairs
      ensures exists j: nat :: j < |c.caseIds| && c.caseIds[j] == key.caseId && (j, key.repetition) in cells
    {
      var j := KeyOnMatrix(c, records, key);
      OfficialCellIff(c, records, j, key.repetition, l, r);
    }
    CellPairs(c, records, cells, pairs);
  }

  lemma SampleCellIff(c: Config, records: seq<Record>, j: nat, repetition: nat, l: bool, r: bool)
    requires TwoVariants(c, records) && j < |c.caseIds| && 1 <= repetition <= c.repetitions
    ensures (j, repetition) in SampleCells(c, records, l, r) <==>
            PairKey(c.caseIds[j], repetition) in SamplePairs(records, c.variants[0], c.variants[1], l, r)
  {
    var key := PairKey(c.caseIds[j], repetition);
    CellOnMatrix(c, records, j, repetition);
    PlaceStands(c, records, j, repetition, 0);
    PlaceStands(c, records, j, repetition, 1);
    SamplePairIs(records, key, c.variants[0], c.variants[1], l, r);
  }

  lemma SampleCellCount(c: Config, records: seq<Record>, l: bool, r: bool)
    requires TwoVariants(c, records)
    ensures |SamplePairs(records, c.variants[0], c.variants[1], l, r)| == |SampleCells(c, records, l, r)|
  {
    var pairs, cells := SamplePairs(records, c.variants[0], c.variants[1], l, r), SampleCells(c, records, l, r);
    forall cell | cell in cells ensures cell.0 < |c.caseIds| && PairKey(c.caseIds[cell.0], cell.1) in pairs {
      SampleCellIff(c, records, cell.0, cell.1, l, r);
    }
    forall key | key in pairs
      ensures exists j: nat :: j < |c.caseIds| && c.caseIds[j] == key.caseId && (j, key.repetition) in cells
    {
      var j := KeyOnMatrix(c, records, key);
      SampleCellIff(c, records, j, key.repetition, l, r);
    }
    CellPairs(c, records, cells, pairs);
  }

  /**
    On a planned matrix the wins of either view are the cells, by case and repetition, whose two planned
    records are as the view asks; the control is the first variant.
  */
  lemma MatrixWinners(c: Config, records: seq<Record>)
    requires TwoVariants(c, records)
    ensures
      var view := OfficialView(records, c.variants[0], c.variants[1]);
      && view.controlWins == |OfficialCells(c, records, {OfficialResolved}, {OfficialEvalFailed})|
      && view.treatmentWins == |OfficialCells(c, records, {OfficialEvalFailed}, {OfficialResolved})|
    ensures
      var view := SampleView(records, c.variants[0], c.variants[1]);
      && view.controlWins == |SampleCells(c, records, true, false)|
      && view.treatmentWins == |SampleCells(c, records, false, true)|
  {
    OfficialWinners(records, c.variants[0], c.variants[1]);
    SampleWinners(records, c.variants[0], c.variants[1]);
    OfficialCellCount(c, records, {OfficialResolved}, {OfficialEvalFailed});
    OfficialCellCount(c, records, {OfficialEvalFailed}, {OfficialResolved});
    SampleCellCount(c, records, true, false);
    SampleCellCount(c, records, false, true);
  }

  // ----- the order of the groups -----

  /** The groups come in the order of their first records. */
  lemma {:induction false} FirstSeenOrder(records: seq<Record>, i: nat, j: nat)
    requires i < j < |PairKeys(records)|
    ensures exists m: nat :: m < |records| && KeyOf(records[m]) == PairKeys(records)[i] &&
              forall n :: 0 <= n <= m ==> KeyOf(records[n]) != PairKeys(records)[j]
  {
    var n := |records| - 1;
    var keys := PairKeys(records[..n]);
    PairKeysAre(records[..n]);
    if j < |keys| {
      FirstSeenOrder(records[..n], i, j);
    } else {
      assert keys[i] in keys;
    }
  }
}
