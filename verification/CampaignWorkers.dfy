/**
  Histories of a bounded pool: which configurations keep every completed record of the checkpoint file.

  `max_parallel_slots` bounds the slots that are between their mark and the end of `_run_slot`.  With one
  worker nobody else saves between a raising save and the `except` section; with more somebody may.
*/
module CampaignWorkers {
  import opened Wrappers
  import opened CampaignDomain
  import opened CampaignSlots
  import opened CampaignMatrix
  import opened CampaignRunner
  import opened CampaignMachine
  import opened CampaignSafety
  import opened CampaignFrozen

  /** A worker is in `_run_slot` for the slot; one that waits for its retry has been called before. */
  predicate Busy(pc: Pc, spent: nat) {
    pc == Marked || pc == InFlight || pc.Raising? || (pc == Queued && spent > 0)
  }

  function BusySlots(w: World): set<nat>
    requires Shaped(w)
  {
    if w.process.Idle? then {}
    else set i: nat | i < |w.process.pcs| && Busy(w.process.pcs[i], w.process.spent[i])
  }

  /**
    The step belongs to a campaign configured as `c`: every invocation asks for `c`, and a slot that no
    worker has is only taken by a free one.  A slot whose task ended with an exception occupies no
    worker; with a single worker the code stops there, so the histories include more than its own.
  */
  ghost predicate Allowed(c: Config, w: World, l: Label)
    requires Shaped(w)
  {
    && (l.Begin? ==> l.request.config == c)
    && (l.Mark? && Enabled(w, l) && l.slot !in BusySlots(w) ==> |BusySlots(w)| < c.maxParallelSlots)
  }

  ghost predicate Pooled(c: Config, w: World, labels: seq<Label>)
    requires Shaped(w)
    decreases |labels|
  {
    labels == [] || (Allowed(c, w, labels[0]) && (StepShaped(w, labels[0]); Pooled(c, Step(w, labels[0]), labels[1..])))
  }

  // ----- what a bounded pool keeps -----

  /** No more slots are busy than there are workers, and none is before the first pass is over. */
  ghost predicate PoolOk(c: Config, w: World) {
    && Shaped(w)
    && (w.disk.Some? ==> w.disk.value.config == c && |w.disk.value.records| == |PlannedRecords(c)|)
    && |BusySlots(w)| <= c.maxParallelSlots
    && (w.process.Active? ==>
          && (BusySlots(w) != {} ==> AllScanned(w.process.pcs))
          && forall i :: 0 <= i < |w.process.pcs| && w.process.pcs[i] == Unscanned ==> w.process.spent[i] == 0)
  }

  lemma BusyStep(w: World, l: Label)
    requires Shaped(w) && w.process.Active? && Enabled(w, l) && WorkerStep(l)
    requires forall i :: 0 <= i < |w.process.pcs| && w.process.pcs[i] == Unscanned ==> w.process.spent[i] == 0
    ensures Shaped(Step(w, l)) && Step(w, l).process.Active?
    ensures l.Mark? ==> BusySlots(Step(w, l)) <= BusySlots(w) + {l.slot}
    ensures !l.Mark? ==> BusySlots(Step(w, l)) <= BusySlots(w)
    ensures AllScanned(w.process.pcs) ==> AllScanned(Step(w, l).process.pcs)
  {
    OtherSlots(w, l);
  }

  lemma SubsetSize(a: set<nat>, b: set<nat>)
    requires a <= b
    ensures |a| <= |b|
  {
    if a != {} {
      var x :| x in a;
      SubsetSize(a - {x}, b - {x});
    }
  }

  /** Only the mark of a slot that no worker has takes another worker. */
  lemma BusyBound(c: Config, w: World, l: Label)
    requires PoolOk(c, w) && Allowed(c, w, l) && Enabled(w, l) && WorkerStep(l)
    ensures Shaped(Step(w, l)) && |BusySlots(Step(w, l))| <= c.maxParallelSlots
  {
    BusyStep(w, l);
    if l.Mark? && l.slot !in BusySlots(w) {
      SubsetSize(BusySlots(Step(w, l)), BusySlots(w) + {l.slot});
    } else {
      assert l.Mark? ==> BusySlots(w) + {l.slot} == BusySlots(w);
      SubsetSize(BusySlots(Step(w, l)), BusySlots(w));
    }
  }

  lemma PoolWorkerStep(c: Config, w: World, l: Label)
    requires PoolOk(c, w) && Allowed(c, w, l) && Enabled(w, l) && WorkerStep(l)
    ensures PoolOk(c, Step(w, l))
  {
    BusyBound(c, w, l);
    BusyStep(w, l);
    StepSource(w, l);
    OtherSlots(w, l);
  }

  lemma PoolStep(c: Config, w: World, l: Label)
    requires PoolOk(c, w) && Allowed(c, w, l)
    ensures PoolOk(c, Step(w, l))
  {
    StepShaped(w, l);
    if Enabled(w, l) {
      if WorkerStep(l) { PoolWorkerStep(c, w, l); } else { assert BusySlots(Step(w, l)) == {}; }
    }
  }

  lemma {:induction false} PoolExec(c: Config, w: World, labels: seq<Label>)
    requires PoolOk(c, w) && Pooled(c, w, labels)
    ensures PoolOk(c, Exec(w, labels))
    decreases |labels|
  {
    if labels != [] {
      PoolStep(c, w, labels[0]);
      PoolExec(c, Step(w, labels[0]), labels[1..]);
    }
  }

  // ----- campaigns that cannot lose a completed record -----

  function SlotCount(c: Config): nat {
    c.repetitions * (|c.caseIds| * |c.variants|)
  }

  /** What a caller can check before the campaign starts: one worker, or one slot. */
  predicate OneAtATime(c: Config) {
    c.maxParallelSlots == 1 || (c.repetitions == 1 && |c.caseIds| == 1 && |c.variants| == 1)
  }

  /** Over every continuation of every history of the configuration a completed record stays as it is. */
  ghost predicate Frozen(c: Config) {
    forall history: seq<Label>, more: seq<Label> ::
      Pooled(c, INITIAL, history) && Pooled(c, Exec(INITIAL, history), more) ==>
        Preserves(Exec(INITIAL, history).disk, Exec(Exec(INITIAL, history), more).disk)
  }

  lemma TwoBusy(w: World, i: nat, j: nat)
    requires Shaped(w) && i in BusySlots(w) && j in BusySlots(w) && i != j
    ensures |BusySlots(w)| >= 2
  {
    SubsetSize({i, j}, BusySlots(w));
  }

  lemma OneWorkerStep(c: Config, w: World, l: Label)
    requires PoolOk(c, w) && Allowed(c, w, l) && c.maxParallelSlots == 1
    ensures QuietStep(w, l)
  {
    if Saves(w, l) {
      forall i | 0 <= i < |w.process.pcs| && i != l.slot
        ensures !Doomed(w.process.state.records[i], w.process.pcs[i])
      {
        if w.process.pcs[i].Raising? {
          assert i in BusySlots(w);
          if l.slot in BusySlots(w) { TwoBusy(w, i, l.slot); }
        }
      }
    }
  }

  lemma OneSlotStep(c: Config, w: World, l: Label)
    requires PoolOk(c, w) && SlotCount(c) == 1
    ensures QuietStep(w, l)
  {
    NothingElse(c, PlannedRecords(c));
  }

  lemma {:induction false} OneAtATimeIsQuiet(c: Config, w: World, labels: seq<Label>)
    requires PoolOk(c, w) && Pooled(c, w, labels) && OneAtATime(c)
    ensures Quiet(w, labels)
    decreases |labels|
  {
    if labels != [] {
      if c.maxParallelSlots == 1 { OneWorkerStep(c, w, labels[0]); } else { OneSlotStep(c, w, labels[0]); }
      PoolStep(c, w, labels[0]);
      OneAtATimeIsQuiet(c, Step(w, labels[0]), labels[1..]);
    }
  }

  // ----- campaigns that can -----

  const FINISHED: RunOutcome := RunFinished("", "", "", EMPTY_EVIDENCE)

  /** The first pass of a new campaign has put `k` slots in the queue. */
  ghost predicate Opening(c: Config, w: World, k: nat) {
    && Shaped(w) && w.process.Active? && w.process.state.config == c
    && k <= |w.process.pcs| == SlotCount(c)
    && forall i :: 0 <= i < |w.process.pcs| ==>
         && w.process.pcs[i] == (if i < k then Queued else Unscanned)
         && w.process.spent[i] == 0
         && w.process.state.records[i].status == Pending && w.process.state.records[i].attempts == 0
  }

  /** A worker has slot 0, and slot 1 still waits for one. */
  ghost predicate Taken(c: Config, w: World, pc: Pc, status: RunStatus) {
    && Shaped(w) && w.process.Active? && w.process.state.config == c && |w.process.pcs| >= 2
    && AllScanned(w.process.pcs)
    && w.process.pcs[0] == pc && w.process.state.records[0].status == status
    && w.process.pcs[1] == Queued && BusySlots(w) <= {0}
  }

  lemma {:induction false} PooledNext(c: Config, w: World, labels: seq<Label>, l: Label)
    requires Shaped(w) && Pooled(c, w, labels) && Allowed(c, Exec(w, labels), l)
    ensures Pooled(c, w, labels + [l])
    decreases |labels|
  {
    if labels == [] {
      StepShaped(w, l);
      assert [] + [l] == [l] && [l][1..] == [];
    } else {
      StepShaped(w, labels[0]);
      PooledNext(c, Step(w, labels[0]), labels[1..], l);
      assert (labels + [l])[1..] == labels[1..] + [l];
    }
  }

  lemma Next(c: Config, labels: seq<Label>, l: Label)
    requires Pooled(c, INITIAL, labels) && Allowed(c, Exec(INITIAL, labels), l)
    ensures Pooled(c, INITIAL, labels + [l]) && Exec(INITIAL, labels + [l]) == Step(Exec(INITIAL, labels), l)
  {
    PooledNext(c, INITIAL, labels, l);
    ExecConcat(INITIAL, labels, [l]);
    ExecOne(Exec(INITIAL, labels), l);
  }

  lemma Opens(c: Config, source: Source) returns (l: Label)
    requires ValidConfig(c) && !source.dirty
    ensures Allowed(c, INITIAL, l) && Opening(c, Step(INITIAL, l), 0)
  {
    l := Begin(Request(c, true, false), source);
    var planned := PlannedRecords(c);
    NothingElse(c, planned);
    var m := Matrix(c.repetitions, |c.caseIds|, |c.variants|);
    forall i | 0 <= i < |planned| ensures planned[i].status == Pending && planned[i].attempts == 0 {
      assert Describes(c, planned[i], m[i], i);
    }
  }

  lemma OpeningScan(c: Config, w: World, k: nat)
    requires Opening(c, w, k) && k < |w.process.pcs|
    ensures Opening(c, Step(w, Scan(k)), k + 1)
  {
  }

  lemma ScannedHistory(c: Config, source: Source) returns (history: seq<Label>)
    requires ValidConfig(c) && !source.dirty
    ensures Pooled(c, INITIAL, history) && Opening(c, Exec(INITIAL, history), SlotCount(c))
  {
    var start := Opens(c, source);
    Next(c, [], start);
    history := [] + [start];
    for k := 0 to SlotCount(c)
      invariant Pooled(c, INITIAL, history) && Opening(c, Exec(INITIAL, history), k)
    {
      Next(c, history, Scan(k));
      OpeningScan(c, Exec(INITIAL, history), k);
      history := history + [Scan(k)];
    }
  }

  lemma TakenMark(c: Config, w: World)
    requires Opening(c, w, SlotCount(c)) && SlotCount(c) >= 2
    ensures BusySlots(w) == {} && Taken(c, Step(w, Mark(0, Took)), Marked, Running)
  {
    assert BusySlots(w) == {};
  }

  lemma TakenCall(c: Config, w: World)
    requires Taken(c, w, Marked, Running)
    ensures Taken(c, Step(w, Call(0)), InFlight, Running)
  {
  }

  lemma TakenFinish(c: Config, w: World, text: string)
    requires Taken(c, w, InFlight, Running)
    ensures Taken(c, Step(w, Finish(0, FINISHED, Failing(text))), Raising(text), Completed)
  {
  }

  /** Up to the raising save of slot 0. */
  lemma RaisedHistory(c: Config, source: Source, text: string) returns (history: seq<Label>)
    requires ValidConfig(c) && !source.dirty && SlotCount(c) >= 2
    ensures Pooled(c, INITIAL, history) && Taken(c, Exec(INITIAL, history), Raising(text), Completed)
  {
    history := ScannedHistory(c, source);
    TakenMark(c, Exec(INITIAL, history));
    Next(c, history, Mark(0, Took));
    history := history + [Mark(0, Took)];
    TakenCall(c, Exec(INITIAL, history));
    Next(c, history, Call(0));
    history := history + [Call(0)];
    TakenFinish(c, Exec(INITIAL, history), text);
    Next(c, history, Finish(0, FINISHED, Failing(text)));
    history := history + [Finish(0, FINISHED, Failing(text))];
  }

  /**
    Any configuration with two workers and two slots: the save of the completed slot 0 raises, the mark of
    slot 1 saves the completion all the same, and the `except` section turns it into a failure.
  */
  lemma RaisingSaveWitness(c: Config, source: Source, text: string) returns (history: seq<Label>)
    requires ValidConfig(c) && !source.dirty && c.maxParallelSlots >= 2 && SlotCount(c) >= 2
    ensures Pooled(c, INITIAL, history) && Pooled(c, Exec(INITIAL, history), [Except(0, Took)])
    ensures !Preserves(Exec(INITIAL, history).disk, Exec(Exec(INITIAL, history), [Except(0, Took)]).disk)
  {
    var raised := RaisedHistory(c, source, text);
    var w := Exec(INITIAL, raised);
    SubsetSize(BusySlots(w), {0});
    Next(c, raised, Mark(1, Took));
    history := raised + [Mark(1, Took)];
    ExecKeeps(INITIAL, raised);
    LoudSaveBreaks(w, Mark(1, Took), 0);
    var v := Exec(INITIAL, history);
    ExecOne(v, Except(0, Took));
    PooledNext(c, v, [], Except(0, Took));
    assert [] + [Except(0, Took)] == [Except(0, Took)];
  }

  lemma ProductAtLeast(a: nat, b: nat)
    requires a >= 1 && b >= 1
    ensures a * b >= a && a * b >= b
  {
    assert (a - 1) * b >= 0 && a * (b - 1) >= 0;
    assert (a - 1) * b == a * b - b && a * (b - 1) == a * b - a;
  }

  lemma SlotCountOne(c: Config)
    requires ValidConfig(c)
    ensures SlotCount(c) >= 1
    ensures SlotCount(c) == 1 <==> c.repetitions == 1 && |c.caseIds| == 1 && |c.variants| == 1
  {
    ProductAtLeast(|c.caseIds|, |c.variants|);
    ProductAtLeast(c.repetitions, |c.caseIds| * |c.variants|);
  }

  /**
    Frozen results, for every valid configuration: completed records of the checkpoint file are never
    written again, whatever raises, crashes or resumes, exactly when slots run one at a time.
  */
  lemma FrozenIff(c: Config)
    requires ValidConfig(c)
    ensures Frozen(c) <==> OneAtATime(c)
  {
    SlotCountOne(c);
    if OneAtATime(c) {
      forall history: seq<Label>, more: seq<Label> |
        Pooled(c, INITIAL, history) && Pooled(c, Exec(INITIAL, history), more)
        ensures Preserves(Exec(INITIAL, history).disk, Exec(Exec(INITIAL, history), more).disk)
      {
        PoolExec(c, INITIAL, history);
        OneAtATimeIsQuiet(c, INITIAL, history);
        OneAtATimeIsQuiet(c, Exec(INITIAL, history), more);
        FrozenResults(history, more);
      }
    } else {
      var history := RaisingSaveWitness(c, Source("", false), "");
      assert !Preserves(Exec(INITIAL, history).disk, Exec(Exec(INITIAL, history), [Except(0, Took)]).disk);
    }
  }
}
