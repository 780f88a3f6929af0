/**
  Frozen results: when a completed record of the checkpoint file is never written again.

  A completion whose save raises is turned into a failure by the `except` section.  Between the two
  another worker may save the completion, and then a durably completed record becomes a failed one.
  This module says which steps of the step system do that; `CampaignWorkers` says which campaigns can.
*/
module CampaignFrozen {
  import opened Wrappers
  import opened CampaignDomain
  import opened CampaignSlots
  import opened CampaignMachine
  import opened CampaignSafety

  /** `later` extends `earlier` and has all its completed records unchanged. */
  ghost predicate Preserves(earlier: Option<Checkpoint>, later: Option<Checkpoint>) {
    Extends(earlier, later) &&
    (earlier.Some? ==>
       forall i :: 0 <= i < |earlier.value.records| && earlier.value.records[i].status == Completed ==>
         later.value.records[i] == earlier.value.records[i])
  }

  lemma PreservesTransitive(a: Option<Checkpoint>, b: Option<Checkpoint>, c: Option<Checkpoint>)
    requires Preserves(a, b) && Preserves(b, c)
    ensures Preserves(a, c)
  {
    ExtendsTransitive(a, b, c);
  }

  /** A completion in memory that an exception is about to turn into a failure. */
  predicate Doomed(r: Record, pc: Pc) {
    pc.Raising? && r.status == Completed
  }

  /** Whether the step writes the checkpoint file during an invocation. */
  ghost predicate Saves(w: World, l: Label)
    requires Shaped(w)
  {
    Enabled(w, l) &&
    match l
    case Scan(i) => PlanFor(w.process.state.records[i], w.process.state.config.rerunIncompleteSlots) == Refuse
    case Mark(_, save) => save.Took?
    case Finish(_, o, save) => o.RunFinished? && save.Took?
    case Except(_, save) => save.Took?
    case _ => false
  }

  /** The step does not save while the completion of another slot is doomed. */
  ghost predicate QuietStep(w: World, l: Label)
    requires Shaped(w)
  {
    Saves(w, l) ==>
      forall i :: 0 <= i < |w.process.pcs| && i != l.slot ==> !Doomed(w.process.state.records[i], w.process.pcs[i])
  }

  ghost predicate Quiet(w: World, labels: seq<Label>)
    requires Shaped(w)
    decreases |labels|
  {
    labels == [] || (QuietStep(w, labels[0]) && (StepShaped(w, labels[0]); Quiet(Step(w, labels[0]), labels[1..])))
  }

  /** The slot whose worker an exception has reached is not completed on disk. */
  predicate UnexposedAt(w: World, i: nat)
    requires w.process.Active? ==> w.disk.Some? && i < |w.process.pcs| && i < |w.disk.value.records|
  {
    w.process.Active? && (w.process.pcs[i].Raising? || w.process.pcs[i] == Dead) ==>
      w.disk.value.records[i].status != Completed
  }

  /** No slot that an exception has reached, or whose task has ended with one, is completed on disk. */
  ghost predicate Unexposed(w: World) {
    Shaped(w) && (w.process.Active? ==> forall i :: 0 <= i < |w.process.pcs| ==> UnexposedAt(w, i))
  }

  /** The slot of a step is not completed on disk, and a save leaves no exception behind. */
  lemma OwnSlot(w: World, l: Label)
    requires Shaped(w) && WorkerStep(l) && Enabled(w, l) && l.slot < |w.calls|
    requires SlotOkAt(w, l.slot) && UnexposedAt(w, l.slot)
    ensures
      var v, i := Step(w, l), l.slot;
      && Shaped(v) && At(v, i) && UnexposedAt(v, i)
      && (w.disk.value.records[i].status == Completed ==> v.disk.value.records[i] == w.disk.value.records[i])
  {
    StepShaped(w, l);
  }

  /** A step writes the file exactly when it saves. */
  lemma SaveEffect(w: World, l: Label)
    requires Shaped(w) && WorkerStep(l) && Enabled(w, l)
    ensures Step(w, l).disk == if Saves(w, l) then Some(Step(w, l).process.state) else w.disk
  {
  }

  lemma QuietSlot(w: World, l: Label, i: nat)
    requires Inv(w) && w.process.Active? && i < |w.calls| && UnexposedAt(w, i) && QuietStep(w, l)
    ensures Shaped(Step(w, l)) && UnexposedAt(Step(w, l), i)
  {
    StepShaped(w, l);
    assert SlotOkAt(w, i);
    if Enabled(w, l) && WorkerStep(l) {
      OtherSlots(w, l);
      assert SlotOkAt(w, l.slot);
      if i == l.slot { OwnSlot(w, l); } else { SaveEffect(w, l); }
    }
  }

  lemma QuietKeepsUnexposed(w: World, l: Label)
    requires Inv(w) && Unexposed(w) && QuietStep(w, l)
    ensures Unexposed(Step(w, l))
  {
    StepShaped(w, l);
    var v := Step(w, l);
    if w.process.Active? && v.process.Active? {
      forall i | 0 <= i < |v.process.pcs| ensures UnexposedAt(v, i) {
        assert SlotOkAt(w, i) && UnexposedAt(w, i);
        QuietSlot(w, l, i);
      }
    }
  }

  /** A completed record of a slot that no exception has reached survives every step. */
  lemma UnexposedSlot(w: World, l: Label, i: nat)
    requires Inv(w) && w.process.Active? && i < |w.calls| && UnexposedAt(w, i)
    requires w.disk.value.records[i].status == Completed
    ensures
      var v := Step(w, l);
      v.disk.Some? && i < |v.disk.value.records| && v.disk.value.records[i] == w.disk.value.records[i]
  {
    StepShaped(w, l);
    assert SlotOkAt(w, i);
    if Enabled(w, l) && WorkerStep(l) {
      OtherSlots(w, l);
      assert SlotOkAt(w, l.slot);
      if i == l.slot { OwnSlot(w, l); }
    }
  }

  lemma UnexposedPreserves(w: World, l: Label)
    requires Inv(w) && Unexposed(w)
    ensures Preserves(w.disk, Step(w, l).disk)
  {
    StepExtends(w, l);
    var v := Step(w, l);
    if w.process.Active? {
      forall i | 0 <= i < |w.disk.value.records| && w.disk.value.records[i].status == Completed
        ensures v.disk.value.records[i] == w.disk.value.records[i]
      {
        assert SlotOkAt(w, i) && UnexposedAt(w, i);
        UnexposedSlot(w, l, i);
      }
    }
  }

  /**
    Whenever another slot saves a doomed completion, the file shows a completed record that the next step
    of its own worker turns into a failed one.
  */
  lemma LoudSaveBreaks(w: World, l: Label, i: nat)
    requires Inv(w) && Saves(w, l) && At(w, i) && i != l.slot && Doomed(w.process.state.records[i], w.process.pcs[i])
    ensures
      var v := Step(w, l);
      && Inv(v) && Enabled(v, Except(i, Took))
      && !Preserves(v.disk, Step(v, Except(i, Took)).disk)
  {
    StepKeeps(w, l);
    var v := Step(w, l);
    assert v.disk.value.records[i].status == Completed;
    assert Step(v, Except(i, Took)).disk.value.records[i].status == Failed;
  }

  /** No step takes a completed record of the file back. */
  ghost predicate Holds(w: World)
    requires Shaped(w)
  {
    forall m: Label :: Preserves(w.disk, Step(w, m).disk)
  }

  /** The step is quiet exactly when whatever comes after it leaves every completed record as it is. */
  lemma QuietStepIff(w: World, l: Label)
    requires Inv(w) && Unexposed(w)
    ensures Shaped(Step(w, l)) && (QuietStep(w, l) <==> Holds(Step(w, l)))
  {
    StepKeeps(w, l);
    var v := Step(w, l);
    if QuietStep(w, l) {
      QuietKeepsUnexposed(w, l);
      forall m: Label ensures Preserves(v.disk, Step(v, m).disk) {
        UnexposedPreserves(v, m);
      }
    } else {
      var i :| 0 <= i < |w.process.pcs| && i != l.slot && Doomed(w.process.state.records[i], w.process.pcs[i]);
      LoudSaveBreaks(w, l, i);
    }
  }

  /** In every world the history passes through, no step takes a completed record back. */
  ghost predicate HoldsThroughout(w: World, labels: seq<Label>)
    requires Shaped(w)
    decreases |labels|
  {
    Holds(w) &&
    (labels == [] || (StepShaped(w, labels[0]); HoldsThroughout(Step(w, labels[0]), labels[1..])))
  }

  /** A whole history is quiet exactly when the file never shows a completed record that may still change. */
  lemma {:induction false} QuietIff(w: World, labels: seq<Label>)
    requires Inv(w) && Unexposed(w)
    ensures Quiet(w, labels) <==> HoldsThroughout(w, labels)
    decreases |labels|
  {
    forall m: Label ensures Preserves(w.disk, Step(w, m).disk) {
      UnexposedPreserves(w, m);
    }
    if labels != [] {
      StepKeeps(w, labels[0]);
      QuietStepIff(w, labels[0]);
      if QuietStep(w, labels[0]) {
        QuietKeepsUnexposed(w, labels[0]);
        QuietIff(Step(w, labels[0]), labels[1..]);
      }
    }
  }

  lemma {:induction false} FrozenFrom(w: World, labels: seq<Label>)
    requires Inv(w) && Unexposed(w) && Quiet(w, labels)
    ensures Preserves(w.disk, Exec(w, labels).disk)
    decreases |labels|
  {
    if labels != [] {
      var v := Step(w, labels[0]);
      StepKeeps(w, labels[0]);
      QuietKeepsUnexposed(w, labels[0]);
      UnexposedPreserves(w, labels[0]);
      FrozenFrom(v, labels[1..]);
      PreservesTransitive(w.disk, v.disk, Exec(v, labels[1..]).disk);
    }
  }

  lemma {:induction false} UnexposedAfter(w: World, labels: seq<Label>)
    requires Inv(w) && Unexposed(w) && Quiet(w, labels)
    ensures Inv(Exec(w, labels)) && Unexposed(Exec(w, labels))
    decreases |labels|
  {
    if labels != [] {
      StepKeeps(w, labels[0]);
      QuietKeepsUnexposed(w, labels[0]);
      UnexposedAfter(Step(w, labels[0]), labels[1..]);
    }
  }

  /**
    Over any continuation of any history a completed record of the checkpoint stays as it is, as long as
    no slot saves while the completion of another one is doomed.
  */
  lemma FrozenResults(history: seq<Label>, more: seq<Label>)
    requires Quiet(INITIAL, history) && Quiet(Exec(INITIAL, history), more)
    ensures Preserves(Exec(INITIAL, history).disk, Exec(Exec(INITIAL, history), more).disk)
  {
    UnexposedAfter(INITIAL, history);
    FrozenFrom(Exec(INITIAL, history), more);
  }

  ghost predicate NothingDoomed(w: World) {
    Shaped(w) && (w.process.Active? ==>
      forall i :: 0 <= i < |w.process.pcs| ==> !Doomed(w.process.state.records[i], w.process.pcs[i]))
  }

  lemma UndoomedSlot(w: World, l: Label, i: nat)
    requires Shaped(w) && At(w, i) && SlotOkAt(w, i) && !Doomed(w.process.state.records[i], w.process.pcs[i])
    requires l.Finish? ==> l.save.Took?
    ensures var v := Step(w, l); At(v, i) && |v.process.state.records| == |v.process.pcs| ==>
      !Doomed(v.process.state.records[i], v.process.pcs[i])
  {
  }

  lemma StaysUndoomed(w: World, l: Label)
    requires Inv(w) && NothingDoomed(w) && (l.Finish? ==> l.save.Took?)
    ensures NothingDoomed(Step(w, l))
  {
    StepShaped(w, l);
    var v := Step(w, l);
    if w.process.Active? && v.process.Active? {
      forall i | 0 <= i < |v.process.pcs| ensures !Doomed(v.process.state.records[i], v.process.pcs[i]) {
        assert SlotOkAt(w, i);
        UndoomedSlot(w, l, i);
      }
    }
  }

  /** In a history without raising saves every step is quiet, since no completion is ever doomed. */
  lemma {:induction false} SuccessfulSavesAreQuiet(w: World, labels: seq<Label>)
    requires Inv(w) && NothingDoomed(w)
    requires forall k :: 0 <= k < |labels| && labels[k].Finish? ==> labels[k].save.Took?
    ensures Quiet(w, labels)
    decreases |labels|
  {
    if labels != [] {
      StepKeeps(w, labels[0]);
      StaysUndoomed(w, labels[0]);
      SuccessfulSavesAreQuiet(Step(w, labels[0]), labels[1..]);
    }
  }
}
