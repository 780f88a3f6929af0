/**
  Safety of the campaign over every history of invocations, interleavings, raising saves, crashes and
  resumes.
*/
module CampaignSafety {
  import opened Wrappers
  import opened CampaignDomain
  import opened CampaignSlots
  import opened CampaignMatrix
  import opened CampaignMachine

  /** Runner calls this invocation may still make on a slot that stands at `pc`. */
  function CallsLeft(pc: Pc, attempts: nat, max: nat): nat {
    match pc
    case Unscanned | Queued => 1 + Room(attempts + 1, max)
    case Marked => 1 + Room(attempts, max)
    case InFlight => Room(attempts, max)
    case Raising(_) | Skipped | Done | Dead => 0
  }

  /** `s` is a later value of `r`: same slot, no attempt and no recorded retry taken back. */
  ghost predicate RecordExtends(r: Record, s: Record) {
    s.slot == r.slot && s.attempts >= r.attempts && r.history <= s.history
  }

  /**
    What holds of one slot at all times.  `r` is its record in memory and `d` the saved one; `calls` are
    the runner calls ever made for it, `entry` its attempts when the current invocation began and `spent`
    the calls of this invocation.
  */
  ghost predicate SlotOk(c: Config, r: Record, d: Record, pc: Pc, calls: nat, entry: nat, spent: nat) {
    var max := c.maxInfrastructureAttempts;
    && RecordOk(r, max) && RecordOk(d, max) && RecordExtends(d, r)
    && calls + (if pc == Marked then 1 else 0) <= d.attempts
    && (!pc.Raising? && pc != Dead ==> d == r)
    && (pc == Marked || pc == InFlight ==> r.status == Running)
    && (pc.Raising? ==> r.attempts > 0 && (d == r || d.status == Running))
    && (pc == Dead ==> r.status != Completed)
    && (pc == Skipped || pc == Done ==> r.status == Completed || r.status == Failed)
    && (pc == Queued ==> r.status != Completed)
    && (!c.rerunIncompleteSlots ==> r.attempts <= 1 && (pc == Queued ==> r.attempts == 0))
    && spent + CallsLeft(pc, r.attempts, max) <= CallBudget(entry, max)
  }

  lemma MarkKeeps(c: Config, r: Record, d: Record, calls: nat, entry: nat, spent: nat)
    requires SlotOk(c, r, d, Queued, calls, entry, spent)
    ensures SlotOk(c, MarkStarted(r), MarkStarted(r), Marked, calls, entry, spent)
    ensures SlotOk(c, MarkStarted(r), d, Dead, calls, entry, spent)
  {
    MarkStartedKeeps(r, c.maxInfrastructureAttempts);
  }

  lemma CallKeeps(c: Config, r: Record, d: Record, calls: nat, entry: nat, spent: nat)
    requires SlotOk(c, r, d, Marked, calls, entry, spent)
    ensures SlotOk(c, r, d, InFlight, calls + 1, entry, spent + 1)
  {
  }

  /** Recording a finished run, saved or not. */
  lemma FinishKeeps(c: Config, r: Record, d: Record, o: RunOutcome, text: string, calls: nat, entry: nat, spent: nat)
    requires !c.rerunIncompleteSlots ==> c.maxInfrastructureAttempts == 1
    requires SlotOk(c, r, d, InFlight, calls, entry, spent) && o.RunFinished?
    ensures
      var max := c.maxInfrastructureAttempts;
      var a := Absorb(r, o, max);
      && SlotOk(c, a, a, if RetriesInPlace(r, o, max) then Queued else Done, calls, entry, spent)
      && SlotOk(c, a, d, Raising(text), calls, entry, spent)
  {
    AbsorbKeeps(r, o, c.maxInfrastructureAttempts);
    AbsorbSettles(r, o, c.maxInfrastructureAttempts);
  }

  lemma RaiseKeeps(c: Config, r: Record, d: Record, o: RunOutcome, calls: nat, entry: nat, spent: nat)
    requires SlotOk(c, r, d, InFlight, calls, entry, spent) && !o.RunFinished?
    ensures SlotOk(c, Partial(r, o), d, Raising(o.text), calls, entry, spent)
  {
    PartialKeeps(r, o, c.maxInfrastructureAttempts);
  }

  lemma ExceptKeeps(c: Config, r: Record, d: Record, text: string, calls: nat, entry: nat, spent: nat)
    requires SlotOk(c, r, d, Raising(text), calls, entry, spent)
    ensures SlotOk(c, Caught(r, text), Caught(r, text), Done, calls, entry, spent)
    ensures SlotOk(c, Caught(r, text), d, Dead, calls, entry, spent)
  {
    CaughtKeeps(r, text, c.maxInfrastructureAttempts);
  }

  lemma ScanKeeps(c: Config, r: Record, d: Record, calls: nat, entry: nat, spent: nat)
    requires SlotOk(c, r, d, Unscanned, calls, entry, spent)
    ensures
      match PlanFor(r, c.rerunIncompleteSlots)
      case KeepCompleted => SlotOk(c, r, d, Skipped, calls, entry, spent)
      case Refuse => SlotOk(c, FailClosed(r), FailClosed(r), Skipped, calls, entry, spent)
      case RunIt => SlotOk(c, r, d, Queued, calls, entry, spent)
  {
    if PlanFor(r, c.rerunIncompleteSlots) == Refuse {
      FailClosedKeeps(r, c.maxInfrastructureAttempts);
    }
  }

  /** A save by another slot copies whatever this one holds in memory. */
  lemma CopyKeeps(c: Config, r: Record, d: Record, pc: Pc, calls: nat, entry: nat, spent: nat)
    requires SlotOk(c, r, d, pc, calls, entry, spent)
    ensures SlotOk(c, r, r, pc, calls, entry, spent)
  {
  }

  /** The saved record passes from one invocation to the next, whatever the slot was doing. */
  lemma RestKeeps(c: Config, r: Record, d: Record, pc: Pc, calls: nat, entry: nat, spent: nat)
    requires SlotOk(c, r, d, pc, calls, entry, spent)
    ensures SlotOk(c, d, d, Unscanned, calls, d.attempts, 0)
  {
  }

  function RecordAt(w: World, i: nat): Record
    requires Shaped(w) && w.disk.Some? && i < |w.calls|
  {
    if w.process.Active? then w.process.state.records[i] else w.disk.value.records[i]
  }

  function PcAt(w: World, i: nat): Pc
    requires Shaped(w) && w.disk.Some? && i < |w.calls|
  {
    if w.process.Active? then w.process.pcs[i] else Unscanned
  }

  function EntryAt(w: World, i: nat): nat
    requires Shaped(w) && w.disk.Some? && i < |w.calls|
  {
    if w.process.Active? then w.process.entry[i] else w.disk.value.records[i].attempts
  }

  function SpentAt(w: World, i: nat): nat
    requires Shaped(w) && w.disk.Some? && i < |w.calls|
  {
    if w.process.Active? then w.process.spent[i] else 0
  }

  ghost predicate SlotOkAt(w: World, i: nat)
    requires Shaped(w) && w.disk.Some? && i < |w.calls|
  {
    SlotOk(w.disk.value.config, RecordAt(w, i), w.disk.value.records[i], PcAt(w, i), w.calls[i], EntryAt(w, i),
           SpentAt(w, i))
  }

  ghost predicate Inv(w: World) {
    && Shaped(w)
    && (w.disk.Some? ==>
          && ValidConfig(w.disk.value.config)
          && (w.disk.value.status == CampaignCompleted ==> AllCompleted(w.disk.value.records))
          && forall i :: 0 <= i < |w.calls| ==> SlotOkAt(w, i))
  }

  lemma BeginKeeps(w: World, l: Label)
    requires Inv(w) && l.Begin? && Enabled(w, l)
    ensures Inv(Step(w, l))
  {
    var v := Step(w, l);
    if w.disk.None? {
      var m := Matrix(l.request.config.repetitions, |l.request.config.caseIds|, |l.request.config.variants|);
      forall i | 0 <= i < |v.calls| ensures SlotOkAt(v, i) {
        assert Describes(l.request.config, v.disk.value.records[i], m[i], i);
      }
    } else {
      forall i | 0 <= i < |v.calls| ensures SlotOkAt(v, i) {
        assert SlotOkAt(w, i);
      }
    }
  }

  /** A change in memory keeps the invariant if its own slot does. */
  lemma ChangeKeeps(w: World, i: nat, r: Record, pc: Pc)
    requires Inv(w) && At(w, i)
    requires SlotOk(w.disk.value.config, r, w.disk.value.records[i], pc, w.calls[i], EntryAt(w, i), SpentAt(w, i))
    ensures Inv(Change(w, i, r, pc))
  {
    var v := Change(w, i, r, pc);
    forall j | 0 <= j < |v.calls| ensures SlotOkAt(v, j) {
      assert SlotOkAt(w, j);
    }
  }

  /** A saved change keeps the invariant if its own slot does. */
  lemma CommitKeeps(w: World, i: nat, r: Record, pc: Pc)
    requires Inv(w) && At(w, i)
    requires SlotOk(w.disk.value.config, r, r, pc, w.calls[i], EntryAt(w, i), SpentAt(w, i))
    ensures Inv(Commit(w, i, r, pc))
  {
    var v := Commit(w, i, r, pc);
    forall j | 0 <= j < |v.calls| ensures SlotOkAt(v, j) {
      assert SlotOkAt(w, j);
      CopyKeeps(w.disk.value.config, RecordAt(w, j), w.disk.value.records[j], PcAt(w, j), w.calls[j], EntryAt(w, j),
                SpentAt(w, j));
    }
  }

  lemma SetPcKeeps(w: World, i: nat, pc: Pc)
    requires Inv(w) && At(w, i)
    requires SlotOk(w.disk.value.config, RecordAt(w, i), w.disk.value.records[i], pc, w.calls[i], EntryAt(w, i),
                    SpentAt(w, i))
    ensures Inv(SetPc(w, i, pc))
  {
    var v := SetPc(w, i, pc);
    forall j | 0 <= j < |v.calls| ensures SlotOkAt(v, j) {
      assert SlotOkAt(w, j);
    }
  }

  lemma ScanStepKeeps(w: World, i: nat)
    requires Inv(w) && Enabled(w, Scan(i))
    ensures Inv(ScanAt(w, i))
  {
    assert SlotOkAt(w, i);
    var c, r := w.process.state.config, w.process.state.records[i];
    ScanKeeps(c, r, w.disk.value.records[i], w.calls[i], EntryAt(w, i), SpentAt(w, i));
    match PlanFor(r, c.rerunIncompleteSlots)
    case KeepCompleted => SetPcKeeps(w, i, Skipped);
    case Refuse => CommitKeeps(w, i, FailClosed(r), Skipped);
    case RunIt => SetPcKeeps(w, i, Queued);
  }

  lemma MarkStepKeeps(w: World, i: nat, save: Save)
    requires Inv(w) && Enabled(w, Mark(i, save))
    ensures Inv(MarkAt(w, i, save))
  {
    assert SlotOkAt(w, i);
    var r := w.process.state.records[i];
    MarkKeeps(w.process.state.config, r, w.disk.value.records[i], w.calls[i], EntryAt(w, i), SpentAt(w, i));
    if save.Took? { CommitKeeps(w, i, MarkStarted(r), Marked); } else { ChangeKeeps(w, i, MarkStarted(r), Dead); }
  }

  lemma CallStepKeeps(w: World, i: nat)
    requires Inv(w) && Enabled(w, Call(i))
    ensures Inv(CallAt(w, i))
  {
    assert SlotOkAt(w, i);
    CallKeeps(w.process.state.config, w.process.state.records[i], w.disk.value.records[i], w.calls[i], EntryAt(w, i),
              SpentAt(w, i));
    var v := CallAt(w, i);
    forall j | 0 <= j < |v.calls| ensures SlotOkAt(v, j) {
      assert SlotOkAt(w, j);
    }
  }

  lemma FinishStepKeeps(w: World, i: nat, o: RunOutcome, save: Save)
    requires Inv(w) && Enabled(w, Finish(i, o, save))
    ensures Inv(FinishAt(w, i, o, save))
  {
    assert SlotOkAt(w, i);
    var c, r, d := w.process.state.config, w.process.state.records[i], w.disk.value.records[i];
    if !o.RunFinished? {
      RaiseKeeps(c, r, d, o, w.calls[i], EntryAt(w, i), SpentAt(w, i));
      ChangeKeeps(w, i, Partial(r, o), Raising(o.text));
    } else {
      var max := c.maxInfrastructureAttempts;
      FinishKeeps(c, r, d, o, if save.Failing? then save.text else "", w.calls[i], EntryAt(w, i), SpentAt(w, i));
      if save.Failing? {
        ChangeKeeps(w, i, Absorb(r, o, max), Raising(save.text));
      } else {
        CommitKeeps(w, i, Absorb(r, o, max), if RetriesInPlace(r, o, max) then Queued else Done);
      }
    }
  }

  lemma ExceptStepKeeps(w: World, i: nat, save: Save)
    requires Inv(w) && Enabled(w, Except(i, save))
    ensures Inv(ExceptAt(w, i, save))
  {
    assert SlotOkAt(w, i);
    var r, text := w.process.state.records[i], w.process.pcs[i].text;
    ExceptKeeps(w.process.state.config, r, w.disk.value.records[i], text, w.calls[i], EntryAt(w, i), SpentAt(w, i));
    if save.Took? { CommitKeeps(w, i, Caught(r, text), Done); } else { ChangeKeeps(w, i, Caught(r, text), Dead); }
  }

  lemma LeaveKeeps(w: World, l: Label)
    requires Inv(w) && Enabled(w, l) && (l.Return? || l.Crash?)
    ensures Inv(Step(w, l))
  {
    var v := Step(w, l);
    forall i | 0 <= i < |v.calls| ensures SlotOkAt(v, i) {
      assert SlotOkAt(w, i);
      RestKeeps(w.disk.value.config, RecordAt(w, i), w.disk.value.records[i], PcAt(w, i), w.calls[i], EntryAt(w, i),
                SpentAt(w, i));
    }
  }

  lemma StepKeeps(w: World, l: Label)
    requires Inv(w)
    ensures Inv(Step(w, l))
  {
    if Enabled(w, l) {
      match l
      case Begin(_, _) => BeginKeeps(w, l);
      case Scan(i) => ScanStepKeeps(w, i);
      case Mark(i, save) => MarkStepKeeps(w, i, save);
      case Call(i) => CallStepKeeps(w, i);
      case Finish(i, o, save) => FinishStepKeeps(w, i, o, save);
      case Except(i, save) => ExceptStepKeeps(w, i, save);
      case Return => LeaveKeeps(w, l);
      case Crash => LeaveKeeps(w, l);
    }
  }

  lemma {:induction false} ExecKeeps(w: World, labels: seq<Label>)
    requires Inv(w)
    ensures Inv(Exec(w, labels))
    decreases |labels|
  {
    if labels != [] {
      StepKeeps(w, labels[0]);
      ExecKeeps(Step(w, labels[0]), labels[1..]);
    }
  }

  // ----- what every history guarantees -----

  /** The runner is never called more often than the attempts already saved: the mark precedes the call. */
  lemma CallsAreSavedAttempts(labels: seq<Label>, i: nat)
    requires var w := Exec(INITIAL, labels); w.disk.Some? && i < |w.calls|
    ensures var w := Exec(INITIAL, labels); w.calls[i] <= w.disk.value.records[i].attempts
  {
    ExecKeeps(INITIAL, labels);
    assert SlotOkAt(Exec(INITIAL, labels), i);
  }

  /**
    Strict Pass@1: without `rerun_incomplete_slots`, over any history of invocations, raising saves,
    crashes and resumes the runner is called at most once per slot.
  */
  lemma StrictPassAtOne(labels: seq<Label>, i: nat)
    requires var w := Exec(INITIAL, labels);
      w.disk.Some? && i < |w.calls| && !w.disk.value.config.rerunIncompleteSlots
    ensures Exec(INITIAL, labels).calls[i] <= 1
  {
    ExecKeeps(INITIAL, labels);
    assert SlotOkAt(Exec(INITIAL, labels), i);
  }

  /** The recorded retries of a slot over all invocations, and the calls of the current one. */
  lemma AttemptAccounting(labels: seq<Label>, i: nat)
    requires var w := Exec(INITIAL, labels); w.disk.Some? && i < |w.calls|
    ensures
      var w := Exec(INITIAL, labels);
      var r, max := w.disk.value.records[i], w.disk.value.config.maxInfrastructureAttempts;
      && HistoryIncreasing(r.history)
      && (forall m :: 0 <= m < |r.history| ==> 1 <= r.history[m].attempt < max)
      && |r.history| <= max - 1
      && (w.process.Active? ==>
            w.process.spent[i] <= if w.process.entry[i] < max then max - w.process.entry[i] else 1)
  {
    ExecKeeps(INITIAL, labels);
    var w := Exec(INITIAL, labels);
    assert SlotOkAt(w, i);
    HistoryBound(w.disk.value.records[i], w.disk.value.config.maxInfrastructureAttempts);
  }

  /** The checkpoint after a normal return: nothing pending, and the status says whether all succeeded. */
  lemma ReturnSettlesEverything(labels: seq<Label>)
    requires Enabled(Exec(INITIAL, labels), Return)
    ensures
      var v := Step(Exec(INITIAL, labels), Return);
      && v.disk.Some?
      && (forall i :: 0 <= i < |v.disk.value.records| ==>
            v.disk.value.records[i].status == Completed || v.disk.value.records[i].status == Failed)
      && (v.disk.value.status == CampaignCompleted <==>
            forall i :: 0 <= i < |v.disk.value.records| ==> v.disk.value.records[i].status == Completed)
  {
    ExecKeeps(INITIAL, labels);
    var w := Exec(INITIAL, labels);
    forall i | 0 <= i < |w.calls|
      ensures w.process.state.records[i].status == Completed || w.process.state.records[i].status == Failed
    {
      assert SlotOkAt(w, i);
    }
  }

  // ----- what never changes -----

  /** `later` has the identity of `earlier`, and no slot lost an attempt or a recorded retry. */
  ghost predicate Extends(earlier: Option<Checkpoint>, later: Option<Checkpoint>) {
    earlier.Some? ==>
      && later.Some?
      && later.value.config == earlier.value.config && later.value.source == earlier.value.source
      && |later.value.records| == |earlier.value.records|
      && (forall i :: 0 <= i < |later.value.records| ==>
            RecordExtends(earlier.value.records[i], later.value.records[i]))
  }

  lemma ExtendsTransitive(a: Option<Checkpoint>, b: Option<Checkpoint>, c: Option<Checkpoint>)
    requires Extends(a, b) && Extends(b, c)
    ensures Extends(a, c)
  {
    if a.Some? {
      forall i | 0 <= i < |c.value.records| ensures RecordExtends(a.value.records[i], c.value.records[i]) {
        assert RecordExtends(a.value.records[i], b.value.records[i]);
        assert RecordExtends(b.value.records[i], c.value.records[i]);
      }
    }
  }

  /** The slot of a step only grows, in memory. */
  lemma OwnExtends(w: World, l: Label)
    requires Shaped(w) && WorkerStep(l) && Enabled(w, l)
    ensures
      var v, i := Step(w, l), l.slot;
      Shaped(v) && At(v, i) && At(w, i) && RecordExtends(w.process.state.records[i], v.process.state.records[i])
  {
    StepShaped(w, l);
  }

  /** One slot in one step: its saved record only grows. */
  lemma SlotExtends(w: World, l: Label, i: nat)
    requires Shaped(w) && Enabled(w, l) && w.disk.Some? && i < |w.calls| && SlotOkAt(w, i)
    ensures var v := Step(w, l); Shaped(v) && v.disk.Some? && i < |v.disk.value.records|
    ensures RecordExtends(w.disk.value.records[i], Step(w, l).disk.value.records[i])
  {
    StepShaped(w, l);
    if WorkerStep(l) {
      OtherSlots(w, l);
      OwnExtends(w, l);
    }
  }

  lemma StepExtends(w: World, l: Label)
    requires Inv(w)
    ensures Extends(w.disk, Step(w, l).disk)
  {
    if Enabled(w, l) && w.disk.Some? {
      forall i | 0 <= i < |w.calls|
        ensures i < |Step(w, l).disk.value.records|
        ensures RecordExtends(w.disk.value.records[i], Step(w, l).disk.value.records[i])
      {
        assert SlotOkAt(w, i);
        SlotExtends(w, l, i);
      }
      StepSource(w, l);
    }
  }

  lemma StepSource(w: World, l: Label)
    requires Shaped(w) && w.disk.Some?
    ensures
      var v := Step(w, l);
      v.disk.Some? && v.disk.value.config == w.disk.value.config && v.disk.value.source == w.disk.value.source &&
      |v.disk.value.records| == |w.disk.value.records|
  {
  }

  /** Over any continuation of any history the plan is frozen and nothing is taken back. */
  lemma {:induction false} NothingTakenBack(w: World, labels: seq<Label>)
    requires Inv(w)
    ensures Extends(w.disk, Exec(w, labels).disk)
    decreases |labels|
  {
    if labels != [] {
      var v := Step(w, labels[0]);
      StepKeeps(w, labels[0]);
      StepExtends(w, labels[0]);
      NothingTakenBack(v, labels[1..]);
      ExtendsTransitive(w.disk, v.disk, Exec(v, labels[1..]).disk);
    }
  }

  /** The checkpoint plans exactly the matrix of its own frozen configuration. */
  ghost predicate PlanKept(d: Option<Checkpoint>) {
    d.Some? ==> OnMatrix(d.value.config, d.value.records)
  }

  lemma StepPlanKept(w: World, l: Label)
    requires Inv(w) && PlanKept(w.disk)
    ensures PlanKept(Step(w, l).disk)
  {
    StepExtends(w, l);
    var v := Step(w, l);
    if w.disk.Some? {
      forall i | 0 <= i < |v.disk.value.records| ensures v.disk.value.records[i].slot == w.disk.value.records[i].slot {
        assert RecordExtends(w.disk.value.records[i], v.disk.value.records[i]);
      }
    }
  }

  lemma {:induction false} ExecPlanKept(w: World, labels: seq<Label>)
    requires Inv(w) && PlanKept(w.disk)
    ensures PlanKept(Exec(w, labels).disk)
    decreases |labels|
  {
    if labels != [] {
      StepKeeps(w, labels[0]);
      StepPlanKept(w, labels[0]);
      ExecPlanKept(Step(w, labels[0]), labels[1..]);
    }
  }

  /** No slot is ever added, dropped or renamed: the statistical denominator is the planned matrix. */
  lemma FixedDenominator(labels: seq<Label>)
    ensures PlanKept(Exec(INITIAL, labels).disk)
  {
    ExecPlanKept(INITIAL, labels);
  }
}
