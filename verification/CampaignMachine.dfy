/**
  The campaign as a step system: any number of worker threads, a crash at any point, saves that raise,
  any number of resumed invocations.

  Every shared-state change of the source happens under one lock and is one step here.  A step that
  saves copies the whole volatile state to the checkpoint file; a save that raises leaves the file as it
  was.  Calling the runner is a step of its own, taken without the lock, and so is the `except` section
  of a slot, which takes the lock again.  A label that is not enabled leaves the world as it is, so a
  statement about every sequence of labels is a statement about every history.
*/
module CampaignMachine {
  import opened Wrappers
  import opened CampaignDomain
  import opened CampaignSlots
  import opened CampaignMatrix
  import opened CampaignRunner

  /** Where the invocation stands with one slot. */
  datatype Pc =
    | Unscanned              // the first pass has not reached it
    | Skipped                // already completed, or failed closed
    | Queued                 // waiting to be marked as started
    | Marked                 // saved as running, runner not called yet
    | InFlight               // runner called, result not recorded yet
    | Raising(text: string)  // an exception is on its way to the `except` section
    | Done                   // recorded as completed or failed
    | Dead                   // a save outside the `try` raised and ended the slot's task

  /** `state` is what the process holds in memory. */
  datatype Process =
    | Idle
    | Active(state: Checkpoint, pcs: seq<Pc>, entry: seq<nat>, spent: seq<nat>)

  /**
    `disk` is the checkpoint file and `calls` counts the runner calls per slot since the campaign
    was created.  Inside an invocation, `entry` holds the attempts it found and `spent` its own calls.
  */
  datatype World = World(disk: Option<Checkpoint>, process: Process, calls: seq<nat>)

  const INITIAL: World := World(None, Idle, [])

  datatype Save = Took | Failing(text: string)

  /** A save that raises in the first pass or at the end stops the process, which is what `Crash` does. */
  datatype Label =
    | Begin(request: Request, source: Source)
    | Scan(slot: nat)
    | Mark(slot: nat, save: Save)
    | Call(slot: nat)
    | Finish(slot: nat, outcome: RunOutcome, save: Save)
    | Except(slot: nat, save: Save)
    | Return
    | Crash

  function Zeros(n: nat): (z: seq<nat>)
    ensures |z| == n && forall i :: 0 <= i < n ==> z[i] == 0
  {
    seq(n, i => 0)
  }

  function Attempts(records: seq<Record>): (a: seq<nat>)
    ensures |a| == |records| && forall i :: 0 <= i < |a| ==> a[i] == records[i].attempts
  {
    seq(|records|, i requires 0 <= i < |records| => records[i].attempts)
  }

  /** The sizes that belong together. */
  ghost predicate Shaped(w: World) {
    && (w.process.Active? ==>
          && w.disk.Some?
          && |w.process.pcs| == |w.process.entry| == |w.process.spent| == |w.process.state.records|
          && |w.disk.value.records| == |w.process.state.records|
          && w.disk.value.config == w.process.state.config && w.disk.value.source == w.process.state.source)
    && (w.disk.Some? ==> |w.calls| == |w.disk.value.records|)
  }

  ghost predicate AllScanned(pcs: seq<Pc>) {
    forall i :: 0 <= i < |pcs| ==> pcs[i] != Unscanned
  }

  ghost predicate AllSettled(pcs: seq<Pc>) {
    forall i :: 0 <= i < |pcs| ==> pcs[i] == Skipped || pcs[i] == Done
  }

  predicate At(w: World, i: nat) {
    w.process.Active? && i < |w.process.pcs|
  }

  /** Change record `i` and its program counter in memory, and mark the campaign running. */
  function Change(w: World, i: nat, r: Record, pc: Pc): World
    requires Shaped(w) && At(w, i)
  {
    var state := w.process.state.(records := w.process.state.records[i := r], status := CampaignRunning);
    w.(process := w.process.(state := state, pcs := w.process.pcs[i := pc]))
  }

  /** The same change, saved. */
  function Commit(w: World, i: nat, r: Record, pc: Pc): World
    requires Shaped(w) && At(w, i)
  {
    var v := Change(w, i, r, pc);
    v.(disk := Some(v.process.state))
  }

  function SetPc(w: World, i: nat, pc: Pc): World
    requires Shaped(w) && At(w, i)
  {
    w.(process := w.process.(pcs := w.process.pcs[i := pc]))
  }

  ghost predicate Enabled(w: World, l: Label)
    requires Shaped(w)
  {
    match l
    case Begin(request, source) =>
      w.process.Idle? && ValidConfig(request.config) && Accepts(w.disk, request, source)
    case Scan(i) =>
      At(w, i) && w.process.pcs[i] == Unscanned && forall j :: 0 <= j < i ==> w.process.pcs[j] != Unscanned
    case Mark(i, _) => At(w, i) && AllScanned(w.process.pcs) && w.process.pcs[i] == Queued
    case Call(i) => At(w, i) && w.process.pcs[i] == Marked
    case Finish(i, _, _) => At(w, i) && w.process.pcs[i] == InFlight
    case Except(i, _) => At(w, i) && w.process.pcs[i].Raising?
    case Return => w.process.Active? && AllSettled(w.process.pcs)
    case Crash => w.process.Active?
  }

  function BeginWith(w: World, request: Request, source: Source): World {
    var start := if w.disk.Some? then w.disk.value
                 else Checkpoint(request.config, source, PlannedRecords(request.config), CampaignRunning);
    var n := |start.records|;
    World(Some(start), Active(start, seq(n, i => Unscanned), Attempts(start.records), Zeros(n)),
          if w.disk.Some? then w.calls else Zeros(n))
  }

  function ScanAt(w: World, i: nat): World
    requires Shaped(w) && At(w, i)
  {
    var c, r := w.process.state.config, w.process.state.records[i];
    match PlanFor(r, c.rerunIncompleteSlots)
    case KeepCompleted => SetPc(w, i, Skipped)
    case Refuse => Commit(w, i, FailClosed(r), Skipped)
    case RunIt => SetPc(w, i, Queued)
  }

  /** The mark is saved outside the `try`: when that raises, the task of the slot ends without calling the runner. */
  function MarkAt(w: World, i: nat, save: Save): World
    requires Shaped(w) && At(w, i)
  {
    var r := MarkStarted(w.process.state.records[i]);
    if save.Took? then Commit(w, i, r, Marked) else Change(w, i, r, Dead)
  }

  function CallAt(w: World, i: nat): World
    requires Shaped(w) && At(w, i)
  {
    var v := SetPc(w, i, InFlight);
    v.(calls := w.calls[i := w.calls[i] + 1],
       process := v.process.(spent := w.process.spent[i := w.process.spent[i] + 1]))
  }

  /** The completion section; whatever raises in it leaves its changes in memory, unsaved. */
  function FinishAt(w: World, i: nat, o: RunOutcome, save: Save): World
    requires Shaped(w) && At(w, i)
  {
    var r, max := w.process.state.records[i], w.process.state.config.maxInfrastructureAttempts;
    if !o.RunFinished? then Change(w, i, Partial(r, o), Raising(o.text))
    else if save.Failing? then Change(w, i, Absorb(r, o, max), Raising(save.text))
    else Commit(w, i, Absorb(r, o, max), if RetriesInPlace(r, o, max) then Queued else Done)
  }

  /** The `except` section. */
  function ExceptAt(w: World, i: nat, save: Save): World
    requires Shaped(w) && At(w, i) && w.process.pcs[i].Raising?
  {
    var r := Caught(w.process.state.records[i], w.process.pcs[i].text);
    if save.Took? then Commit(w, i, r, Done) else Change(w, i, r, Dead)
  }

  ghost function Step(w: World, l: Label): World
    requires Shaped(w)
  {
    if !Enabled(w, l) then w else
    match l
    case Begin(request, source) => BeginWith(w, request, source)
    case Scan(i) => ScanAt(w, i)
    case Mark(i, save) => MarkAt(w, i, save)
    case Call(i) => CallAt(w, i)
    case Finish(i, o, save) => FinishAt(w, i, o, save)
    case Except(i, save) => ExceptAt(w, i, save)
    case Return =>
      w.(disk := Some(w.process.state.(status := FinalStatus(w.process.state.records))), process := Idle)
    case Crash => w.(process := Idle)
  }

  lemma StepShaped(w: World, l: Label)
    requires Shaped(w)
    ensures Shaped(Step(w, l))
  {
  }

  /** A step of the first pass or of a worker, whatever the runner returns and whether or not the save raises. */
  predicate WorkerStep(l: Label) {
    l.Scan? || l.Mark? || l.Call? || l.Finish? || l.Except?
  }

  /** A worker's step leaves the other slots as they are in memory, and on disk unless it saves. */
  lemma OtherSlots(w: World, l: Label)
    requires Shaped(w) && WorkerStep(l) && Enabled(w, l)
    ensures
      var v := Step(w, l);
      && Shaped(v) && v.process.Active? && |v.process.pcs| == |w.process.pcs| && l.slot < |w.process.pcs|
      && v.process.state.config == w.process.state.config && v.process.state.source == w.process.state.source
      && (forall i :: 0 <= i < |w.process.pcs| && i != l.slot ==>
            v.process.pcs[i] == w.process.pcs[i] && v.process.spent[i] == w.process.spent[i] &&
            v.process.state.records[i] == w.process.state.records[i])
      && (v.disk == w.disk || v.disk == Some(v.process.state))
  {
    StepShaped(w, l);
  }

  ghost function Exec(w: World, labels: seq<Label>): (v: World)
    requires Shaped(w)
    ensures Shaped(v)
    decreases |labels|
  {
    if labels == [] then w
    else
      StepShaped(w, labels[0]);
      Exec(Step(w, labels[0]), labels[1..])
  }

  lemma {:induction false} ExecConcat(w: World, a: seq<Label>, b: seq<Label>)
    requires Shaped(w)
    ensures Exec(w, a + b) == Exec(Exec(w, a), b)
    decreases |a|
  {
    if a == [] {
      assert a + b == b;
    } else {
      StepShaped(w, a[0]);
      ExecConcat(Step(w, a[0]), a[1..], b);
      assert (a + b)[1..] == a[1..] + b;
    }
  }

  lemma ExecOne(w: World, l: Label)
    requires Shaped(w)
    ensures Exec(w, [l]) == Step(w, l)
  {
    StepShaped(w, l);
    assert [l][1..] == [];
    assert Exec(Step(w, l), []) == Step(w, l);
  }
}
