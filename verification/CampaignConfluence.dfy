/**
  Worker scheduling does not matter: for a runner that depends only on slot and attempt, every
  interleaving of one invocation settles every slot as the one-worker loop does, after a bounded
  number of steps.
*/
module CampaignConfluence {
  import opened Wrappers
  import opened CampaignDomain
  import opened CampaignSlots
  import opened CampaignMachine
  import CampaignMatrix
  import CampaignRunner

  // ----- what is still going to happen to a slot -----

  /** The record a slot ends with, foretold from where it stands now. */
  function Foretold(c: Config, r: Record, pc: Pc, runner: Runner): Record {
    var max := c.maxInfrastructureAttempts;
    match pc
    case Unscanned => Settle(r, c, runner)
    case Queued => RunSlot(r, runner, max)
    case Marked | InFlight =>
      var o := runner(r.slot, r.attempts);
      if RetriesInPlace(r, o, max) then RunSlot(Absorb(r, o, max), runner, max) else Absorb(r, o, max)
    case Raising(text) => Caught(r, text)
    case Skipped | Done | Dead => r
  }

  /** The runner calls a slot is still going to need. */
  function CallsAhead(c: Config, r: Record, pc: Pc, runner: Runner): nat {
    var max := c.maxInfrastructureAttempts;
    match pc
    case Unscanned => if PlanFor(r, c.rerunIncompleteSlots) == RunIt then CallsOf(r, runner, max) else 0
    case Queued => CallsOf(r, runner, max)
    case Marked | InFlight =>
      var o := runner(r.slot, r.attempts);
      (if pc == Marked then 1 else 0) +
      (if RetriesInPlace(r, o, max) then CallsOf(Absorb(r, o, max), runner, max) else 0)
    case Raising(_) | Skipped | Done | Dead => 0
  }

  /** A step of a worker or of the first pass, recording only what the runner returns; its save succeeds. */
  ghost predicate Works(w: World, l: Label, runner: Runner)
    requires Shaped(w)
  {
    match l
    case Scan(_) | Call(_) => true
    case Mark(_, save) => save.Took?
    case Finish(i, o, save) =>
      save.Took? && (w.process.Active? && i < |w.process.state.records| ==>
        o == runner(w.process.state.records[i].slot, w.process.state.records[i].attempts))
    case Except(_, save) => save.Took?
    case _ => false
  }

  ghost predicate IsSchedule(w: World, labels: seq<Label>, runner: Runner)
    requires Shaped(w)
    decreases |labels|
  {
    labels == [] ||
    (Works(w, labels[0], runner) && (StepShaped(w, labels[0]); IsSchedule(Step(w, labels[0]), labels[1..], runner)))
  }

  function ForetoldAt(w: World, i: nat, runner: Runner): Record
    requires Shaped(w) && w.process.Active? && i < |w.process.pcs|
  {
    Foretold(w.process.state.config, w.process.state.records[i], w.process.pcs[i], runner)
  }

  function TotalCallsAt(w: World, i: nat, runner: Runner): nat
    requires Shaped(w) && w.process.Active? && i < |w.process.pcs|
  {
    w.process.spent[i] + CallsAhead(w.process.state.config, w.process.state.records[i], w.process.pcs[i], runner)
  }

  /** `v` foretells the same end as `w` for every slot. */
  ghost predicate SameFate(w: World, v: World, runner: Runner)
    requires Shaped(w) && Shaped(v)
  {
    && w.process.Active? && v.process.Active?
    && v.process.state.config == w.process.state.config && v.process.state.source == w.process.state.source
    && |v.process.pcs| == |w.process.pcs|
    && forall i :: 0 <= i < |w.process.pcs| ==>
         ForetoldAt(v, i, runner) == ForetoldAt(w, i, runner) &&
         TotalCallsAt(v, i, runner) == TotalCallsAt(w, i, runner)
  }

  lemma MarkFate(c: Config, r: Record, runner: Runner)
    ensures Foretold(c, MarkStarted(r), Marked, runner) == Foretold(c, r, Queued, runner)
    ensures CallsAhead(c, MarkStarted(r), Marked, runner) == CallsAhead(c, r, Queued, runner)
  {
  }

  lemma ScanFate(c: Config, r: Record, runner: Runner)
    ensures
      var plan := PlanFor(r, c.rerunIncompleteSlots);
      var pc := if plan == RunIt then Queued else Skipped;
      var s := if plan == Refuse then FailClosed(r) else r;
      Foretold(c, s, pc, runner) == Foretold(c, r, Unscanned, runner) &&
      CallsAhead(c, s, pc, runner) == CallsAhead(c, r, Unscanned, runner)
  {
  }

  lemma FinishFate(c: Config, r: Record, runner: Runner)
    requires runner(r.slot, r.attempts).RunFinished?
    ensures
      var max, o := c.maxInfrastructureAttempts, runner(r.slot, r.attempts);
      var pc := if RetriesInPlace(r, o, max) then Queued else Done;
      Foretold(c, Absorb(r, o, max), pc, runner) == Foretold(c, r, InFlight, runner) &&
      CallsAhead(c, Absorb(r, o, max), pc, runner) == CallsAhead(c, r, InFlight, runner)
  {
  }

  lemma RaiseFate(c: Config, r: Record, runner: Runner)
    requires !runner(r.slot, r.attempts).RunFinished?
    ensures
      var o := runner(r.slot, r.attempts);
      Foretold(c, Partial(r, o), Raising(o.text), runner) == Foretold(c, r, InFlight, runner) &&
      CallsAhead(c, Partial(r, o), Raising(o.text), runner) == CallsAhead(c, r, InFlight, runner)
  {
  }

  /** The slot of a step. */
  lemma OwnFate(w: World, l: Label, runner: Runner)
    requires Shaped(w) && w.process.Active? && Works(w, l, runner) && Enabled(w, l)
    ensures
      var v, i := Step(w, l), l.slot;
      Shaped(v) && At(v, i) && ForetoldAt(v, i, runner) == ForetoldAt(w, i, runner) &&
      TotalCallsAt(v, i, runner) == TotalCallsAt(w, i, runner)
  {
    StepShaped(w, l);
    var c, r := w.process.state.config, w.process.state.records[l.slot];
    match l
    case Scan(_) => ScanFate(c, r, runner);
    case Mark(_, _) => MarkFate(c, r, runner);
    case Finish(_, _, _) =>
      if runner(r.slot, r.attempts).RunFinished? { FinishFate(c, r, runner); } else { RaiseFate(c, r, runner); }
    case _ =>
  }

  lemma StepFate(w: World, l: Label, runner: Runner)
    requires Shaped(w) && w.process.Active? && Works(w, l, runner)
    ensures Shaped(Step(w, l)) && SameFate(w, Step(w, l), runner)
  {
    StepShaped(w, l);
    if Enabled(w, l) {
      OwnFate(w, l, runner);
      OtherSlots(w, l);
      var v := Step(w, l);
      forall i | 0 <= i < |w.process.pcs|
        ensures ForetoldAt(v, i, runner) == ForetoldAt(w, i, runner)
        ensures TotalCallsAt(v, i, runner) == TotalCallsAt(w, i, runner)
      {
        if i != l.slot { assert v.process.pcs[i] == w.process.pcs[i]; }
      }
    }
  }

  lemma {:induction false} ScheduleFate(w: World, labels: seq<Label>, runner: Runner)
    requires Shaped(w) && w.process.Active? && IsSchedule(w, labels, runner)
    ensures SameFate(w, Exec(w, labels), runner)
    decreases |labels|
  {
    if labels != [] {
      StepFate(w, labels[0], runner);
      ScheduleFate(Step(w, labels[0]), labels[1..], runner);
    }
  }

  /** The world in which an invocation has just loaded `start`. */
  ghost predicate Fresh(w: World, start: Checkpoint) {
    && Shaped(w) && w.process.Active? && w.process.state == start
    && forall i :: 0 <= i < |w.process.pcs| ==> w.process.pcs[i] == Unscanned && w.process.spent[i] == 0
  }

  /**
    Any interleaving that settles every slot ends with the records of the one-worker run of
    `CampaignRunner.RunBenchmarkCampaign.RunCampaign`, saves exactly those, and calls the runner as often.
  */
  lemma Confluence(w: World, start: Checkpoint, labels: seq<Label>, runner: Runner, oneWorker: seq<Record>)
    requires Fresh(w, start) && IsSchedule(w, labels, runner)
    requires Exec(w, labels).process.Active? ==> AllSettled(Exec(w, labels).process.pcs)
    requires CampaignRunner.Settled(start.records, start.config, runner, oneWorker)
    ensures
      var v := Step(Exec(w, labels), Return);
      && v.process.Idle?
      && v.disk == Some(Checkpoint(start.config, start.source, oneWorker, FinalStatus(oneWorker)))
    ensures
      var v := Exec(w, labels);
      && v.process.Active? && |v.process.spent| == |start.records|
      && forall i :: 0 <= i < |start.records| ==>
           v.process.spent[i] == CallsAhead(start.config, start.records[i], Unscanned, runner)
  {
    ScheduleFate(w, labels, runner);
    var v := Exec(w, labels);
    forall i | 0 <= i < |oneWorker| ensures v.process.state.records[i] == oneWorker[i] {
      assert ForetoldAt(v, i, runner) == ForetoldAt(w, i, runner);
    }
    assert v.process.state.records == oneWorker;
    forall i | 0 <= i < |start.records|
      ensures v.process.spent[i] == CallsAhead(start.config, start.records[i], Unscanned, runner)
    {
      assert TotalCallsAt(v, i, runner) == TotalCallsAt(w, i, runner);
    }
  }

  /**
    The worlds that `Confluence` starts from are those in which an invocation has begun: no process runs, the
    source is clean or dirty sources are allowed, and a saved campaign is resumed for the same experiment.
  */
  lemma BeginIsFresh(w: World, request: CampaignRunner.Request, source: Source, start: Checkpoint)
    requires Shaped(w) && Enabled(w, Begin(request, source))
    requires CampaignRunner.StartsFrom(w.disk, request.config, source, start)
    ensures Fresh(Step(w, Begin(request, source)), start)
    ensures start.config == request.config && start.source == source
    ensures w.process.Idle? && (source.dirty ==> request.allowDirty)
    ensures
      match w.disk
      case Some(saved) => request.resume && saved.config == request.config && saved.source == source && start == saved
      case None => start.status == CampaignRunning
  {
    StepShaped(w, Begin(request, source));
    if w.disk.None? {
      CampaignMatrix.MatrixUnique(request.config, start.records, CampaignMatrix.PlannedRecords(request.config));
    }
  }

  /**
    After any history, an accepted request leaves exactly the checkpoint that `RunCampaign` of the one-worker
    class leaves for it, whatever the number of workers and however their steps interleave.
  */
  lemma InvocationConfluence(history: seq<Label>, request: CampaignRunner.Request, source: Source, start: Checkpoint,
                             labels: seq<Label>, runner: Runner, oneWorker: seq<Record>)
    requires Enabled(Exec(INITIAL, history), Begin(request, source))
    requires CampaignRunner.StartsFrom(Exec(INITIAL, history).disk, request.config, source, start)
    requires CampaignRunner.Settled(start.records, request.config, runner, oneWorker)
    requires IsSchedule(Exec(INITIAL, history + [Begin(request, source)]), labels, runner)
    requires
      var v := Exec(INITIAL, history + [Begin(request, source)] + labels);
      v.process.Active? ==> AllSettled(v.process.pcs)
    ensures
      Exec(INITIAL, history + [Begin(request, source)] + labels + [Return]).disk ==
      Some(Checkpoint(request.config, source, oneWorker, FinalStatus(oneWorker)))
  {
    var begin := Begin(request, source);
    BeginIsFresh(Exec(INITIAL, history), request, source, start);
    ExecConcat(INITIAL, history, [begin]);
    ExecOne(Exec(INITIAL, history), begin);
    ExecConcat(INITIAL, history + [begin], labels);
    ExecConcat(INITIAL, history + [begin] + labels, [Return]);
    ExecOne(Exec(INITIAL, history + [begin] + labels), Return);
    Confluence(Exec(INITIAL, history + [begin]), start, labels, runner, oneWorker);
  }

  // ----- the invocation ends -----

  /** An upper bound on the steps a slot still takes. */
  function StepsLeft(pc: Pc, attempts: nat, max: nat): nat {
    match pc
    case Unscanned => 5 + 4 * Room(attempts + 1, max)
    case Queued => 4 + 4 * Room(attempts + 1, max)
    case Marked => 3 + 4 * Room(attempts, max)
    case InFlight => 2 + 4 * Room(attempts, max)
    case Raising(_) => 1
    case Skipped | Done | Dead => 0
  }

  function Work(records: seq<Record>, pcs: seq<Pc>, max: nat): nat
    requires |records| == |pcs|
  {
    if records == [] then 0
    else Work(records[1..], pcs[1..], max) + StepsLeft(pcs[0], records[0].attempts, max)
  }

  lemma {:induction false} WorkUpdate(records: seq<Record>, pcs: seq<Pc>, max: nat, i: nat, r: Record, pc: Pc)
    requires |records| == |pcs| && i < |records|
    ensures Work(records[i := r], pcs[i := pc], max) + StepsLeft(pcs[i], records[i].attempts, max) ==
            Work(records, pcs, max) + StepsLeft(pc, r.attempts, max)
  {
    if i > 0 {
      WorkUpdate(records[1..], pcs[1..], max, i - 1, r, pc);
      assert records[i := r][1..] == records[1..][i - 1 := r];
      assert pcs[i := pc][1..] == pcs[1..][i - 1 := pc];
    } else {
      assert records[i := r][1..] == records[1..];
      assert pcs[i := pc][1..] == pcs[1..];
    }
  }

  function WorkOf(w: World): nat
    requires Shaped(w) && w.process.Active?
  {
    Work(w.process.state.records, w.process.pcs, w.process.state.config.maxInfrastructureAttempts)
  }

  /** A step touches one slot only. */
  lemma StepLocal(w: World, l: Label)
    requires Shaped(w) && w.process.Active? && WorkerStep(l) && Enabled(w, l)
    ensures
      var v := Step(w, l);
      && Shaped(v) && v.process.Active? && v.process.state.config == w.process.state.config
      && l.slot < |w.process.pcs| == |v.process.pcs|
      && v.process.state.records == w.process.state.records[l.slot := v.process.state.records[l.slot]]
      && v.process.pcs == w.process.pcs[l.slot := v.process.pcs[l.slot]]
  {
    StepShaped(w, l);
  }

  /** A step brings its slot closer to the end. */
  lemma StepDrops(w: World, l: Label)
    requires Shaped(w) && w.process.Active? && WorkerStep(l) && Enabled(w, l)
    ensures
      var v, i, max := Step(w, l), l.slot, w.process.state.config.maxInfrastructureAttempts;
      && Shaped(v) && v.process.Active? && i < |w.process.pcs| == |v.process.pcs|
      && StepsLeft(v.process.pcs[i], v.process.state.records[i].attempts, max) <
         StepsLeft(w.process.pcs[i], w.process.state.records[i].attempts, max)
  {
    StepShaped(w, l);
    if l.Finish? && l.outcome.RunFinished? {
      FinishDrops(w.process.state.records[l.slot], l.outcome, w.process.state.config.maxInfrastructureAttempts);
    }
  }

  /** A finished run that asks for a retry has room for it. */
  lemma FinishDrops(r: Record, o: RunOutcome, max: nat)
    requires o.RunFinished?
    ensures
      var pc := if RetriesInPlace(r, o, max) then Queued else Done;
      StepsLeft(pc, Absorb(r, o, max).attempts, max) < StepsLeft(InFlight, r.attempts, max)
  {
  }

  lemma StepWork(w: World, l: Label)
    requires Shaped(w) && w.process.Active? && WorkerStep(l) && Enabled(w, l)
    ensures Shaped(Step(w, l)) && Step(w, l).process.Active? && WorkOf(Step(w, l)) < WorkOf(w)
  {
    StepLocal(w, l);
    StepDrops(w, l);
    var v, i := Step(w, l), l.slot;
    WorkUpdate(w.process.state.records, w.process.pcs, w.process.state.config.maxInfrastructureAttempts, i,
               v.process.state.records[i], v.process.pcs[i]);
  }

  /** The number of steps of a schedule that do something. */
  ghost function Moves(w: World, labels: seq<Label>): nat
    requires Shaped(w)
    decreases |labels|
  {
    if labels == [] then 0
    else
      StepShaped(w, labels[0]);
      (if Enabled(w, labels[0]) then 1 else 0) + Moves(Step(w, labels[0]), labels[1..])
  }

  /** The workers never move more often than the work there was at the start: no invocation runs forever. */
  lemma {:induction false} Terminates(w: World, labels: seq<Label>)
    requires Shaped(w) && w.process.Active? && forall i :: 0 <= i < |labels| ==> WorkerStep(labels[i])
    ensures Exec(w, labels).process.Active?
    ensures Moves(w, labels) + WorkOf(Exec(w, labels)) <= WorkOf(w)
    decreases |labels|
  {
    if labels != [] {
      StepShaped(w, labels[0]);
      if Enabled(w, labels[0]) { StepWork(w, labels[0]); }
      Terminates(Step(w, labels[0]), labels[1..]);
    }
  }

  lemma {:induction false} FirstUnscanned(pcs: seq<Pc>) returns (i: nat)
    requires !AllScanned(pcs)
    ensures i < |pcs| && pcs[i] == Unscanned && forall j :: 0 <= j < i ==> pcs[j] != Unscanned
  {
    if pcs[0] == Unscanned {
      i := 0;
    } else {
      i := FirstUnscanned(pcs[1..]);
      i := i + 1;
    }
  }

  /** A slot that is neither settled nor left by a task that ended with an exception. */
  predicate Unsettled(pc: Pc) {
    pc != Skipped && pc != Done && pc != Dead
  }

  /** While some slot is unsettled a step is possible, so no interleaving gets stuck. */
  lemma NeverStuck(w: World, runner: Runner) returns (l: Label)
    requires Shaped(w) && w.process.Active?
    requires exists i :: 0 <= i < |w.process.pcs| && Unsettled(w.process.pcs[i])
    ensures Works(w, l, runner) && Enabled(w, l)
  {
    if !AllScanned(w.process.pcs) {
      var i := FirstUnscanned(w.process.pcs);
      l := Scan(i);
    } else {
      var i :| 0 <= i < |w.process.pcs| && Unsettled(w.process.pcs[i]);
      var r := w.process.state.records[i];
      l := match w.process.pcs[i]
           case Queued => Mark(i, Took)
           case Marked => Call(i)
           case Raising(_) => Except(i, Took)
           case _ => Finish(i, runner(r.slot, r.attempts), Took);
    }
  }
}
