/**
  `RunBenchmarkCampaign` with one worker: mutable slot records, a mutable campaign state, and the
  checkpoint file.  With one worker and saves that succeed nothing comes between a completion section that
  raises and its `except` section, so every turn of a slot ends with one save; `CampaignMachine` has both
  sections as steps of their own, and saves that raise.
*/
module CampaignRunner {
  import opened Wrappers
  import opened CampaignDomain
  import opened CampaignSlots
  import CampaignMatrix

  class CampaignRunRecord {
    const slot: Slot
    var status: RunStatus
    var attempts: nat
    var runId: string
    var runDir: string
    var scorecardSha256: string
    var evidence: Evidence
    var history: seq<AttemptEntry>
    var error: SlotError

    constructor (r: Record)
      ensures Value() == r
    {
      slot, status, attempts := r.slot, r.status, r.attempts;
      runId, runDir, scorecardSha256 := r.runId, r.runDir, r.scorecardSha256;
      evidence, history, error := r.evidence, r.history, r.error;
    }

    function Value(): Record
      reads this
    {
      Record(slot, status, attempts, runId, runDir, scorecardSha256, evidence, history, error)
    }
  }

  function Values(records: seq<CampaignRunRecord>): (v: seq<Record>)
    reads records
    ensures |v| == |records| && forall i :: 0 <= i < |records| ==> v[i] == records[i].Value()
  {
    if records == [] then [] else [records[0].Value()] + Values(records[1..])
  }

  /** One new object per value. */
  method BuildRecords(values: seq<Record>) returns (records: seq<CampaignRunRecord>)
    ensures fresh(records) && Values(records) == values
    ensures forall j, k :: 0 <= j < k < |records| ==> records[j] != records[k]
  {
    records := [];
    for i := 0 to |values|
      invariant |records| == i && fresh(records)
      invariant forall j :: 0 <= j < i ==> records[j].Value() == values[j]
      invariant forall j, k :: 0 <= j < k < i ==> records[j] != records[k]
    {
      var record := new CampaignRunRecord(values[i]);
      records := records + [record];
    }
  }

  class CampaignState {
    const config: Config
    const source: Source
    const records: seq<CampaignRunRecord>
    var status: CampaignStatus

    constructor (config: Config, source: Source, records: seq<CampaignRunRecord>, status: CampaignStatus)
      ensures this.config == config && this.source == source && this.records == records && this.status == status
    {
      this.config, this.source, this.records, this.status := config, source, records, status;
    }

    /** The list holds different objects, so changing one record leaves the others alone. */
    ghost predicate Valid() {
      forall i, j :: 0 <= i < j < |records| ==> records[i] != records[j]
    }

    function Value(): Checkpoint
      reads this, records
    {
      Checkpoint(config, source, Values(records), status)
    }
  }

  /** New objects for a whole checkpoint. */
  method BuildState(value: Checkpoint) returns (state: CampaignState)
    ensures fresh(state) && fresh(state.records) && state.Valid() && state.Value() == value
  {
    var records := BuildRecords(value.records);
    state := new CampaignState(value.config, value.source, records, value.status);
  }

  /** `campaign.json`: saving replaces the whole file, loading builds new objects from it. */
  class CampaignFiles {
    var saved: Option<Checkpoint>

    constructor ()
      ensures saved == None
    {
      saved := None;
    }

    method SaveState(state: CampaignState)
      modifies this
      ensures saved == Some(state.Value())
    {
      saved := Some(state.Value());
    }

    method LoadState() returns (state: CampaignState?)
      ensures saved.None? <==> state == null
      ensures state != null ==>
        fresh(state) && fresh(state.records) && state.Valid() && state.Value() == saved.value
    {
      if saved.None? { return null; }
      state := BuildState(saved.value);
    }
  }

  datatype Request = Request(config: Config, resume: bool, allowDirty: bool)

  datatype CampaignError = DirtySource | ResumeDisabled | ConfigurationChanged

  /** The checkpoint an invocation starts from: the saved one, or the freshly enumerated matrix. */
  ghost predicate StartsFrom(saved: Option<Checkpoint>, c: Config, source: Source, start: Checkpoint) {
    if saved.Some? then start == saved.value
    else start.config == c && start.source == source && start.status == CampaignRunning &&
         CampaignMatrix.IsMatrix(c, start.records)
  }

  ghost predicate Rejects(saved: Option<Checkpoint>, request: Request, source: Source, e: CampaignError) {
    if source.dirty && !request.allowDirty then e == DirtySource
    else if saved.Some? && !request.resume then e == ResumeDisabled
    else saved.Some? && (saved.value.config != request.config || saved.value.source != source) &&
         e == ConfigurationChanged
  }

  ghost predicate Accepts(saved: Option<Checkpoint>, request: Request, source: Source) {
    && (source.dirty ==> request.allowDirty)
    && (saved.Some? ==> request.resume && saved.value.config == request.config && saved.value.source == source)
  }

  ghost predicate Settled(start: seq<Record>, c: Config, runner: Runner, end: seq<Record>) {
    |end| == |start| && forall i :: 0 <= i < |start| ==> end[i] == Settle(start[i], c, runner)
  }

  class RunBenchmarkCampaign {
    const runner: Runner
    const files: CampaignFiles
    const sourceIdentity: Source

    constructor (runner: Runner, files: CampaignFiles, sourceIdentity: Source)
      ensures this.runner == runner && this.files == files && this.sourceIdentity == sourceIdentity
    {
      this.runner, this.files, this.sourceIdentity := runner, files, sourceIdentity;
    }

    method MarkRunSlotStarted(record: CampaignRunRecord, state: CampaignState)
      requires record in state.records
      modifies record, state, files
      ensures record.Value() == MarkStarted(old(record.Value()))
      ensures record.status == Running && record.attempts == old(record.attempts) + 1 && record.error == NoError
      ensures unchanged(record`runId, record`runDir, record`scorecardSha256, record`evidence, record`history)
      ensures state.status == CampaignRunning && files.saved == Some(state.Value())
    {
      record.status := Running;
      record.attempts := record.attempts + 1;
      record.error := NoError;
      state.status := CampaignRunning;
      files.SaveState(state);
    }

    method FailClosedStartedSlot(record: CampaignRunRecord, state: CampaignState)
      requires record in state.records
      modifies record, state, files
      ensures record.Value() == FailClosed(old(record.Value()))
      ensures record.status == Failed && record.error == NoRerun(old(record.status), old(record.attempts))
      ensures unchanged(record`attempts, record`runId, record`runDir, record`scorecardSha256, record`evidence,
                        record`history)
      ensures state.status == CampaignRunning && files.saved == Some(state.Value())
    {
      var previousStatus := record.status;
      record.status := Failed;
      record.error := NoRerun(previousStatus, record.attempts);
      state.status := CampaignRunning;
      files.SaveState(state);
    }

    /** `_record_run_slot_completion` on a finished run; its two artifact reads may raise before the end. */
    method RecordRunSlotCompletion(record: CampaignRunRecord, run: RunOutcome, max: nat)
      returns (result: Result<bool, string>)
      requires !run.RunnerRaised?
      modifies record
      ensures result == (if run.RunFinished? then Success(RetriesInPlace(old(record.Value()), run, max))
                         else Failure(run.text))
      ensures run.RunFinished? ==> record.Value() == Absorb(old(record.Value()), run, max)
      ensures !run.RunFinished? ==> record.Value() == Partial(old(record.Value()), run)
      ensures record.runId == run.runId && record.runDir == run.runDir && unchanged(record`attempts)
      ensures record.scorecardSha256 == if run.DigestUnreadable? then old(record.scorecardSha256) else run.sha256
      ensures !run.RunFinished? ==> unchanged(record`evidence, record`status, record`error, record`history)
      ensures run.RunFinished? ==>
        var failure := run.evidence.failureClass;
        var infrastructure :=
          failure in {ProviderTransportError, OfficialEvaluationError, RunnerOrEnvironmentError};
        var retries := infrastructure && record.attempts < max;
        && record.evidence == run.evidence.(retryExhausted := infrastructure && !retries)
        && record.status == (if retries then RetryPending else Completed)
        && record.error == (if retries then RetryScheduled(failure) else NoError)
        && record.history == old(record.history) +
             if retries then [AttemptEntry(record.attempts, run.runId, run.sha256, record.evidence)] else []
    {
      record.runId := run.runId;
      record.runDir := run.runDir;
      if run.DigestUnreadable? { return Failure(run.text); }
      record.scorecardSha256 := run.sha256;
      if run.ScorecardUnreadable? { return Failure(run.text); }
      record.evidence := run.evidence.(retryExhausted := false);
      record.error := NoError;
      var failure := record.evidence.failureClass;
      if Retryable(failure) && record.attempts < max {
        record.history :=
          record.history + [AttemptEntry(record.attempts, record.runId, record.scorecardSha256, record.evidence)];
        record.status := RetryPending;
        record.error := RetryScheduled(failure);
        return Success(true);
      }
      record.status := Completed;
      if Retryable(failure) {
        record.evidence := record.evidence.(retryExhausted := true);
      }
      return Success(false);
    }

    /** The `try` statement of `_run_slot` without its saves: call the runner and record what it returned. */
    method RunAttempt(record: CampaignRunRecord, max: nat) returns (retrySameSlot: bool)
      modifies record
      ensures
        var started := old(record.Value());
        var run := runner(started.slot, started.attempts);
        record.Value() == Absorb(started, run, max) && (retrySameSlot <==> RetriesInPlace(started, run, max))
    {
      var run := runner(record.slot, record.attempts);
      if run.RunnerRaised? {
        record.status := Failed;
        record.error := RaisedError(run.text);
        return false;
      }
      var result := RecordRunSlotCompletion(record, run, max);
      if result.Failure? {
        record.status := Failed;
        record.error := RaisedError(result.error);
        return false;
      }
      return result.value;
    }

    /** One turn of the loop in `_run_slot`: mark, call, record. */
    method RunOnce(record: CampaignRunRecord, state: CampaignState) returns (retrySameSlot: bool)
      requires record in state.records
      modifies record, state, files
      ensures
        var started, max := MarkStarted(old(record.Value())), state.config.maxInfrastructureAttempts;
        var run := runner(started.slot, started.attempts);
        record.Value() == Absorb(started, run, max) && (retrySameSlot <==> RetriesInPlace(started, run, max))
      ensures state.status == CampaignRunning && files.saved == Some(state.Value())
    {
      MarkRunSlotStarted(record, state);
      retrySameSlot := RunAttempt(record, state.config.maxInfrastructureAttempts);
      files.SaveState(state);
    }

    /** `_run_slot`: repeat while the record asks for an in-place retry. */
    method RunSlotLoop(record: CampaignRunRecord, state: CampaignState)
      requires record in state.records
      modifies record, state, files
      ensures record.Value() == RunSlot(old(record.Value()), runner, state.config.maxInfrastructureAttempts)
      ensures state.status == CampaignRunning && files.saved == Some(state.Value())
    {
      var max := state.config.maxInfrastructureAttempts;
      var retrySameSlot := true;
      while retrySameSlot
        invariant retrySameSlot ==>
          RunSlot(record.Value(), runner, max) == RunSlot(old(record.Value()), runner, max)
        invariant !retrySameSlot ==>
          record.Value() == RunSlot(old(record.Value()), runner, max) &&
          state.status == CampaignRunning && files.saved == Some(state.Value())
        decreases retrySameSlot, Room(record.attempts, max)
      {
        retrySameSlot := RunOnce(record, state);
      }
    }

    /** A new campaign: the enumerated matrix, saved. */
    method CreateState(config: Config) returns (state: CampaignState)
      modifies files
      ensures fresh(state) && fresh(state.records) && state.Valid()
      ensures files.saved == Some(state.Value())
      ensures StartsFrom(None, config, sourceIdentity, state.Value())
    {
      var planned := CampaignMatrix.BuildCampaignRecords(config);
      state := BuildState(Checkpoint(config, sourceIdentity, planned, CampaignRunning));
      files.SaveState(state);
    }

    /** `_load_or_create_state`. */
    method LoadOrCreateState(request: Request) returns (result: Result<CampaignState, CampaignError>)
      requires !(sourceIdentity.dirty && !request.allowDirty)
      modifies files
      ensures result.Failure? ==>
        files.saved == old(files.saved) && Rejects(files.saved, request, sourceIdentity, result.error)
      ensures result.Success? ==>
        var state := result.value;
        && fresh(state) && fresh(state.records) && state.Valid()
        && state.config == request.config && state.source == sourceIdentity
        && files.saved == Some(state.Value())
        && StartsFrom(old(files.saved), request.config, sourceIdentity, state.Value())
        && (old(files.saved).None? ==> state.status == CampaignRunning)
        && Accepts(old(files.saved), request, sourceIdentity)
    {
      var existing := files.LoadState();
      if existing != null {
        if !request.resume { return Failure(ResumeDisabled); }
        if existing.config != request.config || existing.source != sourceIdentity {
          return Failure(ConfigurationChanged);
        }
        return Success(existing);
      }
      var state := CreateState(request.config);
      return Success(state);
    }

    /** Record number `i` fails closed; the others keep their values. */
    method FailClosedAt(state: CampaignState, i: nat)
      requires state.Valid() && i < |state.records|
      modifies state.records[i], state, files
      ensures Values(state.records) == old(Values(state.records))[i := FailClosed(old(state.records[i].Value()))]
      ensures files.saved == Some(state.Value())
    {
      FailClosedStartedSlot(state.records[i], state);
    }

    /** Slot number `i` runs to its end; the others keep their values. */
    method RunSlotAt(state: CampaignState, record: CampaignRunRecord, ghost i: nat)
      requires state.Valid() && i < |state.records| && record == state.records[i]
      modifies record, state, files
      ensures Values(state.records) == old(Values(state.records))[
        i := RunSlot(old(record.Value()), runner, state.config.maxInfrastructureAttempts)]
      ensures files.saved == Some(state.Value())
    {
      RunSlotLoop(record, state);
    }

    /** One turn of the first pass. */
    method ScanSlot(state: CampaignState, i: nat, ghost start: seq<Record>) returns (runs: bool)
      requires state.Valid() && files.saved == Some(state.Value())
      requires i < |state.records| == |start| && Values(state.records) == ScanUpTo(start, i, state.config)
      modifies state, state.records[i], files
      ensures Values(state.records) == ScanUpTo(start, i + 1, state.config)
      ensures files.saved == Some(state.Value())
      ensures runs <==> PlanFor(start[i], state.config.rerunIncompleteSlots) == RunIt
    {
      ScanStep(start, i, state.config);
      var plan := PlanFor(state.records[i].Value(), state.config.rerunIncompleteSlots);
      if plan == Refuse {
        FailClosedAt(state, i);
      }
      runs := plan == RunIt;
    }

    /**
      The first pass of `run_campaign`.  Matrix records are numbered in list order, so visiting the
      list is visiting by ordinal.
    */
    method ScanSlots(state: CampaignState) returns (runnable: seq<CampaignRunRecord>)
      requires state.Valid() && files.saved == Some(state.Value())
      modifies state, state.records, files
      ensures AfterScan(old(Values(state.records)), Values(state.records), state.config)
      ensures runnable == Pick(state.records, RunnablePositions(old(Values(state.records)), state.config))
      ensures files.saved == Some(state.Value())
    {
      ghost var start := Values(state.records);
      runnable := [];
      for i := 0 to |state.records|
        invariant Values(state.records) == ScanUpTo(start, i, state.config)
        invariant runnable == Pick(state.records, RunnablePositions(start[..i], state.config))
        invariant files.saved == Some(state.Value())
      {
        RunnablePositionsStep(state.records, start, state.config, i);
        var runs := ScanSlot(state, i, start);
        runnable := if runs then runnable + [state.records[i]] else runnable;
      }
      ScanEnd(start, state.config);
    }

    /** The one-worker branch: the runnable slots one after another. */
    method RunRunnable(state: CampaignState, runnable: seq<CampaignRunRecord>, ghost positions: seq<nat>)
      requires state.Valid() && files.saved == Some(state.Value())
      requires forall m :: 0 <= m < |positions| ==> positions[m] < |state.records|
      requires runnable == Pick(state.records, positions)
      modifies state, state.records, files
      ensures Values(state.records) == RunAt(old(Values(state.records)), positions, state.config, runner)
      ensures files.saved == Some(state.Value())
    {
      ghost var scanned := Values(state.records);
      for m := 0 to |runnable|
        invariant Values(state.records) == RunAt(scanned, positions[..m], state.config, runner)
        invariant files.saved == Some(state.Value())
      {
        RunAtStep(scanned, positions, m, state.config, runner);
        RunSlotAt(state, runnable[m], positions[m]);
      }
      assert positions[..|positions|] == positions;
    }

    /** Region 2 of `run_campaign`: settle every slot. */
    method SettleAll(state: CampaignState)
      requires state.Valid() && files.saved == Some(state.Value())
      modifies state, state.records, files
      ensures Settled(old(Values(state.records)), state.config, runner, Values(state.records))
      ensures files.saved == Some(state.Value())
    {
      ghost var start := Values(state.records);
      var runnable := ScanSlots(state);
      ghost var scanned := Values(state.records);
      RunRunnable(state, runnable, RunnablePositions(start, state.config));
      RunAtSettles(start, scanned, state.config, runner);
    }

    /** The start of region 3: the campaign is completed exactly when every single slot is, and that is saved. */
    method CloseCampaign(state: CampaignState)
      modifies state`status, files
      ensures state.status == CampaignCompleted <==>
        forall i :: 0 <= i < |state.records| ==> state.records[i].status == Completed
      ensures state.status == CampaignCompleted || state.status == CampaignCompletedWithFailures
      ensures files.saved == Some(state.Value())
    {
      var allCompleted := true;
      for i := 0 to |state.records|
        invariant allCompleted <==> forall j :: 0 <= j < i ==> state.records[j].status == Completed
      {
        if state.records[i].status != Completed { allCompleted := false; }
      }
      state.status := if allCompleted then CampaignCompleted else CampaignCompletedWithFailures;
      files.SaveState(state);
    }

    /** Closing leaves the records alone, so the checkpoint has the status that they say. */
    method CloseSettled(state: CampaignState) returns (end: Checkpoint)
      modifies state`status, files
      ensures files.saved == Some(end)
      ensures end == Checkpoint(state.config, state.source, old(Values(state.records)),
                                FinalStatus(old(Values(state.records))))
    {
      CloseCampaign(state);
      ClosedStatus(state);
      end := state.Value();
    }

    /** Regions 2 and 3 on a loaded state. */
    method RunLoaded(state: CampaignState) returns (end: Checkpoint)
      requires state.Valid() && files.saved == Some(state.Value())
      modifies state, state.records, files
      ensures files.saved == Some(end)
      ensures end.config == state.config && end.source == state.source && end.status == FinalStatus(end.records)
      ensures Settled(old(Values(state.records)), state.config, runner, end.records)
    {
      SettleAll(state);
      end := CloseSettled(state);
    }

    /** `run_campaign` up to the final save, with `max_parallel_slots == 1`. */
    method RunCampaign(request: Request)
      returns (result: Result<Checkpoint, CampaignError>, ghost start: Checkpoint)
      requires request.config.maxParallelSlots == 1
      modifies files
      ensures result.Success? <==> Accepts(old(files.saved), request, sourceIdentity)
      ensures result.Failure? ==>
        files.saved == old(files.saved) && Rejects(old(files.saved), request, sourceIdentity, result.error)
      ensures
        var saved := old(files.saved);
        if sourceIdentity.dirty && !request.allowDirty then result == Failure(DirtySource)
        else if saved.Some? && !request.resume then result == Failure(ResumeDisabled)
        else if saved.Some? && (saved.value.config != request.config || saved.value.source != sourceIdentity) then
          result == Failure(ConfigurationChanged)
        else result.Success?
      ensures result.Success? ==>
        && files.saved == Some(result.value)
        && result.value.config == request.config && result.value.source == sourceIdentity
        && result.value.status == FinalStatus(result.value.records)
        && StartsFrom(old(files.saved), request.config, sourceIdentity, start)
        && Settled(start.records, request.config, runner, result.value.records)
    {
      start := Checkpoint(request.config, sourceIdentity, [], CampaignRunning);
      if sourceIdentity.dirty && !request.allowDirty {
        result := Failure(DirtySource);
        return;
      }
      var loaded := LoadOrCreateState(request);
      if loaded.Failure? {
        result := Failure(loaded.error);
        return;
      }
      var state := loaded.value;
      start := state.Value();
      var end := RunLoaded(state);
      result := Success(end);
    }
  }

  /** What `CloseCampaign` says of the objects, said of their values. */
  lemma ClosedStatus(state: CampaignState)
    requires state.status == CampaignCompleted || state.status == CampaignCompletedWithFailures
    requires state.status == CampaignCompleted <==>
      forall i :: 0 <= i < |state.records| ==> state.records[i].status == Completed
    ensures state.status == FinalStatus(Values(state.records))
  {
    assert forall i :: 0 <= i < |state.records| ==> Values(state.records)[i].status == state.records[i].status;
  }

  /** What the first pass of `run_campaign` makes of one record. */
  function Scanned(r: Record, c: Config): Record {
    if PlanFor(r, c.rerunIncompleteSlots) == Refuse then FailClosed(r) else r
  }

  ghost predicate AfterScan(start: seq<Record>, now: seq<Record>, c: Config) {
    |now| == |start| && forall j :: 0 <= j < |start| ==> now[j] == Scanned(start[j], c)
  }

  function ScanUpTo(start: seq<Record>, i: nat, c: Config): (r: seq<Record>)
    ensures |r| == |start| && forall j :: 0 <= j < |r| ==> r[j] == if j < i then Scanned(start[j], c) else start[j]
  {
    seq(|start|, j requires 0 <= j < |start| => if j < i then Scanned(start[j], c) else start[j])
  }

  lemma ScanStep(start: seq<Record>, i: nat, c: Config)
    requires i < |start|
    ensures ScanUpTo(start, i, c)[i] == start[i]
    ensures ScanUpTo(start, i + 1, c) == ScanUpTo(start, i, c)[i := Scanned(start[i], c)]
  {
  }

  /** The records after the slots at `positions` have run, one after another. */
  function RunAt(records: seq<Record>, positions: seq<nat>, c: Config, runner: Runner): (r: seq<Record>)
    requires forall m :: 0 <= m < |positions| ==> positions[m] < |records|
    ensures |r| == |records|
  {
    if positions == [] then records
    else
      var last := |positions| - 1;
      var before := RunAt(records, positions[..last], c, runner);
      before[positions[last] := RunSlot(before[positions[last]], runner, c.maxInfrastructureAttempts)]
  }

  lemma RunAtStep(records: seq<Record>, positions: seq<nat>, m: nat, c: Config, runner: Runner)
    requires forall l :: 0 <= l < |positions| ==> positions[l] < |records|
    requires m < |positions|
    ensures
      var before, i := RunAt(records, positions[..m], c, runner), positions[m];
      RunAt(records, positions[..m + 1], c, runner) ==
      before[i := RunSlot(before[i], runner, c.maxInfrastructureAttempts)]
  {
    assert positions[..m + 1][..m] == positions[..m];
  }

  lemma {:induction false} RunAtEach(records: seq<Record>, positions: seq<nat>, c: Config, runner: Runner, j: nat)
    requires forall m :: 0 <= m < |positions| ==> positions[m] < |records|
    requires forall l, m :: 0 <= l < m < |positions| ==> positions[l] < positions[m]
    requires j < |records|
    ensures RunAt(records, positions, c, runner)[j] ==
      if j in positions then RunSlot(records[j], runner, c.maxInfrastructureAttempts) else records[j]
  {
    if positions != [] {
      var last := |positions| - 1;
      assert positions == positions[..last] + [positions[last]];
      RunAtEach(records, positions[..last], c, runner, j);
    }
  }

  lemma RunAtSettles(start: seq<Record>, scanned: seq<Record>, c: Config, runner: Runner)
    requires AfterScan(start, scanned, c)
    ensures Settled(start, c, runner, RunAt(scanned, RunnablePositions(start, c), c, runner))
  {
    RunnablePositionsFacts(start, c);
    forall j | 0 <= j < |start|
      ensures RunAt(scanned, RunnablePositions(start, c), c, runner)[j] == Settle(start[j], c, runner)
    {
      RunAtEach(scanned, RunnablePositions(start, c), c, runner, j);
    }
  }

  /** The list positions, in order, of the records that must run. */
  function RunnablePositions(start: seq<Record>, c: Config): (p: seq<nat>)
    ensures forall m :: 0 <= m < |p| ==> p[m] < |start|
  {
    if start == [] then []
    else
      var last := |start| - 1;
      RunnablePositions(start[..last], c) +
      (if PlanFor(start[last], c.rerunIncompleteSlots) == RunIt then [last] else [])
  }

  function Pick(records: seq<CampaignRunRecord>, positions: seq<nat>): (p: seq<CampaignRunRecord>)
    requires forall m :: 0 <= m < |positions| ==> positions[m] < |records|
    ensures |p| == |positions| && forall m :: 0 <= m < |p| ==> p[m] == records[positions[m]]
  {
    seq(|positions|, m requires 0 <= m < |positions| => records[positions[m]])
  }

  lemma {:induction false} RunnablePositionsFacts(start: seq<Record>, c: Config)
    ensures
      var p := RunnablePositions(start, c);
      && (forall l, m :: 0 <= l < m < |p| ==> p[l] < p[m])
      && (forall j :: 0 <= j < |start| ==> (j in p <==> PlanFor(start[j], c.rerunIncompleteSlots) == RunIt))
  {
    if start != [] {
      RunnablePositionsFacts(start[..|start| - 1], c);
    }
  }

  lemma RunnablePositionsStep(records: seq<CampaignRunRecord>, start: seq<Record>, c: Config, i: nat)
    requires i < |start| == |records|
    ensures Pick(records, RunnablePositions(start[..i + 1], c)) ==
      Pick(records, RunnablePositions(start[..i], c)) +
      (if PlanFor(start[i], c.rerunIncompleteSlots) == RunIt then [records[i]] else [])
  {
    assert start[..i + 1][..i] == start[..i];
  }

  lemma ScanEnd(start: seq<Record>, c: Config)
    ensures start[..|start|] == start && AfterScan(start, ScanUpTo(start, |start|, c), c)
  {
  }
}
