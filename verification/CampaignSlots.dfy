/**
  What one run slot goes through: the value-level meaning of the state changes made under the lock in
  agent_forge/bench/application/campaign.py, the loop of `_run_slot`, and the facts every record keeps.
*/
module CampaignSlots {
  import opened CampaignDomain

  /** How one call of the runner, with the reading of its artifacts, can end. */
  datatype RunOutcome =
    | RunnerRaised(text: string)
    | DigestUnreadable(runId: string, runDir: string, text: string)
    | ScorecardUnreadable(runId: string, runDir: string, sha256: string, text: string)
    | RunFinished(runId: string, runDir: string, sha256: string, evidence: Evidence)

  /** A runner whose outcome depends only on the slot and the attempt number. */
  type Runner = (Slot, nat) -> RunOutcome

  /** `_mark_run_slot_started`. */
  function MarkStarted(r: Record): Record {
    r.(status := Running, attempts := r.attempts + 1, error := NoError)
  }

  /** `_fail_closed_started_slot`. */
  function FailClosed(r: Record): Record {
    r.(status := Failed, error := NoRerun(r.status, r.attempts))
  }

  /** Whether `_record_run_slot_completion` asks for the same slot to run again. */
  predicate RetriesInPlace(r: Record, o: RunOutcome, max: nat) {
    o.RunFinished? && Retryable(o.evidence.failureClass) && r.attempts < max
  }

  /** What recording a run has changed when one of its artifact reads raises. */
  function Partial(r: Record, o: RunOutcome): Record
    requires !o.RunFinished?
  {
    match o
    case RunnerRaised(_) => r
    case DigestUnreadable(runId, runDir, _) => r.(runId := runId, runDir := runDir)
    case ScorecardUnreadable(runId, runDir, sha256, _) =>
      r.(runId := runId, runDir := runDir, scorecardSha256 := sha256)
  }

  /** The `except` section of `_run_slot`. */
  function Caught(r: Record, text: string): Record {
    r.(status := Failed, error := RaisedError(text))
  }

  /** What one attempt leaves in the record, on the normal path and after the `except` section. */
  function Absorb(r: Record, o: RunOutcome, max: nat): Record {
    match o
    case RunFinished(runId, runDir, sha256, evidence) =>
      var known := r.(runId := runId, runDir := runDir, scorecardSha256 := sha256, error := NoError);
      if RetriesInPlace(r, o, max) then
        var plain := evidence.(retryExhausted := false);
        known.(evidence := plain,
               history := r.history + [AttemptEntry(r.attempts, runId, sha256, plain)],
               status := RetryPending,
               error := RetryScheduled(evidence.failureClass))
      else
        known.(evidence := evidence.(retryExhausted := Retryable(evidence.failureClass)), status := Completed)
    case _ => Caught(Partial(r, o), o.text)
  }

  function Room(attempts: nat, max: nat): nat {
    if attempts < max then max - attempts else 0
  }

  /** `_run_slot`: the whole loop of one slot. */
  function RunSlot(r: Record, runner: Runner, max: nat): Record
    decreases Room(r.attempts, max)
  {
    var started := MarkStarted(r);
    var outcome := runner(started.slot, started.attempts);
    var absorbed := Absorb(started, outcome, max);
    if RetriesInPlace(started, outcome, max) then RunSlot(absorbed, runner, max) else absorbed
  }

  /** The number of runner calls `_run_slot` makes. */
  function CallsOf(r: Record, runner: Runner, max: nat): nat
    decreases Room(r.attempts, max)
  {
    var started := MarkStarted(r);
    var outcome := runner(started.slot, started.attempts);
    if RetriesInPlace(started, outcome, max) then 1 + CallsOf(Absorb(started, outcome, max), runner, max) else 1
  }

  /** The most runner calls one invocation may spend on a slot that already has `attempts` attempts. */
  function CallBudget(attempts: nat, max: nat): nat {
    if attempts < max then max - attempts else 1
  }

  /** `run_campaign` leaves a record alone, fails it closed, or runs its slot. */
  datatype Plan = KeepCompleted | Refuse | RunIt

  function PlanFor(r: Record, rerunIncompleteSlots: bool): Plan {
    if r.status == Completed then KeepCompleted
    else if !rerunIncompleteSlots && r.attempts > 0 then Refuse
    else RunIt
  }

  /** What a whole invocation makes of one record when slots run one after another. */
  function Settle(r: Record, c: Config, runner: Runner): Record {
    match PlanFor(r, c.rerunIncompleteSlots)
    case KeepCompleted => r
    case Refuse => FailClosed(r)
    case RunIt => RunSlot(r, runner, c.maxInfrastructureAttempts)
  }

  // ----- what every record keeps -----

  ghost predicate HistoryIncreasing(h: seq<AttemptEntry>) {
    forall i, j :: 0 <= i < j < |h| ==> h[i].attempt < h[j].attempt
  }

  /** Recorded retries carry increasing attempt numbers below `max`; an exhausted retry is a spent budget. */
  ghost predicate RecordOk(r: Record, max: nat) {
    && (r.attempts == 0 <==> r.status == Pending)
    && HistoryIncreasing(r.history)
    && (forall i :: 0 <= i < |r.history| ==>
          1 <= r.history[i].attempt < max && r.history[i].attempt <= r.attempts &&
          Retryable(r.history[i].evidence.failureClass))
    && (r.status == Running ==> forall i :: 0 <= i < |r.history| ==> r.history[i].attempt < r.attempts)
    && (r.status == RetryPending ==>
          r.history != [] && r.history[|r.history| - 1] ==
          AttemptEntry(r.attempts, r.runId, r.scorecardSha256, r.evidence))
    && (r.status == Completed ==>
          (r.evidence.retryExhausted <==> Retryable(r.evidence.failureClass)) &&
          (r.evidence.retryExhausted ==> r.attempts >= max))
  }

  lemma MarkStartedKeeps(r: Record, max: nat)
    requires RecordOk(r, max)
    ensures RecordOk(MarkStarted(r), max)
  {
  }

  lemma FailClosedKeeps(r: Record, max: nat)
    requires RecordOk(r, max) && r.attempts > 0
    ensures RecordOk(FailClosed(r), max)
  {
  }

  lemma PartialKeeps(r: Record, o: RunOutcome, max: nat)
    requires RecordOk(r, max) && r.status == Running && !o.RunFinished?
    ensures RecordOk(Partial(r, o), max) && Partial(r, o).status == Running
    ensures Partial(r, o).attempts == r.attempts && Partial(r, o).history == r.history
  {
  }

  lemma CaughtKeeps(r: Record, text: string, max: nat)
    requires RecordOk(r, max) && r.attempts > 0
    ensures RecordOk(Caught(r, text), max)
  {
  }

  lemma AbsorbKeeps(r: Record, o: RunOutcome, max: nat)
    requires RecordOk(r, max) && r.status == Running
    ensures RecordOk(Absorb(r, o, max), max)
  {
  }

  /** Absorbing an attempt either settles the slot or keeps it for one more attempt within the budget. */
  lemma AbsorbSettles(r: Record, o: RunOutcome, max: nat)
    ensures
      var a := Absorb(r, o, max);
      && a.slot == r.slot && a.attempts == r.attempts && r.history <= a.history
      && (RetriesInPlace(r, o, max) <==> a.status == RetryPending)
      && (!RetriesInPlace(r, o, max) ==> (a.status == Completed || a.status == Failed) && a.history == r.history)
      && (a.status == RetryPending ==> r.attempts < max && |a.history| == |r.history| + 1)
  {
  }

  lemma {:induction false} IncreasingBounded(h: seq<AttemptEntry>, max: nat)
    requires HistoryIncreasing(h)
    requires forall i :: 0 <= i < |h| ==> 1 <= h[i].attempt < max
    ensures h != [] ==> |h| <= h[|h| - 1].attempt
    ensures |h| <= if max == 0 then 0 else max - 1
  {
    if h != [] { IncreasingBounded(h[..|h| - 1], h[|h| - 1].attempt); }
  }

  /** A slot is never recorded as retried more than max - 1 times. */
  lemma HistoryBound(r: Record, max: nat)
    requires RecordOk(r, max)
    ensures |r.history| <= if max == 0 then 0 else max - 1
  {
    IncreasingBounded(r.history, max);
  }

  /** The loop settles the slot, within the call budget, counting every call as an attempt. */
  lemma {:induction false} RunSlotSettles(r: Record, runner: Runner, max: nat)
    requires RecordOk(r, max)
    ensures
      var s := RunSlot(r, runner, max);
      && s.slot == r.slot && RecordOk(s, max)
      && (s.status == Completed || s.status == Failed)
      && s.attempts == r.attempts + CallsOf(r, runner, max)
      && |s.history| == |r.history| + CallsOf(r, runner, max) - 1
    ensures 1 <= CallsOf(r, runner, max) <= if r.attempts < max then max - r.attempts else 1
    decreases Room(r.attempts, max)
  {
    var started := MarkStarted(r);
    var outcome := runner(started.slot, started.attempts);
    MarkStartedKeeps(r, max);
    AbsorbKeeps(started, outcome, max);
    AbsorbSettles(started, outcome, max);
    if RetriesInPlace(started, outcome, max) {
      RunSlotSettles(Absorb(started, outcome, max), runner, max);
    }
  }

  // ----- what a slot ends with, told from the runner's answers -----

  /** The answer to attempt `n` is an infrastructure failure that leaves room for another attempt. */
  predicate AsksAgain(slot: Slot, n: nat, runner: Runner, max: nat) {
    var o := runner(slot, n);
    && o.RunFinished? && n < max
    && o.evidence.failureClass in {ProviderTransportError, OfficialEvaluationError, RunnerOrEnvironmentError}
  }

  /** A recorded retry is the answer to its attempt. */
  predicate Notes(entry: AttemptEntry, n: nat, o: RunOutcome) {
    && o.RunFinished? && entry.attempt == n && entry.runId == o.runId && entry.scorecardSha256 == o.sha256
    && entry.evidence == o.evidence.(retryExhausted := false)
  }

  /** A finished run completes the record with everything that the runner answered. */
  predicate Completes(s: Record, o: RunOutcome) {
    && o.RunFinished? && s.status == Completed && s.error == NoError
    && s.runId == o.runId && s.runDir == o.runDir && s.scorecardSha256 == o.sha256
    && s.evidence == o.evidence.(retryExhausted := o.evidence.failureClass in
         {ProviderTransportError, OfficialEvaluationError, RunnerOrEnvironmentError})
  }

  /** Any other run fails the record `p` left by the attempt before; what was read before the exception is kept. */
  predicate Fails(p: Record, s: Record, o: RunOutcome) {
    && !o.RunFinished? && s.status == Failed && s.error == RaisedError(o.text)
    && s.evidence == p.evidence
    && s.runId == (if o.RunnerRaised? then p.runId else o.runId)
    && s.runDir == (if o.RunnerRaised? then p.runDir else o.runDir)
    && s.scorecardSha256 == (if o.ScorecardUnreadable? then o.sha256 else p.scorecardSha256)
  }

  /** `p` holds what attempt `n` left: the record itself before the first attempt, and then that answer. */
  predicate LeftBy(r: Record, p: Record, n: nat, runner: Runner) {
    if n == r.attempts then p == r
    else
      var o := runner(r.slot, n);
      && o.RunFinished? && p.runId == o.runId && p.runDir == o.runDir && p.scorecardSha256 == o.sha256
      && p.evidence == o.evidence.(retryExhausted := false)
  }

  /** `s` is what `r` becomes when its slot runs, in terms of the answers to the attempts. */
  ghost predicate Ran(r: Record, s: Record, runner: Runner, max: nat) {
    && s.slot == r.slot && s.attempts > r.attempts
    && (forall n :: r.attempts < n < s.attempts ==> AsksAgain(r.slot, n, runner, max))
    && !AsksAgain(r.slot, s.attempts, runner, max)
    && r.history <= s.history && |s.history| == |r.history| + (s.attempts - r.attempts - 1)
    && (forall m :: |r.history| <= m < |s.history| ==>
          var n := r.attempts + 1 + (m - |r.history|);
          Notes(s.history[m], n, runner(r.slot, n)))
    && (Completes(s, runner(r.slot, s.attempts)) ||
        exists p :: LeftBy(r, p, s.attempts - 1, runner) && Fails(p, s, runner(r.slot, s.attempts)))
  }

  lemma AbsorbedOne(r: Record, runner: Runner, max: nat)
    ensures
      var started := MarkStarted(r);
      var o := runner(started.slot, started.attempts);
      var a := Absorb(started, o, max);
      && (RetriesInPlace(started, o, max) <==> AsksAgain(r.slot, r.attempts + 1, runner, max))
      && a.slot == r.slot && a.attempts == r.attempts + 1
      && (!RetriesInPlace(started, o, max) ==> a.history == r.history && (Completes(a, o) || Fails(r, a, o)))
      && (RetriesInPlace(started, o, max) ==>
            && |a.history| == |r.history| + 1 && r.history <= a.history
            && Notes(a.history[|r.history|], r.attempts + 1, o) && LeftBy(r, a, r.attempts + 1, runner))
  {
  }

  lemma RanAfterRetry(r: Record, a: Record, s: Record, runner: Runner, max: nat)
    requires a.slot == r.slot && a.attempts == r.attempts + 1 && AsksAgain(r.slot, a.attempts, runner, max)
    requires |a.history| == |r.history| + 1 && r.history <= a.history
    requires Notes(a.history[|r.history|], a.attempts, runner(r.slot, a.attempts)) && LeftBy(r, a, a.attempts, runner)
    requires Ran(a, s, runner, max)
    ensures Ran(r, s, runner, max)
  {
    assert s.history[|r.history|] == a.history[|r.history|];
    forall n | r.attempts < n < s.attempts ensures AsksAgain(r.slot, n, runner, max) {
      if n > a.attempts { assert AsksAgain(a.slot, n, runner, max); }
    }
    if !Completes(s, runner(r.slot, s.attempts)) {
      var p :| LeftBy(a, p, s.attempts - 1, runner) && Fails(p, s, runner(r.slot, s.attempts));
      assert LeftBy(r, p, s.attempts - 1, runner);
    }
  }

  lemma {:induction false} RunSlotRan(r: Record, runner: Runner, max: nat)
    ensures Ran(r, RunSlot(r, runner, max), runner, max)
    decreases Room(r.attempts, max)
  {
    var started := MarkStarted(r);
    var o := runner(started.slot, started.attempts);
    var a := Absorb(started, o, max);
    AbsorbedOne(r, runner, max);
    if RetriesInPlace(started, o, max) {
      RunSlotRan(a, runner, max);
      RanAfterRetry(r, a, RunSlot(a, runner, max), runner, max);
    } else {
      assert LeftBy(r, r, r.attempts, runner);
    }
  }

  lemma RanUnique(r: Record, s: Record, t: Record, runner: Runner, max: nat)
    requires Ran(r, s, runner, max) && Ran(r, t, runner, max)
    ensures s == t
  {
    assert s.attempts == t.attempts by {
      assert s.attempts < t.attempts ==> AsksAgain(r.slot, s.attempts, runner, max);
      assert t.attempts < s.attempts ==> AsksAgain(r.slot, t.attempts, runner, max);
    }
    forall m | 0 <= m < |s.history| ensures s.history[m] == t.history[m] {
      if m < |r.history| { assert s.history[m] == r.history[m] && t.history[m] == r.history[m]; }
    }
    assert s.history == t.history;
  }

  /** The loop of `_run_slot` leaves exactly the record that the answers of the runner call for. */
  lemma RunSlotIff(r: Record, s: Record, runner: Runner, max: nat)
    ensures s == RunSlot(r, runner, max) <==> Ran(r, s, runner, max)
  {
    RunSlotRan(r, runner, max);
    if Ran(r, s, runner, max) { RanUnique(r, s, RunSlot(r, runner, max), runner, max); }
  }

  /**
    What a whole invocation makes of a record: a completed one stays, a started one under the strict policy
    is refused and keeps all it had, and any other one runs.
  */
  lemma SettleIff(r: Record, s: Record, c: Config, runner: Runner)
    ensures s == Settle(r, c, runner) <==>
      if r.status == Completed then s == r
      else if r.attempts > 0 && !c.rerunIncompleteSlots then
        s == Record(r.slot, Failed, r.attempts, r.runId, r.runDir, r.scorecardSha256, r.evidence, r.history,
                    NoRerun(r.status, r.attempts))
      else Ran(r, s, runner, c.maxInfrastructureAttempts)
  {
    RunSlotIff(r, s, runner, c.maxInfrastructureAttempts);
  }
}
