/**
  Where the evidence in the checkpoint comes from: over every history a completed record, and every
  recorded retry, holds exactly what a runner call for this slot and this attempt returned.
*/
module CampaignEvidence {
  import opened Wrappers
  import opened CampaignDomain
  import opened CampaignSlots
  import opened CampaignMachine
  import CampaignMatrix
  import opened CampaignSafety

  /** Some completion section of the history received `o` as the answer to attempt `n` of slot `i`. */
  ghost predicate Answered(labels: seq<Label>, i: nat, n: nat, o: RunOutcome)
    decreases |labels|
  {
    labels != [] &&
    var before, last := labels[..|labels| - 1], labels[|labels| - 1];
    var w := Exec(INITIAL, before);
    Answered(before, i, n, o) ||
    (last.Finish? && last.slot == i && last.outcome == o && Enabled(w, last) &&
     w.process.state.records[i].attempts == n)
  }

  /** What a completed record says is what the answer to its last attempt said. */
  ghost predicate CompletionTold(labels: seq<Label>, i: nat, r: Record) {
    r.status == Completed ==>
      && r.error == NoError
      && exists e: Evidence ::
           && Answered(labels, i, r.attempts, RunFinished(r.runId, r.runDir, r.scorecardSha256, e))
           && r.evidence == e.(retryExhausted := e.failureClass in
                {ProviderTransportError, OfficialEvaluationError, RunnerOrEnvironmentError})
  }

  /** A recorded retry is the answer to its own attempt. */
  ghost predicate RetryTold(labels: seq<Label>, i: nat, entry: AttemptEntry) {
    exists runDir: string, e: Evidence ::
      && Answered(labels, i, entry.attempt, RunFinished(entry.runId, runDir, entry.scorecardSha256, e))
      && entry.evidence == e.(retryExhausted := false)
  }

  ghost predicate Told(labels: seq<Label>, i: nat, r: Record) {
    && CompletionTold(labels, i, r)
    && forall m :: 0 <= m < |r.history| ==> RetryTold(labels, i, r.history[m])
  }

  ghost predicate ToldAt(labels: seq<Label>, w: World, i: nat)
    requires Shaped(w) && w.disk.Some? && i < |w.calls|
  {
    Told(labels, i, w.disk.value.records[i]) && Told(labels, i, RecordAt(w, i))
  }

  ghost predicate AllTold(labels: seq<Label>, w: World) {
    Shaped(w) && (w.disk.Some? ==> forall i :: 0 <= i < |w.calls| ==> ToldAt(labels, w, i))
  }

  lemma AnsweredLater(labels: seq<Label>, l: Label, i: nat, n: nat, o: RunOutcome)
    requires Answered(labels, i, n, o)
    ensures Answered(labels + [l], i, n, o)
  {
    assert (labels + [l])[..|labels|] == labels;
  }

  lemma ToldLater(labels: seq<Label>, l: Label, i: nat, r: Record)
    requires Told(labels, i, r)
    ensures Told(labels + [l], i, r)
  {
    if r.status == Completed {
      var e :| Answered(labels, i, r.attempts, RunFinished(r.runId, r.runDir, r.scorecardSha256, e))
        && r.evidence == e.(retryExhausted := e.failureClass in
             {ProviderTransportError, OfficialEvaluationError, RunnerOrEnvironmentError});
      AnsweredLater(labels, l, i, r.attempts, RunFinished(r.runId, r.runDir, r.scorecardSha256, e));
    }
    forall m | 0 <= m < |r.history| ensures RetryTold(labels + [l], i, r.history[m]) {
      assert RetryTold(labels, i, r.history[m]);
      var entry := r.history[m];
      var runDir, e :| Answered(labels, i, entry.attempt, RunFinished(entry.runId, runDir, entry.scorecardSha256, e))
        && entry.evidence == e.(retryExhausted := false);
      AnsweredLater(labels, l, i, entry.attempt, RunFinished(entry.runId, runDir, entry.scorecardSha256, e));
    }
  }

  /** A change that completes nothing and records no retry. */
  lemma ToldSame(labels: seq<Label>, i: nat, r: Record, s: Record)
    requires Told(labels, i, r) && s.history == r.history && s.status != Completed
    ensures Told(labels, i, s)
  {
    assert forall m :: 0 <= m < |r.history| ==> RetryTold(labels, i, r.history[m]);
  }

  /** Recording a finished run. */
  lemma ToldAbsorb(labels: seq<Label>, i: nat, r: Record, o: RunOutcome, max: nat)
    requires Told(labels, i, r) && o.RunFinished? && Answered(labels, i, r.attempts, o)
    ensures Told(labels, i, Absorb(r, o, max))
  {
    var a := Absorb(r, o, max);
    assert o == RunFinished(a.runId, a.runDir, a.scorecardSha256, o.evidence);
    forall m | 0 <= m < |a.history| ensures RetryTold(labels, i, a.history[m]) {
      if m < |r.history| { assert RetryTold(labels, i, r.history[m]) && a.history[m] == r.history[m]; }
    }
  }

  /** What a step does to the record of its slot in memory. */
  lemma OwnChange(w: World, l: Label)
    requires Inv(w) && w.process.Active? && WorkerStep(l) && Enabled(w, l) && l.slot < |w.calls|
    ensures Shaped(Step(w, l)) && At(Step(w, l), l.slot)
    ensures
      var r, s := w.process.state.records[l.slot], Step(w, l).process.state.records[l.slot];
      if l.Finish? && l.outcome.RunFinished? then
        s == Absorb(r, l.outcome, w.process.state.config.maxInfrastructureAttempts)
      else s == r || (s.history == r.history && s.status != Completed)
  {
    StepShaped(w, l);
    assert SlotOkAt(w, l.slot);
  }

  lemma AnsweredNow(labels: seq<Label>, l: Label)
    requires l.Finish? && Enabled(Exec(INITIAL, labels), l)
    ensures Answered(labels + [l], l.slot, Exec(INITIAL, labels).process.state.records[l.slot].attempts, l.outcome)
  {
    assert (labels + [l])[..|labels|] == labels;
  }

  /** The slot of a step, in memory. */
  lemma OwnTold(labels: seq<Label>, l: Label)
    requires WorkerStep(l) && Enabled(Exec(INITIAL, labels), l) && Inv(Exec(INITIAL, labels))
    requires Exec(INITIAL, labels).process.Active?
    requires l.slot < |Exec(INITIAL, labels).calls|
    requires Told(labels, l.slot, Exec(INITIAL, labels).process.state.records[l.slot])
    ensures
      var v := Step(Exec(INITIAL, labels), l);
      Shaped(v) && At(v, l.slot) && Told(labels + [l], l.slot, v.process.state.records[l.slot])
  {
    var w, i := Exec(INITIAL, labels), l.slot;
    OwnChange(w, l);
    var r, s := w.process.state.records[i], Step(w, l).process.state.records[i];
    ToldLater(labels, l, i, r);
    if l.Finish? && l.outcome.RunFinished? {
      AnsweredNow(labels, l);
      ToldAbsorb(labels + [l], i, r, l.outcome, w.process.state.config.maxInfrastructureAttempts);
    } else if s != r {
      ToldSame(labels + [l], i, r, s);
    }
  }

  lemma WorkerTold(labels: seq<Label>, l: Label, i: nat)
    requires WorkerStep(l) && Enabled(Exec(INITIAL, labels), l) && Inv(Exec(INITIAL, labels))
    requires Exec(INITIAL, labels).process.Active? && i < |Exec(INITIAL, labels).calls|
    requires ToldAt(labels, Exec(INITIAL, labels), i)
    ensures var v := Step(Exec(INITIAL, labels), l); Shaped(v) && v.disk.Some? && i < |v.calls|
    ensures ToldAt(labels + [l], Step(Exec(INITIAL, labels), l), i)
  {
    var w := Exec(INITIAL, labels);
    OtherSlots(w, l);
    ToldLater(labels, l, i, w.disk.value.records[i]);
    ToldLater(labels, l, i, w.process.state.records[i]);
    if i == l.slot { OwnTold(labels, l); }
  }

  lemma FreshTold(labels: seq<Label>, i: nat, r: Record)
    requires r.status == Pending && r.history == []
    ensures Told(labels, i, r)
  {
  }

  lemma RestTold(labels: seq<Label>, l: Label, i: nat)
    requires !WorkerStep(l) && Enabled(Exec(INITIAL, labels), l) && Inv(Exec(INITIAL, labels))
    requires AllTold(labels, Exec(INITIAL, labels))
    requires var v := Step(Exec(INITIAL, labels), l); Shaped(v) && v.disk.Some? && i < |v.calls|
    ensures ToldAt(labels + [l], Step(Exec(INITIAL, labels), l), i)
  {
    var w := Exec(INITIAL, labels);
    if w.disk.Some? {
      assert ToldAt(labels, w, i);
      ToldLater(labels, l, i, w.disk.value.records[i]);
      ToldLater(labels, l, i, RecordAt(w, i));
    } else {
      CampaignMatrix.NothingElse(l.request.config, CampaignMatrix.PlannedRecords(l.request.config));
      FreshTold(labels + [l], i, Step(w, l).disk.value.records[i]);
    }
  }

  lemma StepTold(labels: seq<Label>, l: Label)
    requires Inv(Exec(INITIAL, labels)) && AllTold(labels, Exec(INITIAL, labels))
    ensures AllTold(labels + [l], Step(Exec(INITIAL, labels), l))
  {
    var w := Exec(INITIAL, labels);
    StepShaped(w, l);
    var v := Step(w, l);
    if v.disk.Some? {
      forall i | 0 <= i < |v.calls| ensures ToldAt(labels + [l], v, i) {
        if !Enabled(w, l) {
          assert ToldAt(labels, w, i);
          ToldLater(labels, l, i, w.disk.value.records[i]);
          ToldLater(labels, l, i, RecordAt(w, i));
        } else if WorkerStep(l) {
          OtherSlots(w, l);
          assert ToldAt(labels, w, i);
          WorkerTold(labels, l, i);
        } else {
          RestTold(labels, l, i);
        }
      }
    }
  }

  lemma {:induction false} ExecTold(labels: seq<Label>)
    ensures AllTold(labels, Exec(INITIAL, labels))
    decreases |labels|
  {
    if labels != [] {
      var before, last := labels[..|labels| - 1], labels[|labels| - 1];
      assert labels == before + [last];
      ExecTold(before);
      ExecKeeps(INITIAL, before);
      StepTold(before, last);
      ExecConcat(INITIAL, before, [last]);
      ExecOne(Exec(INITIAL, before), last);
    }
  }

  /**
    Over any history: a record saved as completed carries the run id, directory, digest and evidence that
    the runner returned for its last attempt, and each recorded retry those of its own attempt.
  */
  lemma SavedEvidenceIsAnswered(labels: seq<Label>, i: nat)
    requires var w := Exec(INITIAL, labels); w.disk.Some? && i < |w.disk.value.records|
    ensures Told(labels, i, Exec(INITIAL, labels).disk.value.records[i])
  {
    ExecTold(labels);
    assert ToldAt(labels, Exec(INITIAL, labels), i);
  }

  // ----- the runner calls of a history -----

  /** How often the history called the runner for slot `i`. */
  ghost function CallsMade(labels: seq<Label>, i: nat): nat
    decreases |labels|
  {
    if labels == [] then 0
    else
      var before, last := labels[..|labels| - 1], labels[|labels| - 1];
      CallsMade(before, i) + if last == Call(i) && Enabled(Exec(INITIAL, before), last) then 1 else 0
  }

  lemma CallsStep(w: World, l: Label, i: nat)
    requires Shaped(w)
    ensures
      var v := Step(w, l);
      && (v.disk.None? ==> w.disk.None?)
      && (w.disk.Some? && i < |w.calls| ==>
            i < |v.calls| && v.calls[i] == w.calls[i] + if l == Call(i) && Enabled(w, l) then 1 else 0)
      && (w.disk.None? && v.disk.Some? && i < |v.calls| ==> v.calls[i] == 0)
      && (w.disk.None? && l == Call(i) ==> !Enabled(w, l))
      && (w.disk.Some? ==> |v.calls| == |w.calls|)
  {
    StepShaped(w, l);
  }

  /** `calls` counts the runner calls of the whole history, over all its invocations. */
  lemma {:induction false} CallsAreCounted(labels: seq<Label>, i: nat)
    ensures
      var w := Exec(INITIAL, labels);
      && (w.disk.None? ==> CallsMade(labels, i) == 0)
      && (w.disk.Some? && i < |w.calls| ==> w.calls[i] == CallsMade(labels, i))
    decreases |labels|
  {
    if labels != [] {
      var before, last := labels[..|labels| - 1], labels[|labels| - 1];
      CallsAreCounted(before, i);
      assert labels == before + [last];
      ExecConcat(INITIAL, before, [last]);
      ExecOne(Exec(INITIAL, before), last);
      CallsStep(Exec(INITIAL, before), last, i);
    }
  }
}
