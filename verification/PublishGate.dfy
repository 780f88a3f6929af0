/**
  The final publish gate of scripts/run_swebench_verified_mini_50.py, for a planned count `n` in
  place of 50.
*/
module PublishGate {
  import opened Wrappers
  import opened CampaignDomain
  import opened Counting

  /** A frozen or final plan: the source identity it names and everything else it holds. */
  datatype Plan = Plan(sourceIdentity: Source, content: string)

  datatype Gate = Gate(
    publishable: bool,
    headline: Option<nat>,
    terminalAccounted: nat,
    officialEvaluated: nat,
    emptyPatch: nat,
    officialResolved: nat,
    providerInfra: nat,
    runtimeInfra: nat,
    evaluatorInfra: nat)

  predicate Terminal(r: Record) {
    r.status == Completed || r.status == Failed
  }

  predicate EmptyPatch(r: Record) {
    r.status == Completed && !r.evidence.patchGenerated
  }

  predicate Evaluated(r: Record) {
    r.status == Completed && Decided(r.evidence.official)
  }

  predicate Resolved(r: Record) {
    r.status == Completed && r.evidence.official == OfficialResolved
  }

  predicate ProviderInfra(r: Record) {
    r.evidence.failureClass == ProviderTransportError
  }

  predicate RuntimeInfra(r: Record) {
    r.status == Failed || r.evidence.failureClass == RunnerOrEnvironmentError
  }

  predicate EvaluatorInfra(r: Record) {
    r.evidence.failureClass == OfficialEvaluationError ||
    (r.status == Completed && r.evidence.patchGenerated && !Decided(r.evidence.official))
  }

  predicate IdentityChecks(state: Checkpoint, stateDigest: string, request: Config, frozen: Plan, final: Plan,
                           digest: (Config, Source) -> string)
  {
    && final == frozen
    && state.config == request
    && state.source == frozen.sourceIdentity
    && stateDigest == digest(request, state.source)
    && !final.sourceIdentity.dirty
  }

  /** `build_final_publish_gate`. */
  function BuildFinalPublishGate(state: Checkpoint, stateDigest: string, request: Config, frozen: Plan, final: Plan,
                                 digest: (Config, Source) -> string, n: nat): Gate
  {
    var terminalAccounted := Count(state.records, Terminal);
    var emptyPatch := Count(state.records, EmptyPatch);
    var officialEvaluated := Count(state.records, Evaluated);
    var officialResolved := Count(state.records, Resolved);
    var providerInfra := Count(state.records, ProviderInfra);
    var runtimeInfra := Count(state.records, RuntimeInfra);
    var evaluatorInfra := Count(state.records, EvaluatorInfra);
    var publishable :=
      && |state.records| == n
      && terminalAccounted == n
      && officialEvaluated + emptyPatch == n
      && providerInfra == 0
      && runtimeInfra == 0
      && evaluatorInfra == 0
      && IdentityChecks(state, stateDigest, request, frozen, final, digest)
      && state.status == CampaignCompleted;
    Gate(publishable, if publishable then Some(officialResolved) else None, terminalAccounted, officialEvaluated,
         emptyPatch, officialResolved, providerInfra, runtimeInfra, evaluatorInfra)
  }

  /** The failure classes of an infrastructure failure. */
  predicate Spoiled(r: Record) {
    r.evidence.failureClass in {ProviderTransportError, OfficialEvaluationError, RunnerOrEnvironmentError}
  }

  /** A record that a published headline may count. */
  predicate Sound(r: Record) {
    && r.status == Completed && !Spoiled(r)
    && (r.evidence.patchGenerated <==> r.evidence.official in {OfficialResolved, OfficialEvalFailed})
  }

  /** The three infrastructure counters vanish exactly on these records. */
  lemma NoInfrastructure(records: seq<Record>)
    ensures
      (Count(records, ProviderInfra) == 0 && Count(records, RuntimeInfra) == 0 && Count(records, EvaluatorInfra) == 0)
      <==> forall i :: 0 <= i < |records| ==>
             && !Spoiled(records[i])
             && records[i].status != Failed
             && (records[i].status == Completed && records[i].evidence.patchGenerated ==>
                   Decided(records[i].evidence.official))
  {
    CountNone(records, ProviderInfra);
    CountNone(records, RuntimeInfra);
    CountNone(records, EvaluatorInfra);
    assert forall r: Record :: Spoiled(r) <==>
      r.evidence.failureClass == ProviderTransportError || r.evidence.failureClass == RunnerOrEnvironmentError ||
      r.evidence.failureClass == OfficialEvaluationError;
  }

  /**
    The gate, which only compares counters, publishes exactly when every single record is sound: it
    completed, it has a patch just when it has an official verdict, and it shows no infrastructure failure.
  */
  lemma GateIsExact(state: Checkpoint, stateDigest: string, request: Config, frozen: Plan, final: Plan,
                    digest: (Config, Source) -> string, n: nat)
    ensures
      BuildFinalPublishGate(state, stateDigest, request, frozen, final, digest, n).publishable <==>
      && |state.records| == n
      && (forall i :: 0 <= i < n ==> Sound(state.records[i]))
      && final == frozen && state.config == request && state.source == frozen.sourceIdentity
      && stateDigest == digest(request, state.source) && !final.sourceIdentity.dirty
      && state.status == CampaignCompleted
  {
    var records := state.records;
    CountAll(records, Terminal);
    NoInfrastructure(records);
    if forall i :: 0 <= i < |records| ==> Evaluated(records[i]) || EmptyPatch(records[i]) {
      CountCover(records, Evaluated, EmptyPatch);
    } else {
      assert !(forall i :: 0 <= i < |records| ==> Sound(records[i]));
    }
  }

  /** On a published campaign the two buckets partition the records, and the headline counts inside one. */
  lemma PublishedBuckets(state: Checkpoint, stateDigest: string, request: Config, frozen: Plan, final: Plan,
                         digest: (Config, Source) -> string, n: nat)
    requires BuildFinalPublishGate(state, stateDigest, request, frozen, final, digest, n).publishable
    ensures forall i :: 0 <= i < |state.records| ==> (Evaluated(state.records[i]) <==> !EmptyPatch(state.records[i]))
    ensures
      var gate := BuildFinalPublishGate(state, stateDigest, request, frozen, final, digest, n);
      && gate.headline == Some(gate.officialResolved)
      && gate.officialResolved <= gate.officialEvaluated == n - gate.emptyPatch
  {
    GateIsExact(state, stateDigest, request, frozen, final, digest, n);
    CountAtMost(state.records, Resolved, Evaluated);
  }

  /** The records with a property, by their places. */
  lemma Counted(records: seq<Record>, p: Record -> bool, places: set<nat>)
    requires forall i: nat :: i in places <==> i < |records| && p(records[i])
    ensures Count(records, p) == |places|
  {
    CountIsSize(records, p);
    assert Places(records, p) == places;
  }

  ghost function Settled(records: seq<Record>): set<nat> {
    set i: nat | i < |records| && (records[i].status == Completed || records[i].status == Failed)
  }

  /** The completed runs with one of these official verdicts. */
  ghost function Judged(records: seq<Record>, verdicts: set<OfficialStatus>): set<nat> {
    set i: nat | i < |records| && records[i].status == Completed && records[i].evidence.official in verdicts
  }

  ghost function WithoutPatch(records: seq<Record>): set<nat> {
    set i: nat | i < |records| && records[i].status == Completed && !records[i].evidence.patchGenerated
  }

  ghost function ProviderFailures(records: seq<Record>): set<nat> {
    set i: nat | i < |records| && records[i].evidence.failureClass == ProviderTransportError
  }

  ghost function RuntimeFailures(records: seq<Record>): set<nat> {
    set i: nat | i < |records| &&
      (records[i].status == Failed || records[i].evidence.failureClass == RunnerOrEnvironmentError)
  }

  ghost function EvaluatorFailures(records: seq<Record>): set<nat> {
    set i: nat | i < |records| &&
      (records[i].evidence.failureClass == OfficialEvaluationError ||
       (records[i].status == Completed && records[i].evidence.patchGenerated &&
        records[i].evidence.official !in {OfficialResolved, OfficialEvalFailed}))
  }

  /**
    What the gate's counters count, and that the headline is the number of resolved runs; without publication
    there is no headline.
  */
  lemma GateCounters(state: Checkpoint, stateDigest: string, request: Config, frozen: Plan, final: Plan,
                     digest: (Config, Source) -> string, n: nat)
    ensures
      var gate, records := BuildFinalPublishGate(state, stateDigest, request, frozen, final, digest, n), state.records;
      && gate.headline == (if gate.publishable then Some(|Judged(records, {OfficialResolved})|) else None)
      && gate.officialResolved == |Judged(records, {OfficialResolved})|
      && gate.officialEvaluated == |Judged(records, {OfficialResolved, OfficialEvalFailed})|
      && gate.terminalAccounted == |Settled(records)| && gate.emptyPatch == |WithoutPatch(records)|
      && gate.providerInfra == |ProviderFailures(records)| && gate.runtimeInfra == |RuntimeFailures(records)|
      && gate.evaluatorInfra == |EvaluatorFailures(records)|
  {
    var records := state.records;
    Counted(records, Resolved, Judged(records, {OfficialResolved}));
    Counted(records, Evaluated, Judged(records, {OfficialResolved, OfficialEvalFailed}));
    Counted(records, Terminal, Settled(records));
    Counted(records, EmptyPatch, WithoutPatch(records));
    Counted(records, ProviderInfra, ProviderFailures(records));
    Counted(records, RuntimeInfra, RuntimeFailures(records));
    Counted(records, EvaluatorInfra, EvaluatorFailures(records));
  }
}
