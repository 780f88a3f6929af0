/**
  The data contracts of a repeated matched benchmark campaign
  (agent_forge/bench/domain/campaign.py).

  The source keeps statuses and failure classes as strings; here each string the code tests for is
  a constructor and every other string is the `Other…(name)` constructor.  An absent dictionary key
  and an empty string are the same to every reader in the source, so the empty evidence dictionary
  is one constant.
*/
module CampaignDomain {
  import Counting

  datatype FailureClass =
    | ProviderTransportError
    | OfficialEvaluationError
    | RunnerOrEnvironmentError
    | OtherFailure(name: string)

  /** RETRYABLE_INFRASTRUCTURE_FAILURES. */
  predicate Retryable(failure: FailureClass) {
    !failure.OtherFailure?
  }

  datatype OfficialStatus =
    | OfficialResolved
    | OfficialEvalFailed
    | OfficialEvalError
    | OfficialSkippedEmptyPatch
    | OfficialIncomplete
    | OfficialUnavailable
    | OtherOfficial(name: string)

  /** OFFICIAL_DECIDED. */
  predicate Decided(status: OfficialStatus) {
    status == OfficialResolved || status == OfficialEvalFailed
  }

  datatype LocalValidation = ValidationPassed | OtherValidation(name: string)

  datatype Evidence = Evidence(
    patchGenerated: bool,
    localValidation: LocalValidation,
    official: OfficialStatus,
    failureClass: FailureClass,
    totalTokens: int,
    costUsd: real,
    latencyMs: int,
    toolCalls: int,
    failedToolCalls: int,
    retryExhausted: bool)

  const EMPTY_EVIDENCE: Evidence :=
    Evidence(false, OtherValidation(""), OtherOfficial(""), OtherFailure(""), 0, 0.0, 0, 0, 0, false)

  datatype RunStatus = Pending | Running | RetryPending | Completed | Failed

  datatype SlotError =
    | NoError
    | RetryScheduled(failure: FailureClass)
    | NoRerun(previous: RunStatus, attempts: nat)
    | RaisedError(text: string)

  datatype AttemptEntry = AttemptEntry(attempt: nat, runId: string, scorecardSha256: string, evidence: Evidence)

  /** The planned identity of a run slot, fixed when the matrix is enumerated. */
  datatype Slot = Slot(ordinal: nat, caseId: string, repetition: nat, variant: string)

  /** The value of one CampaignRunRecord. */
  datatype Record = Record(
    slot: Slot,
    status: RunStatus,
    attempts: nat,
    runId: string,
    runDir: string,
    scorecardSha256: string,
    evidence: Evidence,
    history: seq<AttemptEntry>,
    error: SlotError)

  function FreshRecord(slot: Slot): Record {
    Record(slot, Pending, 0, "", "", "", EMPTY_EVIDENCE, [], NoError)
  }

  datatype CampaignStatus = CampaignRunning | CampaignCompleted | CampaignCompletedWithFailures

  /** The part of a request that `identity()` freezes into the checkpoint. */
  datatype Config = Config(
    caseIds: seq<string>,
    repetitions: nat,
    variants: seq<string>,
    maxInfrastructureAttempts: nat,
    rerunIncompleteSlots: bool,
    maxParallelSlots: nat)

  /** `BenchmarkCampaignRequest.__post_init__`, for the fields modelled here. */
  ghost predicate ValidConfig(c: Config) {
    && c.caseIds != [] && Counting.Distinct(c.caseIds)
    && 1 <= c.repetitions <= 20
    && c.variants != [] && Counting.Distinct(c.variants)
    && 1 <= c.maxInfrastructureAttempts <= 2
    && 1 <= c.maxParallelSlots <= 4
    && (!c.rerunIncompleteSlots ==> c.maxInfrastructureAttempts == 1)
  }

  datatype Source = Source(revision: string, dirty: bool)

  /** The value of one persisted CampaignState. */
  datatype Checkpoint = Checkpoint(config: Config, source: Source, records: seq<Record>, status: CampaignStatus)

  predicate AllCompleted(records: seq<Record>) {
    forall i :: 0 <= i < |records| ==> records[i].status == Completed
  }

  function FinalStatus(records: seq<Record>): CampaignStatus {
    if AllCompleted(records) then CampaignCompleted else CampaignCompletedWithFailures
  }
}
