/**
  The counters of `summarize_campaign`: one pass over the records that fills one mutable summary per
  variant, proved equal to independent counts and sums over the whole record list.
*/
module CampaignSummary {
  import opened CampaignDomain
  import opened Counting

  /** The integer entries of one variant's summary dictionary. */
  datatype VariantSummary = VariantSummary(
    planned: nat,
    completed: nat,
    failed: nat,
    patchGenerated: nat,
    localVerified: nat,
    officialEvaluated: nat,
    officialResolved: nat,
    infrastructureFailures: nat,
    totalTokens: int,
    latencyMs: int,
    toolCalls: int,
    failedToolCalls: int,
    retryAttempts: nat,
    retryTokens: int,
    failureClasses: map<FailureClass, nat>)

  /** `_empty_variant_summary`. */
  const EMPTY_SUMMARY := VariantSummary(0, 0, 0, 0, 0, 0, 0, 0, 0, 0, 0, 0, 0, 0, map[])

  // ----- what is counted -----

  predicate HasPatch(e: Evidence) { e.patchGenerated }

  predicate Verified(e: Evidence) { e.patchGenerated && e.localValidation == ValidationPassed }

  predicate Evaluated(e: Evidence) { Decided(e.official) }

  predicate Resolved(e: Evidence) { e.official == OfficialResolved }

  predicate Infrastructure(e: Evidence) { Retryable(e.failureClass) }

  /** A missing failure class is reported as "unclassified". */
  function Classified(r: Record): FailureClass {
    if r.evidence.failureClass == OtherFailure("") then OtherFailure("unclassified") else r.evidence.failureClass
  }

  function Tokens(e: Evidence): int { e.totalTokens }

  function Latency(e: Evidence): int { e.latencyMs }

  function Calls(e: Evidence): int { e.toolCalls }

  function FailedCalls(e: Evidence): int { e.failedToolCalls }

  function EntryTokens(a: AttemptEntry): int { a.evidence.totalTokens }

  function Planned(v: string): Record -> bool {
    (r: Record) => r.slot.variant == v
  }

  function InStatus(v: string, status: RunStatus): Record -> bool {
    (r: Record) => r.slot.variant == v && r.status == status
  }

  /** Completed runs of a variant whose evidence has a property. */
  function Finished(v: string, p: Evidence -> bool): Record -> bool {
    (r: Record) => r.slot.variant == v && r.status == Completed && p(r.evidence)
  }

  /** An amount that only completed runs contribute to. */
  function Amount(v: string, f: Evidence -> int): Record -> int {
    (r: Record) => if r.slot.variant == v && r.status == Completed then f(r.evidence) else 0
  }

  function Retries(v: string): Record -> int {
    (r: Record) => if r.slot.variant == v then |r.history| else 0
  }

  function RetryTokens(v: string): Record -> int {
    (r: Record) => if r.slot.variant == v then Sum(r.history, EntryTokens) else 0
  }

  function Lookup<K>(m: map<K, nat>, k: K): nat {
    if k in m then m[k] else 0
  }

  // ----- the specification -----

  ghost predicate CountsAre(s: VariantSummary, records: seq<Record>, v: string) {
    && s.planned == Count(records, Planned(v))
    && s.completed == Count(records, InStatus(v, Completed))
    && s.failed == Count(records, InStatus(v, Failed))
    && s.patchGenerated == Count(records, Finished(v, HasPatch))
    && s.localVerified == Count(records, Finished(v, Verified))
    && s.officialEvaluated == Count(records, Finished(v, Evaluated))
    && s.officialResolved == Count(records, Finished(v, Resolved))
    && s.infrastructureFailures == Count(records, Finished(v, Infrastructure))
  }

  ghost predicate AmountsAre(s: VariantSummary, records: seq<Record>, v: string) {
    && s.totalTokens == Sum(records, Amount(v, Tokens))
    && s.latencyMs == Sum(records, Amount(v, Latency))
    && s.toolCalls == Sum(records, Amount(v, Calls))
    && s.failedToolCalls == Sum(records, Amount(v, FailedCalls))
    && s.retryAttempts == Sum(records, Retries(v))
    && s.retryTokens == Sum(records, RetryTokens(v))
  }

  /** A class is listed exactly if some completed run has it, with the number of those runs. */
  ghost predicate ClassesAre(classes: map<FailureClass, nat>, records: seq<Record>, v: string) {
    && (forall f :: f in classes ==> classes[f] > 0)
    && (forall f :: Lookup(classes, f) == Count(records, InClass(InStatus(v, Completed), Classified, f)))
  }

  ghost predicate Summarizes(s: VariantSummary, records: seq<Record>, v: string) {
    CountsAre(s, records, v) && AmountsAre(s, records, v) && ClassesAre(s.failureClasses, records, v)
  }

  // ----- one record more -----

  /** `t` counts one record more than `s`, of the summarised variant or of another. */
  ghost predicate CountsAdded(s: VariantSummary, t: VariantSummary, x: Record, own: bool) {
    var done := own && x.status == Completed;
    && t.planned == s.planned + (if own then 1 else 0)
    && t.completed == s.completed + (if done then 1 else 0)
    && t.failed == s.failed + (if own && x.status == Failed then 1 else 0)
    && t.patchGenerated == s.patchGenerated + (if done && HasPatch(x.evidence) then 1 else 0)
    && t.localVerified == s.localVerified + (if done && Verified(x.evidence) then 1 else 0)
    && t.officialEvaluated == s.officialEvaluated + (if done && Evaluated(x.evidence) then 1 else 0)
    && t.officialResolved == s.officialResolved + (if done && Resolved(x.evidence) then 1 else 0)
    && t.infrastructureFailures == s.infrastructureFailures + (if done && Infrastructure(x.evidence) then 1 else 0)
  }

  ghost predicate AmountsAdded(s: VariantSummary, t: VariantSummary, x: Record, own: bool) {
    var done := own && x.status == Completed;
    && t.totalTokens == s.totalTokens + (if done then Tokens(x.evidence) else 0)
    && t.latencyMs == s.latencyMs + (if done then Latency(x.evidence) else 0)
    && t.toolCalls == s.toolCalls + (if done then Calls(x.evidence) else 0)
    && t.failedToolCalls == s.failedToolCalls + (if done then FailedCalls(x.evidence) else 0)
    && t.retryAttempts == s.retryAttempts + (if own then |x.history| else 0)
    && t.retryTokens == s.retryTokens + (if own then Sum(x.history, EntryTokens) else 0)
  }

  ghost predicate ClassesAdded(before: map<FailureClass, nat>, after: map<FailureClass, nat>, x: Record, own: bool) {
    after ==
    if own && x.status == Completed then before[Classified(x) := Lookup(before, Classified(x)) + 1] else before
  }

  lemma CountsAppend(s: VariantSummary, t: VariantSummary, records: seq<Record>, x: Record, v: string)
    requires CountsAre(s, records, v) && CountsAdded(s, t, x, x.slot.variant == v)
    ensures CountsAre(t, records + [x], v)
  {
    CountAppend(records, x, Planned(v));
    CountAppend(records, x, InStatus(v, Completed));
    CountAppend(records, x, InStatus(v, Failed));
    CountAppend(records, x, Finished(v, HasPatch));
    CountAppend(records, x, Finished(v, Verified));
    CountAppend(records, x, Finished(v, Evaluated));
    CountAppend(records, x, Finished(v, Resolved));
    CountAppend(records, x, Finished(v, Infrastructure));
  }

  lemma AmountsAppend(s: VariantSummary, t: VariantSummary, records: seq<Record>, x: Record, v: string)
    requires AmountsAre(s, records, v) && AmountsAdded(s, t, x, x.slot.variant == v)
    ensures AmountsAre(t, records + [x], v)
  {
    SumAppend(records, x, Amount(v, Tokens));
    SumAppend(records, x, Amount(v, Latency));
    SumAppend(records, x, Amount(v, Calls));
    SumAppend(records, x, Amount(v, FailedCalls));
    SumAppend(records, x, Retries(v));
    SumAppend(records, x, RetryTokens(v));
  }

  lemma ClassesAppend(before: map<FailureClass, nat>, after: map<FailureClass, nat>, records: seq<Record>, x: Record,
                      v: string)
    requires ClassesAre(before, records, v) && ClassesAdded(before, after, x, x.slot.variant == v)
    ensures ClassesAre(after, records + [x], v)
  {
    forall f ensures Lookup(after, f) == Count(records + [x], InClass(InStatus(v, Completed), Classified, f)) {
      CountAppend(records, x, InClass(InStatus(v, Completed), Classified, f));
    }
  }

  lemma SummaryAppend(s: VariantSummary, t: VariantSummary, records: seq<Record>, x: Record, v: string)
    requires Summarizes(s, records, v)
    requires CountsAdded(s, t, x, x.slot.variant == v) && AmountsAdded(s, t, x, x.slot.variant == v)
    requires ClassesAdded(s.failureClasses, t.failureClasses, x, x.slot.variant == v)
    ensures Summarizes(t, records + [x], v)
  {
    CountsAppend(s, t, records, x, v);
    AmountsAppend(s, t, records, x, v);
    ClassesAppend(s.failureClasses, t.failureClasses, records, x, v);
  }

  lemma OtherVariant(s: VariantSummary, records: seq<Record>, x: Record, v: string)
    requires Summarizes(s, records, v) && x.slot.variant != v
    ensures Summarizes(s, records + [x], v)
  {
    SummaryAppend(s, s, records, x, v);
  }

  // ----- the loops -----

  /** The loop over the superseded attempts of one record. */
  method AddRetries(s: VariantSummary, history: seq<AttemptEntry>) returns (t: VariantSummary)
    ensures t == s.(retryAttempts := s.retryAttempts + |history|,
                    retryTokens := s.retryTokens + Sum(history, EntryTokens))
  {
    t := s;
    for i := 0 to |history|
      invariant t == s.(retryAttempts := s.retryAttempts + i,
                        retryTokens := s.retryTokens + Sum(history[..i], EntryTokens))
    {
      assert history[..i + 1] == history[..i] + [history[i]];
      SumAppend(history[..i], history[i], EntryTokens);
      t := t.(retryAttempts := t.retryAttempts + 1, retryTokens := t.retryTokens + history[i].evidence.totalTokens);
    }
    assert history[..|history|] == history;
  }

  /** What a completed run adds. */
  method AddCompleted(s: VariantSummary, record: Record) returns (t: VariantSummary)
    ensures
      var e := record.evidence;
      && t.planned == s.planned && t.failed == s.failed
      && t.retryAttempts == s.retryAttempts && t.retryTokens == s.retryTokens
      && t.completed == s.completed + 1
      && t.patchGenerated == s.patchGenerated + (if HasPatch(e) then 1 else 0)
      && t.localVerified == s.localVerified + (if Verified(e) then 1 else 0)
      && t.officialEvaluated == s.officialEvaluated + (if Evaluated(e) then 1 else 0)
      && t.officialResolved == s.officialResolved + (if Resolved(e) then 1 else 0)
      && t.infrastructureFailures == s.infrastructureFailures + (if Infrastructure(e) then 1 else 0)
      && t.totalTokens == s.totalTokens + e.totalTokens && t.latencyMs == s.latencyMs + e.latencyMs
      && t.toolCalls == s.toolCalls + e.toolCalls && t.failedToolCalls == s.failedToolCalls + e.failedToolCalls
      && t.failureClasses == s.failureClasses[Classified(record) := Lookup(s.failureClasses, Classified(record)) + 1]
  {
    var e := record.evidence;
    t := s.(completed := s.completed + 1);
    t := t.(patchGenerated := t.patchGenerated + if e.patchGenerated then 1 else 0);
    var verified := e.patchGenerated && e.localValidation == ValidationPassed;
    t := t.(localVerified := t.localVerified + if verified then 1 else 0);
    var failure := Classified(record);
    t := t.(infrastructureFailures := t.infrastructureFailures + if Retryable(failure) then 1 else 0);
    if Decided(e.official) {
      t := t.(officialEvaluated := t.officialEvaluated + 1,
              officialResolved := t.officialResolved + if e.official == OfficialResolved then 1 else 0);
    }
    t := t.(totalTokens := t.totalTokens + e.totalTokens, latencyMs := t.latencyMs + e.latencyMs,
            toolCalls := t.toolCalls + e.toolCalls, failedToolCalls := t.failedToolCalls + e.failedToolCalls);
    t := t.(failureClasses := t.failureClasses[failure := Lookup(t.failureClasses, failure) + 1]);
  }

  /** The body of the loop over the records, as changes of the counters. */
  method AddFields(s: VariantSummary, record: Record) returns (t: VariantSummary)
    ensures CountsAdded(s, t, record, true) && AmountsAdded(s, t, record, true)
    ensures ClassesAdded(s.failureClasses, t.failureClasses, record, true)
  {
    t := s.(planned := s.planned + 1);
    t := AddRetries(t, record.history);
    if record.status == Failed {
      t := t.(failed := t.failed + 1);
    } else if record.status == Completed {
      t := AddCompleted(t, record);
    }
  }

  /** The body of the loop over the records: from the summary of those before to that with one more. */
  method AddRecord(s: VariantSummary, record: Record, ghost before: seq<Record>) returns (t: VariantSummary)
    requires Summarizes(s, before, record.slot.variant)
    ensures Summarizes(t, before + [record], record.slot.variant)
  {
    t := AddFields(s, record);
    SummaryAppend(s, t, before, record, record.slot.variant);
  }

  /** The summary of a variant, an empty one until `setdefault` stores it. */
  function SummaryOf(variants: map<string, VariantSummary>, v: string): VariantSummary {
    if v in variants then variants[v] else EMPTY_SUMMARY
  }

  ghost predicate SummarizesAll(variants: map<string, VariantSummary>, records: seq<Record>) {
    forall v :: Summarizes(SummaryOf(variants, v), records, v)
  }

  lemma AppendAll(before: map<string, VariantSummary>, records: seq<Record>, x: Record, t: VariantSummary)
    requires SummarizesAll(before, records) && Summarizes(t, records + [x], x.slot.variant)
    ensures SummarizesAll(before[x.slot.variant := t], records + [x])
  {
    var after := before[x.slot.variant := t];
    forall v ensures Summarizes(SummaryOf(after, v), records + [x], v) {
      if v != x.slot.variant {
        assert Summarizes(SummaryOf(before, v), records, v);
        OtherVariant(SummaryOf(before, v), records, x, v);
      }
    }
  }

  /** One turn of the loop over the records. */
  method AddToVariants(variants: map<string, VariantSummary>, record: Record, ghost before: seq<Record>)
    returns (after: map<string, VariantSummary>)
    requires SummarizesAll(variants, before)
    ensures SummarizesAll(after, before + [record])
    ensures forall v :: v in after <==> v in variants || v == record.slot.variant
  {
    var v := record.slot.variant;
    assert Summarizes(SummaryOf(variants, v), before, v);
    var summary := AddRecord(SummaryOf(variants, v), record, before);
    AppendAll(variants, before, record, summary);
    after := variants[v := summary];
  }

  /** An empty summary for every variant of the configuration. */
  method EmptySummaries(names: seq<string>) returns (variants: map<string, VariantSummary>)
    ensures SummarizesAll(variants, []) && forall v :: v in variants <==> v in names
  {
    variants := map[];
    for i := 0 to |names|
      invariant forall v :: v in variants <==> v in names[..i]
      invariant forall v :: v in variants ==> variants[v] == EMPTY_SUMMARY
    {
      variants := variants[names[i] := EMPTY_SUMMARY];
    }
  }

  /** Region 3.1 of `summarize_campaign`. */
  method SummarizeVariants(names: seq<string>, records: seq<Record>) returns (variants: map<string, VariantSummary>)
    ensures SummarizesAll(variants, records)
    ensures forall v :: v in variants <==> v in names || exists i :: 0 <= i < |records| && records[i].slot.variant == v
  {
    variants := EmptySummaries(names);
    assert records[..0] == [];
    for i := 0 to |records|
      invariant SummarizesAll(variants, records[..i])
      invariant forall v :: v in variants <==> v in names || exists j :: 0 <= j < i && records[j].slot.variant == v
    {
      variants := AddToVariants(variants, records[i], records[..i]);
      assert records[..i + 1] == records[..i] + [records[i]];
    }
    assert records[..|records|] == records;
  }

  lemma StatusAppend(records: seq<Record>, x: Record, s: RunStatus)
    ensures Count(records + [x], InClass(Everything, StatusOf, s)) ==
            Count(records, InClass(Everything, StatusOf, s)) + if x.status == s then 1 else 0
  {
    CountAppend(records, x, InClass(Everything, StatusOf, s));
    assert Everything(x) && StatusOf(x) == x.status;
  }

  ghost predicate StatusesAre(counts: map<RunStatus, nat>, records: seq<Record>) {
    && (forall s :: s in counts ==> counts[s] > 0)
    && (forall s :: Lookup(counts, s) == Count(records, InClass(Everything, StatusOf, s)))
  }

  lemma StatusesAppend(counts: map<RunStatus, nat>, records: seq<Record>, x: Record)
    requires StatusesAre(counts, records)
    ensures StatusesAre(counts[x.status := Lookup(counts, x.status) + 1], records + [x])
  {
    var after := counts[x.status := Lookup(counts, x.status) + 1];
    forall s ensures Lookup(after, s) == Count(records + [x], InClass(Everything, StatusOf, s)) {
      StatusAppend(records, x, s);
    }
  }

  /** The loop that fills `status_counts`. */
  method CountStatuses(records: seq<Record>) returns (counts: map<RunStatus, nat>)
    ensures StatusesAre(counts, records)
  {
    counts := map[];
    for i := 0 to |records|
      invariant StatusesAre(counts, records[..i])
    {
      StatusesAppend(counts, records[..i], records[i]);
      assert records[..i + 1] == records[..i] + [records[i]];
      counts := counts[records[i].status := Lookup(counts, records[i].status) + 1];
    }
    assert records[..|records|] == records;
  }

  // ----- conservation -----

  predicate Everything(r: Record) { true }

  function StatusOf(r: Record): RunStatus { r.status }

  function VariantOf(r: Record): string { r.slot.variant }

  ghost predicate Enumerates<L(!new)>(labels: seq<L>, keys: set<L>) {
    Distinct(labels) && (forall l :: l in keys <==> l in labels)
  }

  lemma PlannedIsClass(records: seq<Record>, v: string)
    ensures Count(records, Planned(v)) == Count(records, InClass(Everything, VariantOf, v))
  {
    forall i | 0 <= i < |records|
      ensures Planned(v)(records[i]) <==> InClass(Everything, VariantOf, v)(records[i])
    {
      assert Everything(records[i]) && VariantOf(records[i]) == records[i].slot.variant;
    }
    CountSame(records, Planned(v), InClass(Everything, VariantOf, v));
  }

  /** The planned counts of the variants add up to the number of records. */
  lemma PlannedAddsUp(variants: map<string, VariantSummary>, records: seq<Record>, labels: seq<string>)
    requires SummarizesAll(variants, records)
    requires forall i :: 0 <= i < |records| ==> records[i].slot.variant in variants
    requires Enumerates(labels, variants.Keys)
    ensures Sum(labels, v => SummaryOf(variants, v).planned) == |records|
  {
    forall i | 0 <= i < |labels|
      ensures SummaryOf(variants, labels[i]).planned == Count(records, InClass(Everything, VariantOf, labels[i]))
    {
      assert Summarizes(SummaryOf(variants, labels[i]), records, labels[i]);
      PlannedIsClass(records, labels[i]);
    }
    CountByLabelIsSum(records, Everything, VariantOf, labels, v => SummaryOf(variants, v).planned);
    LabelsPartition(records, Everything, VariantOf, labels);
    CountAll(records, Everything);
  }

  /** The status counts add up to the number of records. */
  lemma StatusesAddUp(counts: map<RunStatus, nat>, records: seq<Record>, labels: seq<RunStatus>)
    requires StatusesAre(counts, records)
    requires Enumerates(labels, counts.Keys)
    ensures Sum(labels, s => Lookup(counts, s)) == |records|
  {
    forall i | 0 <= i < |records| ensures StatusOf(records[i]) in labels {
      assert Everything(records[i]) && StatusOf(records[i]) == records[i].status;
      assert InClass(Everything, StatusOf, records[i].status)(records[i]);
      CountNone(records, InClass(Everything, StatusOf, records[i].status));
      assert Lookup(counts, records[i].status) > 0;
    }
    CountByLabelIsSum(records, Everything, StatusOf, labels, s => Lookup(counts, s));
    LabelsPartition(records, Everything, StatusOf, labels);
    CountAll(records, Everything);
  }

  /** resolved <= evaluated <= completed, local <= patch <= completed and completed + failed <= planned. */
  lemma CountersNest(s: VariantSummary, records: seq<Record>, v: string)
    requires Summarizes(s, records, v)
    ensures s.officialResolved <= s.officialEvaluated <= s.completed
    ensures s.localVerified <= s.patchGenerated <= s.completed
    ensures s.infrastructureFailures <= s.completed
    ensures s.completed + s.failed <= s.planned <= |records|
  {
    assert forall e: Evidence :: Resolved(e) ==> Evaluated(e);
    assert forall e: Evidence :: Verified(e) ==> HasPatch(e);
    CountAtMost(records, Finished(v, Resolved), Finished(v, Evaluated));
    CountAtMost(records, Finished(v, Evaluated), InStatus(v, Completed));
    CountAtMost(records, Finished(v, Verified), Finished(v, HasPatch));
    CountAtMost(records, Finished(v, HasPatch), InStatus(v, Completed));
    CountAtMost(records, Finished(v, Infrastructure), InStatus(v, Completed));
    CountDisjoint(records, InStatus(v, Completed), InStatus(v, Failed), Planned(v));
    CountAll(records, Planned(v));
  }

  /** The listed failure classes partition the completed runs. */
  lemma ClassesAddUp(s: VariantSummary, records: seq<Record>, v: string, labels: seq<FailureClass>)
    requires Summarizes(s, records, v) && Enumerates(labels, s.failureClasses.Keys)
    ensures Sum(labels, f => Lookup(s.failureClasses, f)) == s.completed
  {
    forall i | 0 <= i < |records| && InStatus(v, Completed)(records[i]) ensures Classified(records[i]) in labels {
      var f := Classified(records[i]);
      CountNone(records, InClass(InStatus(v, Completed), Classified, f));
      assert Lookup(s.failureClasses, f) > 0;
    }
    CountByLabelIsSum(records, InStatus(v, Completed), Classified, labels, f => Lookup(s.failureClasses, f));
    LabelsPartition(records, InStatus(v, Completed), Classified, labels);
  }

  const INFRASTRUCTURE: seq<FailureClass> := [ProviderTransportError, OfficialEvaluationError, RunnerOrEnvironmentError]

  lemma SumOfThree<T>(a: T, b: T, c: T, g: T -> int)
    ensures Sum([a, b, c], g) == g(a) + g(b) + g(c)
  {
    SumAppend([a, b], c, g);
    SumAppend([a], b, g);
    SumAppend([], a, g);
    assert [a, b] + [c] == [a, b, c] && [a] + [b] == [a, b] && [] + [a] == [a];
  }

  lemma InfrastructureClass(records: seq<Record>, v: string, f: FailureClass)
    requires Retryable(f)
    ensures Count(records, InClass(InStatus(v, Completed), Classified, f)) ==
            Count(records, InClass(Finished(v, Infrastructure), Classified, f))
  {
    forall i | 0 <= i < |records|
      ensures InClass(InStatus(v, Completed), Classified, f)(records[i]) <==>
              InClass(Finished(v, Infrastructure), Classified, f)(records[i])
    {
      assert Infrastructure(records[i].evidence) == Retryable(records[i].evidence.failureClass);
    }
    CountSame(records, InClass(InStatus(v, Completed), Classified, f),
              InClass(Finished(v, Infrastructure), Classified, f));
  }

  lemma InfrastructurePartition(records: seq<Record>, v: string)
    ensures CountByLabel(records, Finished(v, Infrastructure), Classified, INFRASTRUCTURE) ==
            Count(records, Finished(v, Infrastructure))
  {
    forall i | 0 <= i < |records| && Finished(v, Infrastructure)(records[i])
      ensures Classified(records[i]) in INFRASTRUCTURE
    {
      assert Infrastructure(records[i].evidence);
    }
    LabelsPartition(records, Finished(v, Infrastructure), Classified, INFRASTRUCTURE);
  }

  /** The three infrastructure classes together are the counter `infrastructure_failures`. */
  lemma InfrastructureAddsUp(s: VariantSummary, records: seq<Record>, v: string)
    requires Summarizes(s, records, v)
    ensures s.infrastructureFailures ==
            Lookup(s.failureClasses, ProviderTransportError) + Lookup(s.failureClasses, OfficialEvaluationError) +
            Lookup(s.failureClasses, RunnerOrEnvironmentError)
  {
    var g := f => Lookup(s.failureClasses, f);
    forall i | 0 <= i < |INFRASTRUCTURE|
      ensures g(INFRASTRUCTURE[i]) ==
              Count(records, InClass(Finished(v, Infrastructure), Classified, INFRASTRUCTURE[i]))
    {
      InfrastructureClass(records, v, INFRASTRUCTURE[i]);
    }
    CountByLabelIsSum(records, Finished(v, Infrastructure), Classified, INFRASTRUCTURE, g);
    InfrastructurePartition(records, v);
    SumOfThree(ProviderTransportError, OfficialEvaluationError, RunnerOrEnvironmentError, g);
  }

  // ----- concatenation and order -----

  /** The fieldwise sum of two summaries. */
  ghost predicate Adds(s: VariantSummary, t: VariantSummary, u: VariantSummary) {
    && u.planned == s.planned + t.planned && u.completed == s.completed + t.completed && u.failed == s.failed + t.failed
    && u.patchGenerated == s.patchGenerated + t.patchGenerated && u.localVerified == s.localVerified + t.localVerified
    && u.officialEvaluated == s.officialEvaluated + t.officialEvaluated
    && u.officialResolved == s.officialResolved + t.officialResolved
    && u.infrastructureFailures == s.infrastructureFailures + t.infrastructureFailures
    && u.totalTokens == s.totalTokens + t.totalTokens && u.latencyMs == s.latencyMs + t.latencyMs
    && u.toolCalls == s.toolCalls + t.toolCalls && u.failedToolCalls == s.failedToolCalls + t.failedToolCalls
    && u.retryAttempts == s.retryAttempts + t.retryAttempts && u.retryTokens == s.retryTokens + t.retryTokens
    && (forall f :: Lookup(u.failureClasses, f) == Lookup(s.failureClasses, f) + Lookup(t.failureClasses, f))
  }

  lemma CountsConcat(a: seq<Record>, b: seq<Record>)
    ensures forall p :: Count(a + b, p) == Count(a, p) + Count(b, p)
    ensures forall f :: Sum(a + b, f) == Sum(a, f) + Sum(b, f)
  {
    forall p ensures Count(a + b, p) == Count(a, p) + Count(b, p) { CountConcat(a, b, p); }
    forall f ensures Sum(a + b, f) == Sum(a, f) + Sum(b, f) { SumConcat(a, b, f); }
  }

  /** Every counter of a concatenation is the sum of the counters of its parts. */
  lemma SummaryAdditive(a: seq<Record>, b: seq<Record>, v: string, s: VariantSummary, t: VariantSummary,
                        u: VariantSummary)
    requires Summarizes(s, a, v) && Summarizes(t, b, v) && Summarizes(u, a + b, v)
    ensures Adds(s, t, u)
  {
    CountsConcat(a, b);
  }

  /** The summary does not depend on the order of the records. */
  lemma SummaryOrderFree(a: seq<Record>, b: seq<Record>, v: string, s: VariantSummary, t: VariantSummary)
    requires multiset(a) == multiset(b)
    requires Summarizes(s, a, v) && Summarizes(t, b, v)
    ensures s == t
  {
    forall p ensures Count(a, p) == Count(b, p) { CountPermutation(a, b, p); }
    forall f ensures Sum(a, f) == Sum(b, f) { SumPermutation(a, b, f); }
    forall f ensures Lookup(s.failureClasses, f) == Lookup(t.failureClasses, f) {
      var counted := InClass(InStatus(v, Completed), Classified, f);
      assert Count(a, counted) == Count(b, counted);
    }
    assert s.failureClasses == t.failureClasses by {
      forall f ensures f in s.failureClasses <==> f in t.failureClasses {
        assert Lookup(s.failureClasses, f) == Lookup(t.failureClasses, f);
      }
      forall f | f in s.failureClasses ensures s.failureClasses[f] == t.failureClasses[f] {
        assert Lookup(s.failureClasses, f) == Lookup(t.failureClasses, f);
      }
    }
  }

  // ----- the counters as numbers of records -----

  /** The records of a variant. */
  ghost function OfVariant(records: seq<Record>, v: string): set<nat> {
    set i: nat | i < |records| && records[i].slot.variant == v
  }

  ghost function WithStatus(records: seq<Record>, v: string, status: RunStatus): set<nat> {
    set i: nat | i < |records| && records[i].slot.variant == v && records[i].status == status
  }

  ghost function WithPatch(records: seq<Record>, v: string): set<nat> {
    set i: nat | i < |records| && records[i].slot.variant == v && records[i].status == Completed &&
      records[i].evidence.patchGenerated
  }

  ghost function LocallyValid(records: seq<Record>, v: string): set<nat> {
    set i: nat | i < |records| && records[i].slot.variant == v && records[i].status == Completed &&
      records[i].evidence.patchGenerated && records[i].evidence.localValidation == ValidationPassed
  }

  ghost function Judged(records: seq<Record>, v: string, verdicts: set<OfficialStatus>): set<nat> {
    set i: nat | i < |records| && records[i].slot.variant == v && records[i].status == Completed &&
      records[i].evidence.official in verdicts
  }

  ghost function InClasses(records: seq<Record>, v: string, classes: set<FailureClass>): set<nat> {
    set i: nat | i < |records| && records[i].slot.variant == v && records[i].status == Completed &&
      records[i].evidence.failureClass in classes
  }

  lemma Counted(records: seq<Record>, p: Record -> bool, places: set<nat>)
    requires forall i: nat :: i in places <==> i < |records| && p(records[i])
    ensures Count(records, p) == |places|
  {
    CountIsSize(records, p);
    assert Places(records, p) == places;
  }

  lemma FinishedCounted(records: seq<Record>, v: string, p: Evidence -> bool, places: set<nat>)
    requires forall i: nat :: i in places <==>
      i < |records| && records[i].slot.variant == v && records[i].status == Completed && p(records[i].evidence)
    ensures Count(records, Finished(v, p)) == |places|
  {
    Counted(records, Finished(v, p), places);
  }

  lemma PatchesCounted(records: seq<Record>, v: string)
    ensures Count(records, Finished(v, HasPatch)) == |WithPatch(records, v)|
    ensures Count(records, Finished(v, Verified)) == |LocallyValid(records, v)|
  {
    assert forall e: Evidence :: HasPatch(e) <==> e.patchGenerated;
    assert forall e: Evidence :: Verified(e) <==> e.patchGenerated && e.localValidation == ValidationPassed;
    FinishedCounted(records, v, HasPatch, WithPatch(records, v));
    FinishedCounted(records, v, Verified, LocallyValid(records, v));
  }

  lemma JudgedCounted(records: seq<Record>, v: string)
    ensures Count(records, Finished(v, Evaluated)) == |Judged(records, v, {OfficialResolved, OfficialEvalFailed})|
    ensures Count(records, Finished(v, Resolved)) == |Judged(records, v, {OfficialResolved})|
  {
    assert forall e: Evidence :: Evaluated(e) <==> e.official in {OfficialResolved, OfficialEvalFailed};
    assert forall e: Evidence :: Resolved(e) <==> e.official in {OfficialResolved};
    FinishedCounted(records, v, Evaluated, Judged(records, v, {OfficialResolved, OfficialEvalFailed}));
    FinishedCounted(records, v, Resolved, Judged(records, v, {OfficialResolved}));
  }

  lemma InfrastructureCounted(records: seq<Record>, v: string)
    ensures Count(records, Finished(v, Infrastructure)) ==
            |InClasses(records, v, {ProviderTransportError, OfficialEvaluationError, RunnerOrEnvironmentError})|
  {
    assert forall e: Evidence :: Infrastructure(e) <==>
      e.failureClass in {ProviderTransportError, OfficialEvaluationError, RunnerOrEnvironmentError};
    FinishedCounted(records, v, Infrastructure,
                    InClasses(records, v, {ProviderTransportError, OfficialEvaluationError, RunnerOrEnvironmentError}));
  }

  lemma StatusesCounted(records: seq<Record>, v: string)
    ensures Count(records, Planned(v)) == |OfVariant(records, v)|
    ensures Count(records, InStatus(v, Completed)) == |WithStatus(records, v, Completed)|
    ensures Count(records, InStatus(v, Failed)) == |WithStatus(records, v, Failed)|
  {
    Counted(records, Planned(v), OfVariant(records, v));
    Counted(records, InStatus(v, Completed), WithStatus(records, v, Completed));
    Counted(records, InStatus(v, Failed), WithStatus(records, v, Failed));
  }

  /** Every counter of a variant is the number of records of the variant that it is named for. */
  lemma CountersAre(s: VariantSummary, records: seq<Record>, v: string)
    requires Summarizes(s, records, v)
    ensures s.planned == |OfVariant(records, v)|
    ensures s.completed == |WithStatus(records, v, Completed)| && s.failed == |WithStatus(records, v, Failed)|
    ensures s.patchGenerated == |WithPatch(records, v)| && s.localVerified == |LocallyValid(records, v)|
    ensures s.officialEvaluated == |Judged(records, v, {OfficialResolved, OfficialEvalFailed})|
    ensures s.officialResolved == |Judged(records, v, {OfficialResolved})|
    ensures s.infrastructureFailures ==
            |InClasses(records, v, {ProviderTransportError, OfficialEvaluationError, RunnerOrEnvironmentError})|
  {
    StatusesCounted(records, v);
    PatchesCounted(records, v);
    JudgedCounted(records, v);
    InfrastructureCounted(records, v);
  }

  /** A listed failure class, with an empty one listed as unclassified, has the number of its completed runs. */
  lemma ClassesAreCounted(s: VariantSummary, records: seq<Record>, v: string, f: FailureClass)
    requires Summarizes(s, records, v) && f != OtherFailure("")
    ensures Lookup(s.failureClasses, f) ==
            |InClasses(records, v, if f == OtherFailure("unclassified") then {f, OtherFailure("")} else {f})|
    ensures f in s.failureClasses ==> s.failureClasses[f] > 0
    ensures OtherFailure("") !in s.failureClasses
  {
    Counted(records, InClass(InStatus(v, Completed), Classified, f),
            InClasses(records, v, if f == OtherFailure("unclassified") then {f, OtherFailure("")} else {f}));
    CountNone(records, InClass(InStatus(v, Completed), Classified, OtherFailure("")));
    assert Lookup(s.failureClasses, OtherFailure("")) == 0;
  }

  /** The tokens of the superseded attempts. */
  lemma RetryTokensAddUp(history: seq<AttemptEntry>, a: AttemptEntry)
    ensures Sum([], EntryTokens) == 0
    ensures Sum(history + [a], EntryTokens) == Sum(history, EntryTokens) + a.evidence.totalTokens
  {
    SumAppend(history, a, EntryTokens);
  }

  /**
    The amounts of one record; by `SummaryAdditive` those of a list are their sums.  Only a completed run
    counts for its cost, and every run of the variant for its retries.
  */
  lemma AmountsOfOne(s: VariantSummary, r: Record, v: string)
    requires Summarizes(s, [r], v)
    ensures
      var done := r.slot.variant == v && r.status == Completed;
      && s.totalTokens == (if done then r.evidence.totalTokens else 0)
      && s.latencyMs == (if done then r.evidence.latencyMs else 0)
      && s.toolCalls == (if done then r.evidence.toolCalls else 0)
      && s.failedToolCalls == (if done then r.evidence.failedToolCalls else 0)
      && s.retryAttempts == (if r.slot.variant == v then |r.history| else 0)
      && s.retryTokens == (if r.slot.variant == v then Sum(r.history, EntryTokens) else 0)
  {
    assert forall e: Evidence :: Tokens(e) == e.totalTokens && Latency(e) == e.latencyMs;
    assert forall e: Evidence :: Calls(e) == e.toolCalls && FailedCalls(e) == e.failedToolCalls;
    SumOne(r, Amount(v, Tokens));
    SumOne(r, Amount(v, Latency));
    SumOne(r, Amount(v, Calls));
    SumOne(r, Amount(v, FailedCalls));
    SumOne(r, Retries(v));
    SumOne(r, RetryTokens(v));
  }
}
