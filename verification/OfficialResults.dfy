/**
  Merging the reports of the official evaluator (agent_forge/bench/adapters/official_results.py).

  The per-case statuses form a flat lattice: incomplete at the bottom, official_eval_error at the top
  and every other status in between.  The fold over the report files is the join in that lattice.
*/
module OfficialResults {
  import opened Wrappers
  import opened CampaignDomain
  import opened Counting

  // ----- the lattice -----

  predicate Below(a: OfficialStatus, b: OfficialStatus) {
    a == b || a == OfficialIncomplete || b == OfficialEvalError
  }

  function Join(a: OfficialStatus, b: OfficialStatus): (r: OfficialStatus)
    ensures Below(a, r) && Below(b, r)
    ensures forall u :: Below(a, u) && Below(b, u) ==> Below(r, u)
  {
    if a == b || b == OfficialIncomplete then a else if a == OfficialIncomplete then b else OfficialEvalError
  }

  function JoinAll(statuses: seq<OfficialStatus>): OfficialStatus {
    if statuses == [] then OfficialIncomplete
    else Join(JoinAll(statuses[..|statuses| - 1]), statuses[|statuses| - 1])
  }

  lemma {:induction false} JoinIsLeast(statuses: seq<OfficialStatus>, u: OfficialStatus)
    ensures Below(JoinAll(statuses), u) <==> forall i :: 0 <= i < |statuses| ==> Below(statuses[i], u)
  {
    if statuses != [] { JoinIsLeast(statuses[..|statuses| - 1], u); }
  }

  /** The join of some statuses depends neither on their order nor on repetitions. */
  lemma JoinOrderFree(a: seq<OfficialStatus>, b: seq<OfficialStatus>)
    requires forall s :: s in a <==> s in b
    ensures JoinAll(a) == JoinAll(b)
  {
    JoinIsLeast(a, JoinAll(a));
    JoinIsLeast(b, JoinAll(b));
    JoinIsLeast(a, JoinAll(b));
    JoinIsLeast(b, JoinAll(a));
    assert forall i :: 0 <= i < |b| ==> b[i] in a;
    assert forall i :: 0 <= i < |a| ==> a[i] in b;
  }

  /** The join is a proper status exactly when something says so and nothing disagrees. */
  lemma {:induction false} JoinIsVerdict(statuses: seq<OfficialStatus>, v: OfficialStatus)
    requires v != OfficialIncomplete && v != OfficialEvalError
    ensures JoinAll(statuses) == v <==>
            v in statuses && forall i :: 0 <= i < |statuses| ==> statuses[i] == v || statuses[i] == OfficialIncomplete
  {
    if statuses != [] {
      var rest, last := statuses[..|statuses| - 1], statuses[|statuses| - 1];
      assert statuses == rest + [last];
      JoinIsVerdict(rest, v);
      JoinIsLeast(rest, OfficialIncomplete);
    }
  }

  // ----- reports -----

  /** The five id lists of an aggregate run report, as sets of strings; a missing list is empty. */
  datatype RunReport = RunReport(
    resolvedIds: set<string>,
    unresolvedIds: set<string>,
    errorIds: set<string>,
    emptyPatchIds: set<string>,
    incompleteIds: set<string>)

  /** A per-case report file: JSON of another shape, or an object from instance ids to items. */
  datatype CaseReport =
    | NotAnObject(path: string)
    | CaseReport(path: string, items: map<string, Item>)

  /** An item without an explicit boolean `resolved` says nothing. */
  datatype Item = NoVerdict | Verdict(resolved: bool)

  datatype OutcomeSource = FromRunReport | MissingReport | FromCaseReport | ConflictingReports

  datatype Outcome = Outcome(
    instanceId: string,
    status: OfficialStatus,
    resolved: Option<bool>,
    reportPath: Option<string>,
    source: OutcomeSource)

  /** The boolean of an outcome is explicit for a decided status and absent for any other. */
  predicate Explicit(o: Outcome) {
    o.resolved ==
      if o.status == OfficialResolved then Some(true) else if o.status == OfficialEvalFailed then Some(false) else None
  }

  function VerdictStatus(resolved: bool): OfficialStatus {
    if resolved then OfficialResolved else OfficialEvalFailed
  }

  /** RUN_REPORT_KEYS restricted to the lists that contain the id, in the order of the dictionary. */
  function Memberships(id: string, r: RunReport): seq<OfficialStatus> {
    (if id in r.resolvedIds then [OfficialResolved] else []) +
    (if id in r.unresolvedIds then [OfficialEvalFailed] else []) +
    (if id in r.errorIds then [OfficialEvalError] else []) +
    (if id in r.emptyPatchIds then [OfficialSkippedEmptyPatch] else []) +
    (if id in r.incompleteIds then [OfficialIncomplete] else [])
  }

  /** `_outcome_from_run_report`; the report is empty when no run report was found. */
  function OutcomeFromRunReport(id: string, r: RunReport, path: Option<string>): (o: Outcome)
    ensures o.instanceId == id && Explicit(o)
  {
    var memberships := Memberships(id, r);
    if |memberships| > 1 then Outcome(id, OfficialEvalError, None, path, FromRunReport)
    else if memberships == [] then
      Outcome(id, OfficialIncomplete, None, path, if path.Some? then FromRunReport else MissingReport)
    else
      var status := memberships[0];
      var resolved :=
        if status == OfficialResolved then Some(true) else if status == OfficialEvalFailed then Some(false) else None;
      Outcome(id, status, resolved, path, FromRunReport)
  }

  /** The aggregate outcome, list by list: which list alone gives which status, and when the lists conflict. */
  lemma AggregateTells(id: string, r: RunReport, path: Option<string>)
    ensures
      var o := OutcomeFromRunReport(id, r, path);
      var a, b, e, p, c := id in r.resolvedIds, id in r.unresolvedIds, id in r.errorIds, id in r.emptyPatchIds,
                           id in r.incompleteIds;
      && (o.status == OfficialResolved <==> a && !b && !e && !p && !c)
      && (o.status == OfficialEvalFailed <==> b && !a && !e && !p && !c)
      && (o.status == OfficialSkippedEmptyPatch <==> p && !a && !b && !e && !c)
      && (o.status == OfficialIncomplete <==> !a && !b && !e && !p)
      && (o.status == OfficialEvalError <==>
            e || (a && b) || (a && p) || (a && c) || (b && p) || (b && c) || (p && c))
      && o.reportPath == path
      && o.source == if !a && !b && !e && !p && !c && path.None? then MissingReport else FromRunReport
  {
  }

  lemma MembershipsShape(id: string, r: RunReport)
    ensures
      var m := Memberships(id, r);
      && (m != [] && m[|m| - 1] == OfficialIncomplete <==> id in r.incompleteIds)
      && (forall i :: 0 <= i < |m| - 1 ==> m[i] != OfficialIncomplete)
      && (|m| == 2 ==> (m[0] == OfficialEvalError || m[1] == OfficialEvalError <==> id in r.errorIds))
      && (|m| >= 2 ==> m[0] != m[1])
  {
  }

  /**
    The aggregate outcome is the join of the lists that name the case, except when it is named by the
    incomplete list and exactly one list of resolved, unresolved and empty-patch ids: that is an error.
  */
  lemma AggregateIsJoinIff(id: string, r: RunReport, path: Option<string>)
    ensures OutcomeFromRunReport(id, r, path).status == JoinAll(Memberships(id, r)) <==>
            !(id in r.incompleteIds && id !in r.errorIds && |Memberships(id, r)| == 2)
  {
    var m := Memberships(id, r);
    MembershipsShape(id, r);
    JoinIsLeast(m, JoinAll(m));
    if |m| == 2 {
      assert m[..1] == [m[0]];
      assert JoinAll(m[..1]) == m[0] by { assert m[..1][..0] == []; }
    }
  }

  /** A case on the resolved and on the incomplete list is called in error, although only one list has a verdict. */
  lemma IncompleteListWitness(id: string, path: Option<string>)
    ensures
      var run := RunReport({id}, {}, {}, {}, {id});
      OutcomeFromRunReport(id, run, path).status == OfficialEvalError &&
      JoinAll(Memberships(id, run)) == OfficialResolved
  {
    var m := Memberships(id, RunReport({id}, {}, {}, {}, {id}));
    assert m == [OfficialResolved, OfficialIncomplete];
    JoinIsVerdict(m, OfficialResolved);
    assert m[0] in m;
  }

  /** What the per-case files say about a case, in file order. */
  function Verdicts(reports: seq<CaseReport>, id: string): seq<OfficialStatus> {
    if reports == [] then []
    else
      var rest, last := Verdicts(reports[..|reports| - 1], id), reports[|reports| - 1];
      if last.CaseReport? && id in last.items && last.items[id].Verdict?
      then rest + [VerdictStatus(last.items[id].resolved)] else rest
  }

  lemma {:induction false} VerdictsAre(reports: seq<CaseReport>, id: string, b: bool)
    ensures VerdictStatus(b) in Verdicts(reports, id) <==> exists i :: 0 <= i < |reports| && Says(reports[i], id, b)
    ensures forall v :: v in Verdicts(reports, id) ==> v == OfficialResolved || v == OfficialEvalFailed
  {
    if reports != [] {
      var rest := reports[..|reports| - 1];
      VerdictsAre(rest, id, b);
      assert reports == rest + [reports[|reports| - 1]];
    }
  }

  predicate Says(report: CaseReport, id: string, resolved: bool) {
    report.CaseReport? && id in report.items && report.items[id] == Verdict(resolved)
  }

  // ----- the merge loop -----

  predicate Known(s: OfficialStatus) {
    !s.OfficialUnavailable? && !s.OtherOfficial?
  }

  /** The branches for one explicit per-case boolean. */
  method MergeVerdict(current: Outcome, resolved: bool, path: string) returns (next: Outcome)
    requires Known(current.status)
    ensures next.status == Join(current.status, VerdictStatus(resolved))
    ensures next.instanceId == current.instanceId && Explicit(next) && next.reportPath == Some(path)
    ensures next.source == if next.status == OfficialEvalError then ConflictingReports else FromCaseReport
  {
    var status := VerdictStatus(resolved);
    if (current.status == OfficialResolved || current.status == OfficialEvalFailed) && current.status != status {
      next := Outcome(current.instanceId, OfficialEvalError, None, Some(path), ConflictingReports);
    } else if current.status == OfficialEvalError || current.status == OfficialSkippedEmptyPatch {
      next := Outcome(current.instanceId, OfficialEvalError, None, Some(path), ConflictingReports);
    } else {
      next := Outcome(current.instanceId, status, Some(resolved), Some(path), FromCaseReport);
    }
  }

  /** The final status: the aggregate outcome joined with everything that the case reports say. */
  function Merged(run: RunReport, path: Option<string>, reports: seq<CaseReport>, id: string): OfficialStatus {
    Join(OutcomeFromRunReport(id, run, path).status, JoinAll(Verdicts(reports, id)))
  }

  predicate Counts(report: CaseReport, id: string) {
    report.CaseReport? && id in report.items && report.items[id].Verdict?
  }

  /** The report that decided last: the last case report that says something, or else the aggregate one. */
  function PathOf(path: Option<string>, reports: seq<CaseReport>, id: string): Option<string> {
    if reports == [] then path
    else
      var last := reports[|reports| - 1];
      if Counts(last, id) then Some(last.path) else PathOf(path, reports[..|reports| - 1], id)
  }

  function SourceOf(run: RunReport, path: Option<string>, reports: seq<CaseReport>, id: string): OutcomeSource {
    if !(exists i :: 0 <= i < |reports| && Counts(reports[i], id)) then OutcomeFromRunReport(id, run, path).source
    else if Merged(run, path, reports, id) == OfficialEvalError then ConflictingReports
    else FromCaseReport
  }

  ghost predicate MergedFor(o: Outcome, run: RunReport, path: Option<string>, reports: seq<CaseReport>, id: string) {
    && o.instanceId == id && Explicit(o) && Known(o.status) && o.status == Merged(run, path, reports, id)
    && o.reportPath == PathOf(path, reports, id) && o.source == SourceOf(run, path, reports, id)
  }

  lemma VerdictsAppend(before: seq<CaseReport>, report: CaseReport, id: string)
    ensures Verdicts(before + [report], id) ==
            if Counts(report, id) then Verdicts(before, id) + [VerdictStatus(report.items[id].resolved)]
            else Verdicts(before, id)
  {
    assert (before + [report])[..|before|] == before;
  }

  lemma JoinAppend(statuses: seq<OfficialStatus>, last: OfficialStatus)
    ensures JoinAll(statuses + [last]) == Join(JoinAll(statuses), last)
  {
    assert (statuses + [last])[..|statuses|] == statuses;
  }

  lemma JoinAssociative(a: OfficialStatus, b: OfficialStatus, c: OfficialStatus)
    ensures Join(a, Join(b, c)) == Join(Join(a, b), c)
  {
  }

  /** A report that says something about the case joins its verdict. */
  lemma MergedCounts(run: RunReport, path: Option<string>, before: seq<CaseReport>, report: CaseReport, id: string)
    requires Counts(report, id)
    ensures Merged(run, path, before + [report], id) ==
            Join(Merged(run, path, before, id), VerdictStatus(report.items[id].resolved))
  {
    var aggregate, v := OutcomeFromRunReport(id, run, path).status, VerdictStatus(report.items[id].resolved);
    VerdictsAppend(before, report, id);
    JoinAppend(Verdicts(before, id), v);
    JoinAssociative(aggregate, JoinAll(Verdicts(before, id)), v);
  }

  lemma PathAppend(run: RunReport, path: Option<string>, before: seq<CaseReport>, report: CaseReport, id: string)
    ensures PathOf(path, before + [report], id) ==
            if Counts(report, id) then Some(report.path) else PathOf(path, before, id)
    ensures Counts(report, id) ==>
      SourceOf(run, path, before + [report], id) ==
      if Merged(run, path, before + [report], id) == OfficialEvalError then ConflictingReports else FromCaseReport
    ensures !Counts(report, id) ==> SourceOf(run, path, before + [report], id) == SourceOf(run, path, before, id)
  {
    var all := before + [report];
    assert all[..|before|] == before && all[|before|] == report;
    assert forall i :: 0 <= i < |before| ==> all[i] == before[i];
    if Counts(report, id) {
      assert Counts(all[|before|], id);
    } else {
      MergedSkips(run, path, before, report, id);
      if i :| 0 <= i < |before| && Counts(before[i], id) { assert Counts(all[i], id); }
    }
  }

  /** Any other report changes nothing. */
  lemma MergedSkips(run: RunReport, path: Option<string>, before: seq<CaseReport>, report: CaseReport, id: string)
    requires !Counts(report, id)
    ensures Merged(run, path, before + [report], id) == Merged(run, path, before, id)
  {
    VerdictsAppend(before, report, id);
  }

  method MergeItem(current: Outcome, report: CaseReport, id: string, ghost run: RunReport, ghost path: Option<string>,
                   ghost before: seq<CaseReport>)
    returns (next: Outcome)
    requires report.CaseReport? && MergedFor(current, run, path, before, id)
    ensures MergedFor(next, run, path, before + [report], id)
  {
    next := current;
    PathAppend(run, path, before, report, id);
    if id in report.items && report.items[id].Verdict? {
      MergedCounts(run, path, before, report, id);
      next := MergeVerdict(current, report.items[id].resolved, report.path);
    } else {
      MergedSkips(run, path, before, report, id);
    }
  }

  ghost predicate AllMerged(outcomes: map<string, Outcome>, run: RunReport, path: Option<string>,
                            reports: seq<CaseReport>, ids: set<string>) {
    forall id :: id in ids && id in outcomes ==> MergedFor(outcomes[id], run, path, reports, id)
  }

  /** Part of the way through a report: the cases in `done` have been compared with it. */
  ghost predicate Progress(outcomes: map<string, Outcome>, run: RunReport, path: Option<string>,
                           before: seq<CaseReport>, report: CaseReport, done: set<string>) {
    && AllMerged(outcomes, run, path, before + [report], done)
    && AllMerged(outcomes, run, path, before, outcomes.Keys - done)
  }

  lemma ProgressStep(outcomes: map<string, Outcome>, run: RunReport, path: Option<string>, before: seq<CaseReport>,
                     report: CaseReport, done: set<string>, id: string, next: Outcome)
    requires Progress(outcomes, run, path, before, report, done) && id in outcomes
    requires MergedFor(next, run, path, before + [report], id)
    ensures Progress(outcomes[id := next], run, path, before, report, done + {id})
  {
    var after := outcomes[id := next];
    forall other | other in done + {id} && other in after
      ensures MergedFor(after[other], run, path, before + [report], other)
    {
      if other != id { assert MergedFor(outcomes[other], run, path, before + [report], other); }
    }
    forall other | other in after.Keys - (done + {id}) ensures MergedFor(after[other], run, path, before, other) {
      assert other in outcomes.Keys - done;
      assert MergedFor(outcomes[other], run, path, before, other);
    }
  }

  lemma SkipReport(outcomes: map<string, Outcome>, run: RunReport, path: Option<string>, before: seq<CaseReport>,
                   report: CaseReport)
    requires AllMerged(outcomes, run, path, before, outcomes.Keys) && report.NotAnObject?
    ensures AllMerged(outcomes, run, path, before + [report], outcomes.Keys)
  {
    forall id | id in outcomes ensures MergedFor(outcomes[id], run, path, before + [report], id) {
      MergedSkips(run, path, before, report, id);
      PathAppend(run, path, before, report, id);
      assert MergedFor(outcomes[id], run, path, before, id);
    }
  }

  /** The body of the inner loop. */
  method MergeNext(outcomes: map<string, Outcome>, report: CaseReport, id: string, ghost run: RunReport,
                   ghost path: Option<string>, ghost before: seq<CaseReport>, ghost done: set<string>)
    returns (merged: map<string, Outcome>)
    requires report.CaseReport? && id in outcomes && id !in done
    requires Progress(outcomes, run, path, before, report, done)
    ensures merged.Keys == outcomes.Keys && Progress(merged, run, path, before, report, done + {id})
  {
    assert MergedFor(outcomes[id], run, path, before, id);
    var next := MergeItem(outcomes[id], report, id, run, path, before);
    ProgressStep(outcomes, run, path, before, report, done, id, next);
    merged := outcomes[id := next];
  }

  lemma NextWanted(wanted: seq<string>, j: nat)
    requires Distinct(wanted) && j < |wanted|
    ensures wanted[j] !in Elements(wanted[..j]) && Elements(wanted[..j + 1]) == Elements(wanted[..j]) + {wanted[j]}
  {
    assert wanted[..j + 1] == wanted[..j] + [wanted[j]];
    forall id ensures id in Elements(wanted[..j + 1]) <==> id in Elements(wanted[..j]) + {wanted[j]} {
      if id in Elements(wanted[..j]) {
        var i :| 0 <= i < j && wanted[..j][i] == id;
        assert wanted[..j + 1][i] == id;
      }
      if id == wanted[j] { assert wanted[..j + 1][j] == id; }
    }
  }

  /** The inner loop. */
  method MergeWanted(outcomes: map<string, Outcome>, wanted: seq<string>, report: CaseReport, ghost run: RunReport,
                     ghost path: Option<string>, ghost before: seq<CaseReport>)
    returns (merged: map<string, Outcome>)
    requires report.CaseReport? && Distinct(wanted) && Elements(wanted) == outcomes.Keys
    requires Progress(outcomes, run, path, before, report, {})
    ensures merged.Keys == outcomes.Keys && Progress(merged, run, path, before, report, outcomes.Keys)
  {
    merged := outcomes;
    for j := 0 to |wanted|
      invariant merged.Keys == outcomes.Keys && Progress(merged, run, path, before, report, Elements(wanted[..j]))
    {
      assert wanted[j] in Elements(wanted);
      NextWanted(wanted, j);
      merged := MergeNext(merged, report, wanted[j], run, path, before, Elements(wanted[..j]));
    }
    assert wanted[..|wanted|] == wanted;
  }

  /** The body of the outer loop: one report file against every requested case. */
  method MergeReport(outcomes: map<string, Outcome>, wanted: seq<string>, report: CaseReport, ghost run: RunReport,
                     ghost path: Option<string>, ghost before: seq<CaseReport>)
    returns (merged: map<string, Outcome>)
    requires Distinct(wanted) && Elements(wanted) == outcomes.Keys
    requires AllMerged(outcomes, run, path, before, outcomes.Keys)
    ensures merged.Keys == outcomes.Keys
    ensures AllMerged(merged, run, path, before + [report], merged.Keys)
  {
    if report.NotAnObject? {
      merged := outcomes;
      SkipReport(merged, run, path, before, report);
    } else {
      merged := MergeWanted(outcomes, wanted, report, run, path, before);
    }
  }

  /** `dict.fromkeys`: the requested ids without repetitions. */
  method Deduplicate(ids: seq<string>) returns (wanted: seq<string>)
    ensures forall id :: id in wanted <==> id in ids
    ensures Distinct(wanted)
  {
    wanted := [];
    for i := 0 to |ids|
      invariant forall id :: id in wanted <==> id in ids[..i]
      invariant Distinct(wanted)
    {
      if ids[i] !in wanted { wanted := wanted + [ids[i]]; }
    }
  }

  lemma AggregateMerged(run: RunReport, path: Option<string>, id: string)
    ensures MergedFor(OutcomeFromRunReport(id, run, path), run, path, [], id)
  {
    assert Verdicts([], id) == [];
  }

  /** The outcomes before any case report was read. */
  method AggregateOutcomes(wanted: seq<string>, run: RunReport, path: Option<string>)
    returns (outcomes: map<string, Outcome>)
    ensures outcomes.Keys == Elements(wanted)
    ensures AllMerged(outcomes, run, path, [], outcomes.Keys)
  {
    outcomes := map id | id in wanted :: OutcomeFromRunReport(id, run, path);
    forall id | id in outcomes ensures MergedFor(outcomes[id], run, path, [], id) { AggregateMerged(run, path, id); }
  }

  /** `parse_official_results` on the files found: every requested case gets the join of its sources. */
  method ParseOfficialResults(run: RunReport, path: Option<string>, reports: seq<CaseReport>, instanceIds: seq<string>)
    returns (outcomes: map<string, Outcome>)
    ensures forall id :: id in outcomes <==> id in instanceIds
    ensures AllMerged(outcomes, run, path, reports, outcomes.Keys)
  {
    var wanted := Deduplicate(instanceIds);
    outcomes := AggregateOutcomes(wanted, run, path);
    ghost var before := [];
    for i := 0 to |reports|
      invariant before == reports[..i]
      invariant outcomes.Keys == Elements(wanted)
      invariant AllMerged(outcomes, run, path, before, outcomes.Keys)
    {
      outcomes := MergeReport(outcomes, wanted, reports[i], run, path, before);
      before := before + [reports[i]];
    }
    assert before == reports;
    assert forall id :: id in outcomes <==> id in wanted;
  }

  /** The merged status does not depend on the order of the report files or on duplicates. */
  lemma MergeOrderFree(run: RunReport, path: Option<string>, a: seq<CaseReport>, b: seq<CaseReport>, id: string)
    requires forall report :: report in a <==> report in b
    ensures Merged(run, path, a, id) == Merged(run, path, b, id)
  {
    VerdictsAre(a, id, true);
    VerdictsAre(a, id, false);
    VerdictsAre(b, id, true);
    VerdictsAre(b, id, false);
    forall x ensures VerdictStatus(x) in Verdicts(a, id) <==> VerdictStatus(x) in Verdicts(b, id) {
      SaidIn(a, b, id, x);
      SaidIn(b, a, id, x);
    }
    assert VerdictStatus(true) == OfficialResolved && VerdictStatus(false) == OfficialEvalFailed;
    JoinOrderFree(Verdicts(a, id), Verdicts(b, id));
  }

  lemma SaidIn(a: seq<CaseReport>, b: seq<CaseReport>, id: string, x: bool)
    requires forall report :: report in a ==> report in b
    ensures (exists i :: 0 <= i < |a| && Says(a[i], id, x)) ==> (exists i :: 0 <= i < |b| && Says(b[i], id, x))
  {
    if i :| 0 <= i < |a| && Says(a[i], id, x) {
      assert a[i] in b;
      var j :| 0 <= j < |b| && b[j] == a[i];
      assert Says(b[j], id, x);
    }
  }

  lemma JoinResolvedIff(aggregate: OfficialStatus, v: seq<OfficialStatus>)
    requires forall s :: s in v ==> s == OfficialResolved || s == OfficialEvalFailed
    ensures Join(aggregate, JoinAll(v)) == OfficialResolved <==>
              && (aggregate == OfficialResolved || OfficialResolved in v)
              && (aggregate == OfficialResolved || aggregate == OfficialIncomplete)
              && OfficialEvalFailed !in v
  {
    JoinIsVerdict(v, OfficialResolved);
    JoinIsLeast(v, OfficialIncomplete);
    assert forall i :: 0 <= i < |v| ==> v[i] in v;
  }

  /** A case is resolved exactly when some source says resolved and none says anything else. */
  lemma ResolvedIff(run: RunReport, path: Option<string>, reports: seq<CaseReport>, id: string)
    ensures
      var aggregate := OutcomeFromRunReport(id, run, path).status;
      Merged(run, path, reports, id) == OfficialResolved <==>
        && (aggregate == OfficialResolved || exists i :: 0 <= i < |reports| && Says(reports[i], id, true))
        && (aggregate == OfficialResolved || aggregate == OfficialIncomplete)
        && (forall i :: 0 <= i < |reports| ==> !Says(reports[i], id, false))
  {
    VerdictsAre(reports, id, true);
    VerdictsAre(reports, id, false);
    JoinResolvedIff(OutcomeFromRunReport(id, run, path).status, Verdicts(reports, id));
    assert VerdictStatus(true) == OfficialResolved && VerdictStatus(false) == OfficialEvalFailed;
  }

  lemma VerdictsJoin(v: seq<OfficialStatus>)
    requires forall s :: s in v ==> s == OfficialResolved || s == OfficialEvalFailed
    ensures
      var yes, no := OfficialResolved in v, OfficialEvalFailed in v;
      JoinAll(v) ==
      if yes && no then OfficialEvalError
      else if yes then OfficialResolved
      else if no then OfficialEvalFailed
      else OfficialIncomplete
  {
    JoinIsVerdict(v, OfficialResolved);
    JoinIsVerdict(v, OfficialEvalFailed);
    JoinIsLeast(v, OfficialIncomplete);
    JoinIsLeast(v, OfficialEvalError);
    assert forall i :: 0 <= i < |v| ==> v[i] in v;
  }

  /**
    A parsed outcome in terms of the five lists and of what the case reports say: exactly when a case ends
    with which status.
  */
  lemma ParsedIff(o: Outcome, run: RunReport, path: Option<string>, reports: seq<CaseReport>, id: string)
    requires MergedFor(o, run, path, reports, id)
    ensures
      var a, b, e, p, c := id in run.resolvedIds, id in run.unresolvedIds, id in run.errorIds, id in run.emptyPatchIds,
                           id in run.incompleteIds;
      var yes := exists i :: 0 <= i < |reports| && Says(reports[i], id, true);
      var no := exists i :: 0 <= i < |reports| && Says(reports[i], id, false);
      && (o.status == OfficialResolved <==> (a || yes) && !no && !b && !e && !p && !(a && c))
      && (o.status == OfficialEvalFailed <==> (b || no) && !yes && !a && !e && !p && !(b && c))
      && (o.status == OfficialSkippedEmptyPatch <==> p && !a && !b && !e && !c && !yes && !no)
      && (o.status == OfficialIncomplete <==> !a && !b && !e && !p && !yes && !no)
      && (o.status == OfficialEvalError <==>
            e || (p && (a || b || c || yes || no)) || (c && (a || b)) || ((a || yes) && (b || no)))
      && (o.resolved == Some(true) <==> o.status == OfficialResolved)
      && (o.resolved == Some(false) <==> o.status == OfficialEvalFailed)
  {
    AggregateTells(id, run, path);
    VerdictsAre(reports, id, true);
    VerdictsAre(reports, id, false);
    assert VerdictStatus(true) == OfficialResolved && VerdictStatus(false) == OfficialEvalFailed;
    VerdictsJoin(Verdicts(reports, id));
  }

  /** The report path of a parsed outcome is that of the last case report that says something about the case. */
  lemma {:induction false} PathIsLast(path: Option<string>, reports: seq<CaseReport>, id: string, i: nat)
    requires i < |reports| && (Says(reports[i], id, true) || Says(reports[i], id, false))
    requires forall j :: i < j < |reports| ==> !Says(reports[j], id, true) && !Says(reports[j], id, false)
    ensures PathOf(path, reports, id) == Some(reports[i].path)
  {
    var n := |reports| - 1;
    assert Counts(reports[n], id) ==> Says(reports[n], id, reports[n].items[id].resolved);
    if i < n { PathIsLast(path, reports[..n], id, i); }
  }

  lemma {:induction false} PathIsAggregate(path: Option<string>, reports: seq<CaseReport>, id: string)
    requires forall j :: 0 <= j < |reports| ==> !Says(reports[j], id, true) && !Says(reports[j], id, false)
    ensures PathOf(path, reports, id) == path
  {
    if reports != [] {
      var n := |reports| - 1;
      assert Counts(reports[n], id) ==> Says(reports[n], id, reports[n].items[id].resolved);
      PathIsAggregate(path, reports[..n], id);
    }
  }

  // ----- writing back -----

  /** The mutable evidence fields of a case result. */
  class BenchCaseResult {
    const instanceId: string
    var officialStatus: OfficialStatus
    var officialReportPath: Option<string>
    var evaluationStatus: OfficialStatus

    constructor (id: string)
      ensures instanceId == id
    {
      instanceId := id;
      officialStatus, evaluationStatus := OtherOfficial("not_evaluated"), OtherOfficial("not_evaluated");
      officialReportPath := None;
    }
  }

  /** The status written for a case. */
  function WriteBack(outcomes: map<string, Outcome>, id: string, exitCode: int): OfficialStatus {
    if id !in outcomes then (if exitCode != 0 then OfficialEvalError else OfficialIncomplete)
    else if outcomes[id].status == OfficialIncomplete && exitCode != 0 then OfficialEvalError
    else outcomes[id].status
  }

  /** `apply_official_results`. */
  method ApplyOfficialResults(results: seq<BenchCaseResult>, outcomes: map<string, Outcome>, exitCode: int)
    modifies results
    ensures forall r :: r in results ==>
      && r.officialStatus == r.evaluationStatus == WriteBack(outcomes, r.instanceId, exitCode)
      && r.officialReportPath == (if r.instanceId in outcomes then outcomes[r.instanceId].reportPath else None)
      && (r.instanceId !in outcomes ==>
            r.officialStatus == if exitCode != 0 then OfficialEvalError else OfficialIncomplete)
  {
    for i := 0 to |results|
      invariant forall j :: 0 <= j < i ==>
        && results[j].officialStatus == results[j].evaluationStatus ==
           WriteBack(outcomes, results[j].instanceId, exitCode)
        && results[j].officialReportPath ==
           if results[j].instanceId in outcomes then outcomes[results[j].instanceId].reportPath else None
    {
      var result := results[i];
      var status, reportPath;
      if result.instanceId !in outcomes {
        status := if exitCode != 0 then OfficialEvalError else OfficialIncomplete;
        reportPath := None;
      } else {
        status := outcomes[result.instanceId].status;
        reportPath := outcomes[result.instanceId].reportPath;
        if status == OfficialIncomplete && exitCode != 0 { status := OfficialEvalError; }
      }
      result.officialStatus := status;
      result.officialReportPath := reportPath;
      result.evaluationStatus := status;
    }
  }

  /**
    What a parsed case ends with: its merged status, raised to error only when it is incomplete and the
    exit code is non-zero.  So the exit code never overrides a verdict, and no case becomes resolved
    without a source that says so.
  */
  lemma WrittenStatus(run: RunReport, path: Option<string>, reports: seq<CaseReport>, outcomes: map<string, Outcome>,
                      id: string, exitCode: int)
    requires AllMerged(outcomes, run, path, reports, outcomes.Keys) && id in outcomes
    ensures
      var merged, written := Merged(run, path, reports, id), WriteBack(outcomes, id, exitCode);
      && Below(merged, written)
      && (written != merged <==> merged == OfficialIncomplete && exitCode != 0)
      && (written == OfficialResolved ==>
            (OutcomeFromRunReport(id, run, path).status == OfficialResolved ||
             exists i :: 0 <= i < |reports| && Says(reports[i], id, true)) &&
            forall i :: 0 <= i < |reports| ==> !Says(reports[i], id, false))
  {
    assert MergedFor(outcomes[id], run, path, reports, id);
    ResolvedIff(run, path, reports, id);
  }
}
