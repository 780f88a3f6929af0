/**
  Applying a migration write-set (`apply_migration_plan`): atomic replacements in path order, the
  manifest last, and a rollback from backups when one of them raises.

  A disk is the map of its file contents plus the journal of every content it has had, so that "the
  machine stops here" is "the journal ends here".  A replacement may raise before it took effect or
  after it (a failing directory sync or metadata call).
*/
module MigrationApply {
  import opened Counting

  type Path = string
  type Bytes = seq<bv8>
  type Files = map<Path, Bytes>

  datatype Fault = NoFault | BeforeReplace | AfterReplace

  /** The staged bytes, the order of the dictionary `staged`, and its other paths sorted by name. */
  datatype Plan = Plan(staged: Files, listed: seq<Path>, sorted: seq<Path>, manifest: Path)

  ghost predicate ValidPlan(plan: Plan) {
    && Distinct(plan.listed) && (forall p :: p in plan.listed <==> p in plan.staged)
    && Distinct(plan.sorted) && (forall p :: p in plan.sorted <==> p in plan.staged && p != plan.manifest)
    && plan.listed != [] && plan.listed[|plan.listed| - 1] == plan.manifest
  }

  /** The order of the forward writes. */
  function Writes(plan: Plan): seq<Path> {
    plan.sorted + [plan.manifest]
  }

  /** `files` with the content of `from` at the listed paths. */
  function Overlay(files: Files, from: Files, paths: seq<Path>): Files {
    if paths == [] then files
    else
      var rest, last := Overlay(files, from, paths[..|paths| - 1]), paths[|paths| - 1];
      if last in from then rest[last := from[last]] else rest
  }

  lemma OverlayStep(files: Files, from: Files, paths: seq<Path>, i: nat)
    requires i < |paths| && paths[i] in from
    ensures Overlay(files, from, paths[..i + 1]) == Overlay(files, from, paths[..i])[paths[i] := from[paths[i]]]
  {
    assert paths[..i + 1][..i] == paths[..i];
  }

  lemma {:induction false} OverlayAt(files: Files, from: Files, paths: seq<Path>, p: Path)
    ensures p in paths && p in from ==>
      p in Overlay(files, from, paths) && Overlay(files, from, paths)[p] == from[p]
    ensures !(p in paths && p in from) ==>
      (p in Overlay(files, from, paths) <==> p in files) && (p in files ==> Overlay(files, from, paths)[p] == files[p])
  {
    if paths != [] { OverlayAt(files, from, paths[..|paths| - 1], p); }
  }

  /** The disk after the first `k` replacements. */
  function Written(files: Files, plan: Plan, k: nat): Files
    requires k <= |Writes(plan)|
  {
    Overlay(files, plan.staged, Writes(plan)[..k])
  }

  /** The staged paths that have a backup, in the order in which the rollback restores them. */
  function Existing(files: Files, listed: seq<Path>): (existing: seq<Path>)
    ensures forall p :: p in existing <==> p in listed && p in files
  {
    if listed == [] then []
    else
      var rest, last := Existing(files, listed[..|listed| - 1]), listed[|listed| - 1];
      if last in files then rest + [last] else rest
  }

  /** The copies made before the first write. */
  function BackupOf(files: Files, existing: seq<Path>): Files {
    map p | p in existing && p in files :: files[p]
  }

  lemma BackupHolds(files: Files, listed: seq<Path>, i: nat)
    requires i < |Existing(files, listed)|
    ensures
      var existing := Existing(files, listed);
      existing[i] in files && existing[i] in BackupOf(files, existing) &&
      BackupOf(files, existing)[existing[i]] == files[existing[i]]
  {
    assert Existing(files, listed)[i] in Existing(files, listed);
  }

  /** The disk after `k` replacements and `r` restorations. */
  function Restored(files: Files, plan: Plan, k: nat, r: nat): Files
    requires k <= |Writes(plan)| && r <= |Existing(files, plan.listed)|
  {
    Overlay(Written(files, plan, k), files, Existing(files, plan.listed)[..r])
  }

  /** The disk after a whole rollback, which also removes a manifest that was not there before. */
  function Reverted(files: Files, plan: Plan, k: nat): Files
    requires k <= |Writes(plan)|
  {
    var restored := Restored(files, plan, k, |Existing(files, plan.listed)|);
    if plan.manifest in files then restored else restored - {plan.manifest}
  }

  /** Every disk content of a forward run that made `k` replacements. */
  function ForwardJournal(files: Files, plan: Plan, k: nat): seq<Files>
    requires k <= |Writes(plan)|
  {
    if k == 0 then [] else ForwardJournal(files, plan, k - 1) + [Written(files, plan, k)]
  }

  /** Every disk content of a rollback after `k` replacements that made `r` restorations. */
  function BackwardJournal(files: Files, plan: Plan, k: nat, r: nat): seq<Files>
    requires k <= |Writes(plan)| && r <= |Existing(files, plan.listed)|
  {
    if r == 0 then [] else BackwardJournal(files, plan, k, r - 1) + [Restored(files, plan, k, r)]
  }

  lemma WriteStep(files: Files, plan: Plan, i: nat)
    requires ValidPlan(plan) && i < |Writes(plan)|
    ensures
      var p := Writes(plan)[i];
      && p in plan.staged
      && Written(files, plan, i + 1) == Written(files, plan, i)[p := plan.staged[p]]
  {
    assert i < |plan.sorted| ==> Writes(plan)[i] == plan.sorted[i] && plan.sorted[i] in plan.sorted;
    OverlayStep(files, plan.staged, Writes(plan), i);
  }

  lemma RestoreStep(files: Files, plan: Plan, k: nat, i: nat, p: Path)
    requires k <= |Writes(plan)| && i < |Existing(files, plan.listed)| && p == Existing(files, plan.listed)[i]
    ensures p in files && Restored(files, plan, k, i + 1) == Restored(files, plan, k, i)[p := files[p]]
  {
    var existing := Existing(files, plan.listed);
    assert existing[i] in existing;
    OverlayStep(Written(files, plan, k), files, existing, i);
  }

  lemma Beginnings(files: Files, plan: Plan, k: nat)
    requires k <= |Writes(plan)|
    ensures Written(files, plan, 0) == files && ForwardJournal(files, plan, 0) == []
    ensures Restored(files, plan, k, 0) == Written(files, plan, k) && BackwardJournal(files, plan, k, 0) == []
  {
  }

  function RollbackJournal(files: Files, plan: Plan, k: nat, r: nat, removed: bool): seq<Files>
    requires k <= |Writes(plan)| && r <= |Existing(files, plan.listed)|
  {
    BackwardJournal(files, plan, k, r) + if removed then [Reverted(files, plan, k)] else []
  }

  /** The rollback gets as far as removing a manifest that was not there before, and that takes effect. */
  ghost predicate Removes(start: Files, plan: Plan, faults: nat -> Fault) {
    var n := |Existing(start, plan.listed)|;
    Clean(faults, n) && plan.manifest !in start && faults(n) != BeforeReplace
  }

  // ----- the operations -----

  ghost predicate Clean(faults: nat -> Fault, n: nat) {
    forall i :: 0 <= i < n ==> faults(i) == NoFault
  }

  /** How many of the first `n` operations take effect when the first fault stops them. */
  ghost function Effective(faults: nat -> Fault, n: nat): (k: nat)
    ensures k <= n && (Clean(faults, n) ==> k == n)
  {
    if n == 0 then 0
    else if !Clean(faults, n - 1) then Effective(faults, n - 1)
    else if faults(n - 1) == BeforeReplace then n - 1 else n
  }

  /** The first fault decides. */
  lemma {:induction false} FirstFault(faults: nat -> Fault, i: nat, n: nat)
    requires i < n && Clean(faults, i) && faults(i) != NoFault
    ensures !Clean(faults, n) && Effective(faults, n) == if faults(i) == BeforeReplace then i else i + 1
  {
    if i + 1 < n { FirstFault(faults, i, n - 1); }
  }

  /** One operation more. */
  lemma EffectiveNext(faults: nat -> Fault, n: nat)
    ensures Clean(faults, n + 1) <==> Clean(faults, n) && faults(n) == NoFault
    ensures !Clean(faults, n) ==> Effective(faults, n + 1) == Effective(faults, n)
    ensures Clean(faults, n) ==> Effective(faults, n + 1) == if faults(n) == BeforeReplace then n else n + 1
  {
  }

  datatype Outcome = Applied | RolledBack | RollbackRaised

  class Disk {
    var files: Files
    ghost var journal: seq<Files>

    /** `_atomic_write_bytes` together with the metadata call behind it; false when it raised. */
    method Replace(path: Path, payload: Bytes, fault: Fault) returns (ok: bool)
      modifies this
      ensures ok <==> fault == NoFault
      ensures fault == BeforeReplace ==> files == old(files) && journal == old(journal)
      ensures fault != BeforeReplace ==> files == old(files)[path := payload] && journal == old(journal) + [files]
    {
      if fault == BeforeReplace { return false; }
      files := files[path := payload];
      journal := journal + [files];
      ok := fault == NoFault;
    }

    /** `unlink(missing_ok=True)`. */
    method Unlink(path: Path, fault: Fault) returns (ok: bool)
      modifies this
      ensures ok <==> fault == NoFault
      ensures fault == BeforeReplace ==> files == old(files) && journal == old(journal)
      ensures fault != BeforeReplace ==> files == old(files) - {path} && journal == old(journal) + [files]
    {
      if fault == BeforeReplace { return false; }
      files := files - {path};
      journal := journal + [files];
      ok := fault == NoFault;
    }

    /** The loop inside the `try`; `k` replacements took effect. */
    method WriteSorted(plan: Plan, faults: nat -> Fault) returns (ok: bool, ghost k: nat)
      requires ValidPlan(plan)
      modifies this
      ensures k <= |plan.sorted| && files == Written(old(files), plan, k)
      ensures journal == old(journal) + ForwardJournal(old(files), plan, k)
      ensures k == Effective(faults, |plan.sorted|)
      ensures ok <==> Clean(faults, |plan.sorted|)
    {
      ghost var start, past := files, journal;
      Beginnings(start, plan, 0);
      ok, k := true, 0;
      for i := 0 to |plan.sorted|
        invariant ok && k == i && files == Written(start, plan, i)
        invariant journal == past + ForwardJournal(start, plan, i)
        invariant Clean(faults, i)
      {
        ok, k := WriteOne(plan, plan.sorted[i], faults(i), start, past, i);
        if !ok {
          FirstFault(faults, i, |plan.sorted|);
          return;
        }
      }
    }

    /** The writes inside the `try`. */
    method WriteForward(plan: Plan, faults: nat -> Fault) returns (ok: bool, ghost k: nat)
      requires ValidPlan(plan)
      modifies this
      ensures k <= |Writes(plan)| && files == Written(old(files), plan, k)
      ensures journal == old(journal) + ForwardJournal(old(files), plan, k)
      ensures k == Effective(faults, |Writes(plan)|)
      ensures ok <==> Clean(faults, |Writes(plan)|)
    {
      ghost var start, past := files, journal;
      assert |Writes(plan)| == |plan.sorted| + 1;
      EffectiveNext(faults, |plan.sorted|);
      ok, k := WriteSorted(plan, faults);
      if !ok { return; }
      ok, k := WriteOne(plan, plan.manifest, faults(|plan.sorted|), start, past, |plan.sorted|);
    }

    method WriteOne(plan: Plan, path: Path, fault: Fault, ghost start: Files, ghost past: seq<Files>, ghost i: nat)
      returns (ok: bool, ghost k: nat)
      requires ValidPlan(plan) && i < |Writes(plan)| && path == Writes(plan)[i]
      requires files == Written(start, plan, i) && journal == past + ForwardJournal(start, plan, i)
      modifies this
      ensures i <= k <= i + 1 && files == Written(start, plan, k)
      ensures journal == past + ForwardJournal(start, plan, k)
      ensures (ok <==> fault == NoFault) && k == if fault == BeforeReplace then i else i + 1
    {
      WriteStep(start, plan, i);
      ok := Replace(path, plan.staged[path], fault);
      k := if fault == BeforeReplace then i else i + 1;
    }

    /** The restorations of the `except` branch; `r` of them took effect. */
    method RestoreBackups(plan: Plan, existing: seq<Path>, backup: Files, faults: nat -> Fault, ghost start: Files,
                          ghost k: nat)
      returns (ok: bool, ghost r: nat)
      requires ValidPlan(plan) && k <= |Writes(plan)| && files == Written(start, plan, k)
      requires existing == Existing(start, plan.listed) && backup == BackupOf(start, existing)
      modifies this
      ensures r <= |existing| && files == Restored(start, plan, k, r)
      ensures journal == old(journal) + BackwardJournal(start, plan, k, r)
      ensures r == Effective(faults, |existing|)
      ensures ok <==> Clean(faults, |existing|)
    {
      ghost var past := journal;
      Beginnings(start, plan, k);
      ok, r := true, 0;
      for i := 0 to |existing|
        invariant ok && r == i && files == Restored(start, plan, k, i)
        invariant journal == past + BackwardJournal(start, plan, k, i)
        invariant Clean(faults, i)
      {
        ok, r := RestoreNext(plan, existing, backup, faults, start, past, k, i);
        if !ok { return; }
      }
    }

    /** One turn of the restoring loop: one more file restored, or the first fault. */
    method RestoreNext(plan: Plan, existing: seq<Path>, backup: Files, faults: nat -> Fault, ghost start: Files,
                       ghost past: seq<Files>, ghost k: nat, i: nat)
      returns (ok: bool, ghost r: nat)
      requires k <= |Writes(plan)| && i < |existing| && Clean(faults, i)
      requires existing == Existing(start, plan.listed) && backup == BackupOf(start, existing)
      requires files == Restored(start, plan, k, i) && journal == past + BackwardJournal(start, plan, k, i)
      modifies this
      ensures r <= |existing| && files == Restored(start, plan, k, r)
      ensures journal == past + BackwardJournal(start, plan, k, r)
      ensures ok ==> r == i + 1 && Clean(faults, i + 1)
      ensures !ok ==> r == Effective(faults, |existing|) && !Clean(faults, |existing|)
    {
      BackupHolds(start, plan.listed, i);
      ok, r := RestoreOne(plan, existing[i], backup[existing[i]], faults(i), start, past, k, i);
      if !ok { FirstFault(faults, i, |existing|); }
    }

    method RestoreOne(plan: Plan, path: Path, payload: Bytes, fault: Fault, ghost start: Files, ghost past: seq<Files>,
                      ghost k: nat, ghost i: nat)
      returns (ok: bool, ghost r: nat)
      requires k <= |Writes(plan)| && i < |Existing(start, plan.listed)|
      requires path == Existing(start, plan.listed)[i] && path in start && payload == start[path]
      requires files == Restored(start, plan, k, i) && journal == past + BackwardJournal(start, plan, k, i)
      modifies this
      ensures i <= r <= i + 1 && files == Restored(start, plan, k, r)
      ensures journal == past + BackwardJournal(start, plan, k, r)
      ensures (ok <==> fault == NoFault) && r == if fault == BeforeReplace then i else i + 1
    {
      RestoreStep(start, plan, k, i, path);
      ok := Replace(path, payload, fault);
      r := if fault == BeforeReplace then i else i + 1;
    }

    /** The `except` branch; `removed` says that the unlink took effect. */
    method Rollback(plan: Plan, existing: seq<Path>, backup: Files, faults: nat -> Fault, ghost start: Files,
                    ghost k: nat)
      returns (ok: bool, ghost r: nat, ghost removed: bool)
      requires ValidPlan(plan) && k <= |Writes(plan)| && files == Written(start, plan, k)
      requires existing == Existing(start, plan.listed) && backup == BackupOf(start, existing)
      modifies this
      ensures r <= |existing|
      ensures journal == old(journal) + RollbackJournal(start, plan, k, r, removed)
      ensures r == Effective(faults, |existing|)
      ensures removed <==> Removes(start, plan, faults)
      ensures ok ==> files == Reverted(start, plan, k)
      ensures !ok ==> files == if removed then Reverted(start, plan, k) else Restored(start, plan, k, r)
      ensures ok <==> Clean(faults, |existing|) && (plan.manifest !in start ==> faults(|existing|) == NoFault)
    {
      removed := false;
      ok, r := RestoreBackups(plan, existing, backup, faults, start, k);
      if ok && plan.manifest !in existing {
        ok := Unlink(plan.manifest, faults(|existing|));
        removed := faults(|existing|) != BeforeReplace;
      }
    }

    /**
      `apply_migration_plan`.  `faults` says how the forward writes go and `undo` how the rollback
      goes; `k`, `r` and `removed` count what took effect.
    */
    method Apply(plan: Plan, faults: nat -> Fault, undo: nat -> Fault)
      returns (outcome: Outcome, ghost k: nat, ghost r: nat, ghost removed: bool)
      requires ValidPlan(plan)
      modifies this
      ensures k <= |Writes(plan)| && r <= |Existing(old(files), plan.listed)|
      ensures k == Effective(faults, |Writes(plan)|)
      ensures !outcome.Applied? ==>
        r == Effective(undo, |Existing(old(files), plan.listed)|) && (removed <==> Removes(old(files), plan, undo))
      ensures outcome.Applied? ==> r == 0 && !removed
      ensures journal == old(journal) + ForwardJournal(old(files), plan, k) +
              RollbackJournal(old(files), plan, k, r, removed)
      ensures outcome.Applied? <==> Clean(faults, |Writes(plan)|)
      ensures outcome.Applied? ==> files == Written(old(files), plan, |Writes(plan)|)
      ensures outcome.RolledBack? ==> files == Reverted(old(files), plan, k)
      ensures outcome.RollbackRaised? ==>
        files == if removed then Reverted(old(files), plan, k) else Restored(old(files), plan, k, r)
      ensures !outcome.Applied? ==>
        (outcome.RolledBack? <==>
           && Clean(undo, |Existing(old(files), plan.listed)|)
           && (plan.manifest !in old(files) ==> undo(|Existing(old(files), plan.listed)|) == NoFault))
    {
      ghost var start := files;
      var existing := Existing(files, plan.listed);
      var backup := BackupOf(files, existing);
      var ok;
      r, removed := 0, false;
      ok, k := WriteForward(plan, faults);
      if ok { return Applied, k, r, removed; }
      ok, r, removed := Rollback(plan, existing, backup, undo, start, k);
      outcome := if ok then RolledBack else RollbackRaised;
    }
  }

  // ----- what an exception leaves behind -----

  lemma WrittenAt(files: Files, plan: Plan, k: nat, p: Path)
    requires ValidPlan(plan) && k <= |Writes(plan)|
    ensures p in Writes(plan)[..k] ==>
      p in plan.staged && p in Written(files, plan, k) && Written(files, plan, k)[p] == plan.staged[p]
    ensures p !in Writes(plan)[..k] ==>
      (p in Written(files, plan, k) <==> p in files) && (p in files ==> Written(files, plan, k)[p] == files[p])
  {
    OverlayAt(files, plan.staged, Writes(plan)[..k], p);
    if p in Writes(plan)[..k] {
      var i :| 0 <= i < k && Writes(plan)[i] == p;
      assert p in plan.sorted || p == plan.manifest;
    }
  }

  /** Without an exception every staged file has its new bytes and no other file changed. */
  lemma AppliedIsMerge(files: Files, plan: Plan)
    requires ValidPlan(plan)
    ensures Written(files, plan, |Writes(plan)|) == files + plan.staged
  {
    var after := Written(files, plan, |Writes(plan)|);
    assert Writes(plan)[..|Writes(plan)|] == Writes(plan);
    forall p
      ensures p in after <==> p in files + plan.staged
      ensures p in after ==> after[p] == (files + plan.staged)[p]
    {
      OverlayAt(files, plan.staged, Writes(plan), p);
      assert p in Writes(plan) <==> p in plan.sorted || p == plan.manifest;
    }
  }

  lemma RevertedAt(files: Files, plan: Plan, k: nat, p: Path)
    requires ValidPlan(plan) && k <= |Writes(plan)|
    ensures p in files ==> p in Reverted(files, plan, k) && Reverted(files, plan, k)[p] == files[p]
    ensures p !in files ==> (p in Reverted(files, plan, k) <==> p in Writes(plan)[..k] && p != plan.manifest)
  {
    WrittenAt(files, plan, k, p);
    var existing := Existing(files, plan.listed);
    assert existing[..|existing|] == existing;
    OverlayAt(Written(files, plan, k), files, existing, p);
    if p in files && p in plan.staged { assert p in existing; }
  }

  /**
    A complete rollback restores the disk exactly when every replaced file but the manifest existed
    before; the staged files of a plan always do, being read to build it.
  */
  lemma RollbackRestoresIff(files: Files, plan: Plan, k: nat)
    requires ValidPlan(plan) && k <= |Writes(plan)|
    ensures Reverted(files, plan, k) == files <==>
            forall p :: p in Writes(plan)[..k] && p != plan.manifest ==> p in files
  {
    var after := Reverted(files, plan, k);
    if p :| p in Writes(plan)[..k] && p != plan.manifest && p !in files {
      RevertedAt(files, plan, k, p);
      assert p in after;
    } else {
      forall p ensures (p in after <==> p in files) && (p in files ==> after[p] == files[p]) {
        RevertedAt(files, plan, k, p);
      }
    }
  }

  // ----- what a crash leaves behind -----

  /** The new manifest is on disk only if every other staged file has its new bytes. */
  ghost predicate CommitRecord(plan: Plan, disk: Files)
    requires ValidPlan(plan)
  {
    plan.manifest in disk && disk[plan.manifest] == plan.staged[plan.manifest] ==>
      forall p :: p in plan.sorted ==> p in disk && disk[p] == plan.staged[p]
  }

  ghost predicate FreshManifest(files: Files, plan: Plan)
    requires ValidPlan(plan)
  {
    plan.manifest in files ==> files[plan.manifest] != plan.staged[plan.manifest]
  }

  lemma ManifestIsLast(plan: Plan, k: nat)
    requires ValidPlan(plan) && k <= |Writes(plan)|
    ensures plan.manifest in Writes(plan)[..k] <==> k == |Writes(plan)|
    ensures forall p :: p in plan.sorted ==> p in Writes(plan)
  {
    if k < |Writes(plan)| {
      forall i | 0 <= i < k ensures Writes(plan)[i] != plan.manifest { assert plan.sorted[i] in plan.sorted; }
    } else {
      assert Writes(plan)[k - 1] == plan.manifest;
    }
  }

  /** However far the writes got, a crash leaves the manifest a valid commit record. */
  lemma CrashDuringWrites(files: Files, plan: Plan, k: nat)
    requires ValidPlan(plan) && FreshManifest(files, plan) && k <= |Writes(plan)|
    ensures CommitRecord(plan, Written(files, plan, k))
  {
    ManifestIsLast(plan, k);
    WrittenAt(files, plan, k, plan.manifest);
    if k == |Writes(plan)| {
      assert Writes(plan)[..k] == Writes(plan);
      forall p | p in plan.sorted ensures p in Written(files, plan, k) && Written(files, plan, k)[p] == plan.staged[p] {
        WrittenAt(files, plan, k, p);
      }
    }
  }

  /** Whether the first `r` restored files, the manifest aside, were staged with the bytes they already had. */
  ghost predicate Harmless(files: Files, plan: Plan, r: nat)
    requires ValidPlan(plan) && r <= |Existing(files, plan.listed)|
  {
    forall p :: p in Existing(files, plan.listed)[..r] && p != plan.manifest ==> files[p] == plan.staged[p]
  }

  lemma RestoredAt(files: Files, plan: Plan, k: nat, r: nat, p: Path)
    requires ValidPlan(plan) && k <= |Writes(plan)| && r <= |Existing(files, plan.listed)|
    ensures p in Existing(files, plan.listed)[..r] ==>
      p in files && p in Restored(files, plan, k, r) && Restored(files, plan, k, r)[p] == files[p]
    ensures p !in Existing(files, plan.listed)[..r] ==>
      (p in Restored(files, plan, k, r) <==> p in Written(files, plan, k)) &&
      (p in Restored(files, plan, k, r) ==> Restored(files, plan, k, r)[p] == Written(files, plan, k)[p])
  {
    var existing := Existing(files, plan.listed);
    OverlayAt(Written(files, plan, k), files, existing[..r], p);
    if p in existing[..r] { assert p in existing; }
  }

  /**
    A crash in the middle of a rollback.  The manifest is a valid commit record unless it had already
    been replaced, is not yet restored, and a file with different bytes has been.
  */
  lemma CrashDuringRollback(files: Files, plan: Plan, k: nat, r: nat)
    requires ValidPlan(plan) && FreshManifest(files, plan)
    requires k <= |Writes(plan)| && r <= |Existing(files, plan.listed)|
    ensures CommitRecord(plan, Restored(files, plan, k, r)) <==>
            k < |Writes(plan)| || plan.manifest in Existing(files, plan.listed)[..r] || Harmless(files, plan, r)
  {
    var restored := Existing(files, plan.listed)[..r];
    ManifestIsLast(plan, k);
    WrittenAt(files, plan, k, plan.manifest);
    RestoredAt(files, plan, k, r, plan.manifest);
    if k == |Writes(plan)| && plan.manifest !in restored {
      forall p | p in plan.sorted
        ensures p in Restored(files, plan, k, r)
        ensures Restored(files, plan, k, r)[p] == if p in restored then files[p] else plan.staged[p]
      {
        RestoredAt(files, plan, k, r, p);
        WrittenAt(files, plan, k, p);
        assert Writes(plan)[..k] == Writes(plan);
      }
      HarmlessSorted(files, plan, r);
    }
  }

  lemma HarmlessSorted(files: Files, plan: Plan, r: nat)
    requires ValidPlan(plan) && r <= |Existing(files, plan.listed)|
    ensures Harmless(files, plan, r) <==>
            forall p :: p in plan.sorted && p in Existing(files, plan.listed)[..r] ==> files[p] == plan.staged[p]
  {
    forall p | p in Existing(files, plan.listed)[..r] && p != plan.manifest ensures p in plan.sorted {
      assert p in Existing(files, plan.listed);
    }
  }

  /** The manifest is restored last. */
  lemma {:induction false} ManifestRestoredLast(files: Files, plan: Plan, r: nat)
    requires ValidPlan(plan) && r < |Existing(files, plan.listed)|
    ensures plan.manifest !in Existing(files, plan.listed)[..r]
  {
    var n := |plan.listed| - 1;
    var existing, rest := Existing(files, plan.listed), Existing(files, plan.listed[..n]);
    assert plan.manifest !in plan.listed[..n];
    assert plan.manifest !in rest;
    assert existing == rest || existing == rest + [plan.manifest];
  }

  ghost predicate AllCommitRecords(plan: Plan, disks: seq<Files>)
    requires ValidPlan(plan)
  {
    forall i :: 0 <= i < |disks| ==> CommitRecord(plan, disks[i])
  }

  /**
    Over everything the disk went through, crashes included, the manifest stays a valid commit record
    exactly when an exception never came after its own replacement, or the rollback changed no file.
  */
  lemma JournalSafeIff(files: Files, plan: Plan, k: nat, r: nat, removed: bool)
    requires ValidPlan(plan) && FreshManifest(files, plan)
    requires k <= |Writes(plan)| && r <= |Existing(files, plan.listed)|
    requires removed ==> plan.manifest !in files
    ensures AllCommitRecords(plan, ForwardJournal(files, plan, k) + RollbackJournal(files, plan, k, r, removed)) <==>
            k < |Writes(plan)| || Harmless(files, plan, r)
  {
    var back, tail := BackwardJournal(files, plan, k, r), if removed then [Reverted(files, plan, k)] else [];
    ForwardSafe(files, plan, k);
    BackwardSafeIff(files, plan, k, r);
    AllConcat(plan, back, tail);
    AllConcat(plan, ForwardJournal(files, plan, k), back + tail);
  }

  lemma AllConcat(plan: Plan, a: seq<Files>, b: seq<Files>)
    requires ValidPlan(plan)
    ensures AllCommitRecords(plan, a + b) <==> AllCommitRecords(plan, a) && AllCommitRecords(plan, b)
  {
    assert forall i :: 0 <= i < |a| ==> (a + b)[i] == a[i];
    assert forall i :: 0 <= i < |b| ==> (a + b)[|a| + i] == b[i];
  }

  lemma {:induction false} ForwardSafe(files: Files, plan: Plan, k: nat)
    requires ValidPlan(plan) && FreshManifest(files, plan) && k <= |Writes(plan)|
    ensures AllCommitRecords(plan, ForwardJournal(files, plan, k))
  {
    if k > 0 {
      ForwardSafe(files, plan, k - 1);
      CrashDuringWrites(files, plan, k);
    }
  }

  lemma {:induction false} BackwardSafeIff(files: Files, plan: Plan, k: nat, r: nat)
    requires ValidPlan(plan) && FreshManifest(files, plan)
    requires k <= |Writes(plan)| && r <= |Existing(files, plan.listed)|
    ensures AllCommitRecords(plan, BackwardJournal(files, plan, k, r)) <==>
            k < |Writes(plan)| || Harmless(files, plan, r)
  {
    if r == 0 {
      assert Harmless(files, plan, 0);
    } else {
      BackwardSafeIff(files, plan, k, r - 1);
      BackwardJournalStep(files, plan, k, r);
      RestorationSafeIff(files, plan, k, r);
    }
  }

  lemma BackwardJournalStep(files: Files, plan: Plan, k: nat, r: nat)
    requires ValidPlan(plan) && k <= |Writes(plan)| && 0 < r <= |Existing(files, plan.listed)|
    ensures AllCommitRecords(plan, BackwardJournal(files, plan, k, r)) <==>
            AllCommitRecords(plan, BackwardJournal(files, plan, k, r - 1)) &&
            CommitRecord(plan, Restored(files, plan, k, r))
  {
    AllAppend(plan, BackwardJournal(files, plan, k, r - 1), Restored(files, plan, k, r));
  }

  lemma RestorationSafeIff(files: Files, plan: Plan, k: nat, r: nat)
    requires ValidPlan(plan) && FreshManifest(files, plan)
    requires k <= |Writes(plan)| && 0 < r <= |Existing(files, plan.listed)|
    ensures (k < |Writes(plan)| || Harmless(files, plan, r - 1)) && CommitRecord(plan, Restored(files, plan, k, r))
            <==> k < |Writes(plan)| || Harmless(files, plan, r)
  {
    CrashDuringRollback(files, plan, k, r);
    HarmlessStep(files, plan, r - 1);
  }

  lemma AllAppend(plan: Plan, disks: seq<Files>, disk: Files)
    requires ValidPlan(plan)
    ensures AllCommitRecords(plan, disks + [disk]) <==> AllCommitRecords(plan, disks) && CommitRecord(plan, disk)
  {
    assert [disk][0] == disk;
    AllConcat(plan, disks, [disk]);
  }

  /** The manifest is the last file to be restored, so its restoration never repairs an earlier state. */
  lemma HarmlessStep(files: Files, plan: Plan, r: nat)
    requires ValidPlan(plan) && r < |Existing(files, plan.listed)|
    ensures Harmless(files, plan, r + 1) ==> Harmless(files, plan, r)
    ensures plan.manifest in Existing(files, plan.listed)[..r + 1] ==>
      (Harmless(files, plan, r + 1) <==> Harmless(files, plan, r))
  {
    var existing := Existing(files, plan.listed);
    assert existing[..r + 1] == existing[..r] + [existing[r]];
    ManifestRestoredLast(files, plan, r);
  }

  const OLD: Bytes := [0]
  const NEW: Bytes := [1]

  /** The second replacement takes effect and raises. */
  function SecondRaises(i: nat): Fault {
    if i == 1 then AfterReplace else NoFault
  }

  const OLD_FILES: Files := map["a" := OLD]
  const SMALL_PLAN: Plan := Plan(map["a" := NEW, "m" := NEW], ["a", "m"], ["a"], "m")

  /**
    One file and a fresh manifest.  Both writes take effect, the directory sync of the manifest raises,
    and the machine stops after the first restoration: the new manifest is on disk beside the old file.
  */
  lemma StoppedRollbackWitness()
    ensures ValidPlan(SMALL_PLAN) && FreshManifest(OLD_FILES, SMALL_PLAN)
    ensures Effective(SecondRaises, |Writes(SMALL_PLAN)|) == 2 && !Clean(SecondRaises, |Writes(SMALL_PLAN)|)
    ensures |Existing(OLD_FILES, SMALL_PLAN.listed)| == 1
    ensures
      var disk := Restored(OLD_FILES, SMALL_PLAN, 2, 1);
      disk == map["a" := OLD, "m" := NEW] && !CommitRecord(SMALL_PLAN, disk)
  {
    SmallPlanIsValid();
    assert SecondRaises(0) == NoFault && SecondRaises(1) == AfterReplace;
    FirstFault(SecondRaises, 1, 2);
    SmallPlanStates();
    assert "a" in SMALL_PLAN.sorted && OLD[0] != NEW[0];
  }

  lemma SmallPlanIsValid()
    ensures ValidPlan(SMALL_PLAN) && Writes(SMALL_PLAN) == ["a", "m"]
  {
    assert "a"[0] != "m"[0];
    assert SMALL_PLAN.listed[0] == "a" && SMALL_PLAN.listed[1] == "m" && SMALL_PLAN.sorted[0] == "a";
  }

  lemma SmallPlanStates()
    ensures Existing(OLD_FILES, SMALL_PLAN.listed) == ["a"]
    ensures Restored(OLD_FILES, SMALL_PLAN, 2, 1) == map["a" := OLD, "m" := NEW]
  {
    SmallPlanIsValid();
    var files := OLD_FILES;
    assert "a"[0] != "m"[0];
    assert ["a", "m"][..1] == ["a"] && ["a"][..0] == [];
    assert Existing(files, ["a"]) == ["a"];
    assert Overlay(files, SMALL_PLAN.staged, ["a"]) == map["a" := NEW];
    assert ["a", "m"][..2] == ["a", "m"];
    assert Written(files, SMALL_PLAN, 2) == map["a" := NEW, "m" := NEW];
    assert Existing(files, SMALL_PLAN.listed)[..1] == ["a"];
    assert Overlay(map["a" := NEW, "m" := NEW], files, ["a"]) == map["a" := OLD, "m" := NEW];
  }
}
