/** Running Phase B again after it stopped part-way. */
module Retry {
  import opened Wrappers
  import opened Records
  import opened Manifest
  import opened Store
  import opened Layout
  import opened AtomicWrite
  import opened HostWrites
  import opened Session
  import opened PhaseBInstall
  import opened PhaseB

  /** The same invocation, except that the XML generator picked another uuid. */
  ghost predicate SameButXml(job: Job, again: Job) {
    && again == job.(mode := job.mode.(xml := again.mode.xml))
    && (again.mode.xml.Some? <==> job.mode.xml.Some?)
  }

  ghost predicate SamePaths(a: seq<Write>, b: seq<Write>) {
    |a| == |b| && forall i | 0 <= i < |a| :: a[i].path == b[i].path
  }

  lemma StepPathsAgree(job: Job, again: Job, s: PlannedStep)
    requires SameButXml(job, again)
    ensures SamePaths(StepWrites(job, s), StepWrites(again, s))
    ensures s.kind != VmXmlGenerate ==> StepWrites(job, s) == StepWrites(again, s)
  {
  }

  lemma AllPathsAgree(job: Job, again: Job, steps: seq<PlannedStep>)
    requires SameButXml(job, again)
    ensures SamePaths(AllWrites(job, steps), AllWrites(again, steps))
    ensures WritePaths(AllWrites(job, steps)) == WritePaths(AllWrites(again, steps))
  {
    if steps != [] {
      var n := |steps| - 1;
      AllPathsAgree(job, again, steps[..n]);
      StepPathsAgree(job, again, steps[n]);
    }
    var a, b := AllWrites(job, steps), AllWrites(again, steps);
    forall p | p in WritePaths(a) ensures p in WritePaths(b) {
      var i :| 0 <= i < |a| && a[i].path == p;
      assert b[i] in b;
    }
    forall p | p in WritePaths(b) ensures p in WritePaths(a) {
      var i :| 0 <= i < |b| && b[i].path == p;
      assert a[i] in a;
    }
  }

  lemma SameRecord(job: Job, again: Job)
    requires SameButXml(job, again)
    ensures Scope(again) == Scope(job) && Inputs(again) == Inputs(job) && DiskPaths(again) == DiskPaths(job)
  {
    hide StepPaths;
    assert again.pending == job.pending && again.Config() == job.Config();
    forall p ensures p in Scope(again) <==> p in Scope(job) {
    }
  }

  lemma ResumableStill(job: Job, again: Job, d: Disk, later: Disk)
    requires SameButXml(job, again) && Resumable(job, d) && Safe(job, d, later)
    ensures Resumable(again, later)
  {
    hide Keeps, StepPaths;
    var roots, id := job.roots, job.pending.snapshotId;
    forall s, p | s in job.pending.remainingSteps && p in StepPaths(again.Config(), s)
      ensures Covers(ManifestOf(later, roots, id), p)
    {
      assert p in StepPaths(job.Config(), s);
      ExtendsCovers(ManifestOf(d, roots, id), ManifestOf(later, roots, id), p);
    }
  }

  /** The configuration, the plan and the host still allow the step; only the domain may stand in the way. */
  lemma RunnableStill(job: Job, again: Job, sha: Contents -> Digest, s: PlannedStep, d: Disk, later: Disk, e: Error)
    requires SameButXml(job, again) && Ran(job, sha, d, later, Failure(e))
    requires Runnable(job, s, d, ManifestOf(d, job.roots, job.pending.snapshotId))
    requires s.kind == VmRegister && job.mode.live ==> job.Config().vmName !in later.domains
    ensures Runnable(again, s, later, ManifestOf(later, job.roots, job.pending.snapshotId))
  {
    hide Keeps, AddsNothing;
    var m0, m := ManifestOf(d, job.roots, job.pending.snapshotId), ManifestOf(later, job.roots, job.pending.snapshotId);
    if HasXmlEntry(m0) {
      var i :| 0 <= i < |m0.entries| && m0.entries[i].producedBy == VmXmlGenerate;
      assert SameCapture(m0.entries[i], m.entries[i]);
    }
    if s.kind == VmRegister && job.Config().disk.Existing? {
      assert job.Config().disk.path in Scope(job) + Inputs(job);
    }
  }

  /** The name is free, and every file the steps write through the snapshot is as captured. */
  ghost predicate Unspoiled(job: Job, sha: Contents -> Digest, d: Disk)
    requires HasManifest(d, job.roots, job.pending.snapshotId)
  {
    forall s | s in job.pending.remainingSteps ::
      && (s.kind == VmRegister && job.mode.live ==> job.Config().vmName !in d.domains)
      && Permitted(job, s, sha, d, ManifestOf(d, job.roots, job.pending.snapshotId))
  }

  lemma RunnableAgain(job: Job, again: Job, sha: Contents -> Digest, d: Disk, later: Disk, e: Error)
    requires SameButXml(job, again) && Ran(job, sha, d, later, Failure(e))
    requires AllRunnable(job, sha, d, ManifestOf(d, job.roots, job.pending.snapshotId))
    requires Unspoiled(again, sha, later)
    ensures AllRunnable(again, sha, later, ManifestOf(later, job.roots, job.pending.snapshotId))
  {
    hide Runnable, StepWrites, Permitted, Executed, Stays, DomainsGrow;
    AllPathsAgree(job, again, job.pending.remainingSteps);
    DistinctByPaths(AllWrites(job, job.pending.remainingSteps), AllWrites(again, job.pending.remainingSteps));
    forall s | s in job.pending.remainingSteps
      ensures Runnable(again, s, later, ManifestOf(later, job.roots, job.pending.snapshotId))
    {
      RunnableStill(job, again, sha, s, d, later, e);
    }
  }

  lemma DistinctByPaths(a: seq<Write>, b: seq<Write>)
    requires SamePaths(a, b) && DistinctWrites(a)
    ensures DistinctWrites(b)
  {
  }

  lemma SucceededUnspoiled(job: Job, sha: Contents -> Digest, d: Disk, later: Disk, outcome: PhaseBOutcome)
    requires Ran(job, sha, d, later, Success(outcome))
    requires DistinctWrites(AllWrites(job, job.pending.remainingSteps))
    ensures Unspoiled(job, sha, d)
  {
    hide Permitted, StepWrites, Executed, Contained;
    var m0, m := ManifestOf(d, job.roots, job.pending.snapshotId), ManifestOf(later, job.roots, job.pending.snapshotId);
    forall s | s in job.pending.remainingSteps
      ensures s.kind == VmRegister && job.mode.live ==> job.Config().vmName !in d.domains
      ensures Permitted(job, s, sha, d, m0)
    {
      assert InPlace(job, sha, s, d, later, m0, m);
    }
  }

  /**
   * Phase B stopped by a failure can be run again, however often and wherever it stopped: without
   * further faults the rerun succeeds exactly when the domain is not defined yet and no file that
   * existed at capture has been replaced.
   */
  lemma RetrySucceedsIff(
    job: Job, again: Job, sha: Contents -> Digest, d0: Disk, d1: Disk, d2: Disk,
    failed: Result<PhaseBOutcome, Error>, r: Result<PhaseBOutcome, Error>)
    requires SameButXml(job, again) && job.roots.PendingPath() in d0.files
    requires Ran(job, sha, d0, d1, failed) && failed.Failure?
    requires AllRunnable(job, sha, d0, ManifestOf(d0, job.roots, job.pending.snapshotId))
    requires Ran(again, sha, d1, d2, r) && Unhindered(again, sha, d1, r)
    ensures r.Success? <==> Unspoiled(again, sha, d1)
  {
    hide AllRunnable, Unspoiled, Contained, Done, Safe;
    if Unspoiled(again, sha, d1) {
      RunnableAgain(job, again, sha, d0, d1, failed.error);
    }
    if r.Success? {
      DistinctAgain(job, again, sha, d0);
      SucceededUnspoiled(again, sha, d1, d2, r.value);
    }
  }

  lemma DistinctAgain(job: Job, again: Job, sha: Contents -> Digest, d: Disk)
    requires SameButXml(job, again) && HasManifest(d, job.roots, job.pending.snapshotId)
    requires AllRunnable(job, sha, d, ManifestOf(d, job.roots, job.pending.snapshotId))
    ensures DistinctWrites(AllWrites(again, again.pending.remainingSteps))
  {
    AllPathsAgree(job, again, job.pending.remainingSteps);
    DistinctByPaths(AllWrites(job, job.pending.remainingSteps), AllWrites(again, job.pending.remainingSteps));
  }

  /** Files that did not exist at capture never spoil a rerun, whatever else happened to them. */
  lemma NewFilesUnspoiled(job: Job, again: Job, sha: Contents -> Digest, d0: Disk, d1: Disk)
    requires SameButXml(job, again) && Resumable(job, d0) && Safe(job, d0, d1)
    requires forall w | w in AllWrites(job, job.pending.remainingSteps) ::
      var e := EntryFor(ManifestOf(d0, job.roots, job.pending.snapshotId), w.path);
      e.Some? && !e.value.originalExisted
    requires job.mode.live ==> job.Config().vmName !in d1.domains
    ensures Unspoiled(again, sha, d1)
  {
    hide Keeps, AddsNothing;
    var m0, m1 := ManifestOf(d0, job.roots, job.pending.snapshotId), ManifestOf(d1, job.roots, job.pending.snapshotId);
    var steps := job.pending.remainingSteps;
    forall s, w | s in steps && w in StepWrites(again, s) ensures WriteAllowed(d1, sha, m1, w.path) {
      StepPathsAgree(job, again, s);
      var i :| 0 <= i < |StepWrites(again, s)| && StepWrites(again, s)[i] == w;
      var v := StepWrites(job, s)[i];
      assert v in StepWrites(job, s) && v.path == w.path;
      WritesOfStep(job, steps, s);
      ExtendsEntryFor(m0, m1, v.path);
    }
  }

  /** A rerun that succeeds completes the same steps and leaves the files an uninterrupted run would have left. */
  lemma RetryIsEquivalent(
    job: Job, again: Job, sha: Contents -> Digest, d0: Disk, d1: Disk, d2: Disk,
    failed: Result<PhaseBOutcome, Error>, outcome: PhaseBOutcome, straight: Disk, straightOutcome: PhaseBOutcome)
    requires SameButXml(job, again)
    requires Ran(job, sha, d0, d1, failed) && failed.Failure?
    requires Ran(again, sha, d1, d2, Success(outcome))
    requires Ran(again, sha, d0, straight, Success(straightOutcome))
    ensures outcome == straightOutcome
    ensures forall p | p in Scope(job) :: Same(straight, d2, p)
  {
    hide Safe, Resumable, DomainsGrow, Stays, InPlace, StepPaths;
    var writes := AllWrites(again, job.pending.remainingSteps);
    AllPathsAgree(job, again, job.pending.remainingSteps);
    SameRecord(job, again);
    forall p | p in Scope(job) ensures Same(straight, d2, p) {
      if p !in WritePaths(writes) {
        assert p in Scope(job) + Inputs(job);
        assert Same(d0, d1, p);
      }
      ApplyDependsOutside(d0.files, d1.files, writes, p);
    }
  }
}
