/** Phase B: the loop over the remaining steps, and clearing the pending record. */
module PhaseB {
  import opened Wrappers
  import opened Paths
  import opened Records
  import opened Manifest
  import opened Store
  import opened Layout
  import opened AtomicWrite
  import opened Session
  import opened HostWrites
  import opened Staging
  import opened Planner
  import opened PhaseBInstall

  datatype PhaseBOutcome = PhaseBOutcome(
    snapshotId: string, completedSteps: seq<StepKind>, deferredSteps: seq<StepKind>, pendingCleared: bool)

  function CompletedKinds(steps: seq<PlannedStep>): seq<StepKind> {
    if steps == [] then []
    else
      var last := steps[|steps| - 1].kind;
      CompletedKinds(steps[..|steps| - 1]) + (if last == LookingGlassInstall then [] else [last])
  }

  function DeferredKinds(steps: seq<PlannedStep>): seq<StepKind> {
    if steps == [] then []
    else
      var last := steps[|steps| - 1].kind;
      DeferredKinds(steps[..|steps| - 1]) + (if last == LookingGlassInstall then [last] else [])
  }

  lemma OutcomeKindsAre(steps: seq<PlannedStep>)
    requires forall s | s in steps :: s.kind !in {Snapshot, BootloaderWrite, VfioConfig, InitramfsWrite}
    ensures Selects(steps, {HookInstall, VmXmlGenerate, VmRegister, Verify}, CompletedKinds(steps))
    ensures Selects(steps, {LookingGlassInstall}, DeferredKinds(steps))
  {
    hide Selects;
    var made, deferred := {HookInstall, VmXmlGenerate, VmRegister, Verify}, {LookingGlassInstall};
    if steps == [] {
      SelectsNone(made);
      SelectsNone(deferred);
    } else {
      var n := |steps| - 1;
      var front, last := steps[..n], steps[n];
      assert steps == front + [last] && last in steps;
      OutcomeKindsAre(front);
      SelectsMore(front, last, made, CompletedKinds(front));
      SelectsMore(front, last, deferred, DeferredKinds(front));
    }
  }

  // ----- one step -----

  method RunStep(
    fs: FileSystem, sha: Contents -> Digest, job: Job, step: PlannedStep, m: SnapshotManifest, ghost run: Run)
    returns (r: Outcome<Error>, mLater: SnapshotManifest)
    requires CanStart(job, run, step, fs.state, m) && run.Uses(fs, sha) && run.Guarded(fs.journal)
    modifies fs
    ensures fs.Advances() && run.Uses(fs, sha) && run.Guarded(fs.journal)
    ensures StepBounds(job, run, step, old(fs.state), fs.state, m, mLater)
    ensures r.Pass? ==> HasManifest(fs.state, run.roots, run.id) && ManifestOf(fs.state, run.roots, run.id) == mLater
    ensures r.Pass? && run.quiet ==> StepDone(job, run, sha, step, old(fs.state), fs.state, m, mLater)
    ensures r.Fail? && r.error.Refused? ==> IsPhaseA(step.kind)
    ensures r.Pass? ==> !IsPhaseA(step.kind)
    ensures run.quiet && old(fs.Calm()) && job.roots.SnapshotDir(job.pending.snapshotId) in old(fs.state).dirs
            && Runnable(job, step, old(fs.state), m) && Permitted(job, step, sha, old(fs.state), m)
            ==> r.Pass?
  {
    hide FileSystem.OnRecord, StepEffect, Keeps, Rewrites, Extends, KeepsEntries, Apply, StepBounds, Run.Guarded;
    hide Run.Uses, Permitted;
    hide FileSystem.Quiet;
    NoBounds(job, run, step, fs.state, m);
    match step.kind {
      case Snapshot => return Fail(Refused(step.kind)), m;
      case BootloaderWrite => return Fail(Refused(step.kind)), m;
      case VfioConfig => return Fail(Refused(step.kind)), m;
      case InitramfsWrite => return Fail(Refused(step.kind)), m;
      case VmXmlGenerate => r, mLater := RunVmXmlStep(fs, sha, job, step, m, run);
      case VmRegister => r, mLater := RunVmRegisterStep(fs, sha, job, step, m, run);
      case HookInstall => r, mLater := RunHookInstallStep(fs, sha, job, step, m, run);
      case LookingGlassInstall => IdleStepDone(job, run, sha, step, fs.state, m); return Pass, m;
      case Verify => IdleStepDone(job, run, sha, step, fs.state, m); return Pass, m;
    }
  }

  lemma IdleStepDone(job: Job, run: Run, sha: Contents -> Digest, step: PlannedStep, d: Disk, m: SnapshotManifest)
    requires step.kind == LookingGlassInstall || step.kind == Verify
    ensures StepDone(job, run, sha, step, d, d, m, m)
  {
  }

  // ----- the paths of a job -----

  /** The files the remaining steps may write. */
  ghost function Scope(job: Job): set<Path> {
    set s, p | s in job.pending.remainingSteps && p in StepPaths(job.Config(), s) :: p
  }

  /** The file they look at besides. */
  ghost function Inputs(job: Job): set<Path> {
    if job.Config().disk.Existing? then {job.Config().disk.path} else {}
  }

  /** None of them is Virtu's own. */
  ghost predicate WritesHostOnly(job: Job) {
    forall s, p | s in job.pending.remainingSteps && p in StepPaths(job.Config(), s) :: !job.roots.Protected(p)
  }

  /** What a pending record relies on: its snapshot is there and covers everything left to do. */
  ghost predicate Resumable(job: Job, d: Disk) {
    && HasManifest(d, job.roots, job.pending.snapshotId)
    && forall s, p | s in job.pending.remainingSteps && p in StepPaths(job.Config(), s) ::
         Covers(ManifestOf(d, job.roots, job.pending.snapshotId), p)
  }

  /** One invocation as a run: covered by its manifest if the record is resumable, and then quiet if others are. */
  ghost function RunOf(job: Job, sha: Contents -> Digest, d: Disk, n: nat, quiet: bool): Run {
    Run(
      job.roots, job.pending.snapshotId, sha, d, Scope(job), Inputs(job), n, false, Resumable(job, d),
      quiet && Resumable(job, d) && forall p | p in Inputs(job) :: !job.roots.Protected(p))
  }

  // ----- the steps so far -----

  /** After `steps`, whether or not the last of them succeeded. */
  ghost predicate Bounds(
    job: Job, run: Run, steps: seq<PlannedStep>, start: Disk, d: Disk, m0: SnapshotManifest, m: SnapshotManifest)
  {
    && StepEffect(run, start, d, m0, m, WritePaths(AllWrites(job, steps)))
    && (run.quiet ==>
          && Stays(run.Known(), start, d, DiskPaths(job))
          && DomainsGrow(job, start, d, m0, m)
          && ((forall s | s in steps :: s.kind != VmRegister) ==> d.domains == start.domains))
  }

  /** After `steps` have all succeeded, while others left the files and the domains alone. */
  ghost predicate Done(
    job: Job, sha: Contents -> Digest, steps: seq<PlannedStep>, start: Disk, d: Disk, m0: SnapshotManifest,
    m: SnapshotManifest)
  {
    && HostIs(Scope(job), d, Apply(start.files, AllWrites(job, steps)))
    && (forall s | s in steps && s.kind == VmRegister && job.mode.live ::
          && job.Config().vmName !in start.domains && job.Config().vmName in d.domains
          && UndefineLibvirtDomain(job.Config().vmName) in m.restoreActions)
    && (DistinctWrites(AllWrites(job, steps)) ==> forall s | s in steps :: InPlace(job, sha, s, start, d, m0, m))
  }

  /** The step was allowed to write, and what it installed is still there. */
  ghost predicate InPlace(
    job: Job, sha: Contents -> Digest, step: PlannedStep, start: Disk, d: Disk, m0: SnapshotManifest,
    m: SnapshotManifest)
  {
    && Permitted(job, step, sha, start, m0)
    && (step.kind == HookInstall ==> Context(job.profile, job.Config()).Some?)
    && (step.kind == VmXmlGenerate ==> step.touches != [] && job.mode.xml.Some?)
    && (step.kind == HookInstall ==>
          Recorded(d, sha, m, StepWrites(job, step)) && forall w | w in StepWrites(job, step) :: w.path in d.executable)
  }

  lemma AllWritesSnoc(job: Job, steps: seq<PlannedStep>, step: PlannedStep)
    ensures AllWrites(job, steps + [step]) == AllWrites(job, steps) + StepWrites(job, step)
    ensures WritePaths(AllWrites(job, steps + [step])) ==
      WritePaths(AllWrites(job, steps)) + WritePaths(StepWrites(job, step))
  {
    assert (steps + [step])[..|steps|] == steps;
    WritePathsAppend(AllWrites(job, steps), StepWrites(job, step));
  }

  lemma BoundsStep(
    job: Job, run: Run, steps: seq<PlannedStep>, step: PlannedStep, start: Disk, mid: Disk, d: Disk,
    m0: SnapshotManifest, mMid: SnapshotManifest, m: SnapshotManifest)
    requires Bounds(job, run, steps, start, mid, m0, mMid)
    requires StepBounds(job, run, step, mid, d, mMid, m)
    ensures Bounds(job, run, steps + [step], start, d, m0, m)
  {
    hide StepEffect, Stays;
    AllWritesSnoc(job, steps, step);
    StepEffectTransitive(
      run, start, mid, d, m0, mMid, m, WritePaths(AllWrites(job, steps)), WritePaths(StepWrites(job, step)));
    if run.quiet {
      if step.kind != VmRegister {
        StaysButImage(run.Known(), mid, d, DiskPaths(job));
      }
      StaysTransitive(run.Known(), start, mid, d, DiskPaths(job));
    }
  }

  lemma WritesOfStep(job: Job, steps: seq<PlannedStep>, s: PlannedStep)
    requires s in steps
    ensures forall w | w in StepWrites(job, s) :: w in AllWrites(job, steps)
  {
    var n := |steps| - 1;
    if s != steps[n] {
      WritesOfStep(job, steps[..n], s);
    }
  }

  /** Distinct writes of a longer list: the new step's paths are not among the earlier ones. */
  lemma DistinctSplit(a: seq<Write>, b: seq<Write>)
    requires DistinctWrites(a + b)
    ensures DistinctWrites(a) && DistinctWrites(b)
    ensures forall v, w | v in a && w in b :: v.path != w.path
  {
    var ab := a + b;
    assert forall i | 0 <= i < |a| :: ab[i] == a[i];
    assert forall i | 0 <= i < |b| :: ab[|a| + i] == b[i];
    forall v, w | v in a && w in b ensures v.path != w.path {
      var i :| 0 <= i < |a| && a[i] == v;
      var j :| 0 <= j < |b| && b[j] == w;
      assert ab[i] == v && ab[|a| + j] == w;
    }
  }

  lemma DoneStep(
    job: Job, run: Run, sha: Contents -> Digest, steps: seq<PlannedStep>, step: PlannedStep, start: Disk, mid: Disk,
    d: Disk, m0: SnapshotManifest, mMid: SnapshotManifest, m: SnapshotManifest)
    requires run.quiet && run.scope == Scope(job) && step in job.pending.remainingSteps
    requires forall s | s in steps :: s in job.pending.remainingSteps
    requires Bounds(job, run, steps, start, mid, m0, mMid) && Done(job, sha, steps, start, mid, m0, mMid)
    requires StepBounds(job, run, step, mid, d, mMid, m) && StepDone(job, run, sha, step, mid, d, mMid, m)
    requires forall s | s in steps + [step] :: forall w | w in StepWrites(job, s) :: Covers(m0, w.path)
    ensures Done(job, sha, steps + [step], start, d, m0, m)
  {
    hide StepEffect, KeepsEntries, HostIs, Apply, Recorded, StepWrites, Stays, Permitted;
    AllWritesSnoc(job, steps, step);
    var a, b := AllWrites(job, steps), StepWrites(job, step);
    HostIsAppend(Scope(job), d, mid, start.files, a, b);
    EffectIsOpen(run, mid, d, mMid, m, WritePaths(b));
    assert step in steps + [step];
    if DistinctWrites(a + b) {
      DistinctSplit(a, b);
      forall s | s in steps + [step] ensures InPlace(job, sha, s, start, d, m0, m) {
        if s in steps {
          InPlaceKept(job, run, sha, steps, s, step, start, mid, d, m0, mMid, m);
        } else {
          WritesInScope(job, step);
          PermittedFromStart(job, run, sha, steps, step, start, mid, m0, mMid);
        }
      }
    }
  }

  lemma WritesInScope(job: Job, s: PlannedStep)
    requires s in job.pending.remainingSteps
    ensures forall w | w in StepWrites(job, s) :: w.path in Scope(job)
  {
    WritesOnStepPaths(job, s);
  }

  lemma InPlaceKept(
    job: Job, run: Run, sha: Contents -> Digest, steps: seq<PlannedStep>, s: PlannedStep, step: PlannedStep,
    start: Disk, mid: Disk, d: Disk, m0: SnapshotManifest, mMid: SnapshotManifest, m: SnapshotManifest)
    requires run.quiet && run.scope == Scope(job) && s in job.pending.remainingSteps
    requires s in steps && InPlace(job, sha, s, start, mid, m0, mMid)
    requires StepBounds(job, run, step, mid, d, mMid, m)
    requires forall v, w | v in AllWrites(job, steps) && w in StepWrites(job, step) :: v.path != w.path
    ensures InPlace(job, sha, s, start, d, m0, m)
  {
    hide StepEffect, StepWrites, Permitted;
    WritesOfStep(job, steps, s);
    WritesInScope(job, s);
    if step.kind == VmRegister {
      DiskPathsAreWrites(job, step);
    }
    if s.kind == HookInstall {
      forall w | w in StepWrites(job, s) ensures RecordedOne(d, sha, m, w) && w.path in d.executable {
        assert RecordedOne(mid, sha, mMid, w) && w.path in run.Known();
        assert w.path !in WritePaths(StepWrites(job, step));
        RecordedAcross(run, mid, d, sha, mMid, m, WritePaths(StepWrites(job, step)), w);
      }
    }
  }

  lemma PermittedFromStart(
    job: Job, run: Run, sha: Contents -> Digest, steps: seq<PlannedStep>, step: PlannedStep,
    start: Disk, mid: Disk, m0: SnapshotManifest, mMid: SnapshotManifest)
    requires run.quiet && StepEffect(run, start, mid, m0, mMid, WritePaths(AllWrites(job, steps)))
    requires forall w | w in StepWrites(job, step) :: Covers(m0, w.path) && w.path in run.scope
    requires forall v, w | v in AllWrites(job, steps) && w in StepWrites(job, step) :: v.path != w.path
    ensures Permitted(job, step, sha, start, m0) <==> Permitted(job, step, sha, mid, mMid)
  {
    hide StepEffect, StepWrites, WriteAllowed;
    forall w | w in StepWrites(job, step)
      ensures WriteAllowed(start, sha, m0, w.path) <==> WriteAllowed(mid, sha, mMid, w.path)
    {
      assert w.path in run.Known();
      assert w.path !in WritePaths(AllWrites(job, steps));
      WriteAllowedAcross(run, start, mid, sha, m0, mMid, WritePaths(AllWrites(job, steps)), w.path);
    }
  }

  // ----- the loop -----

  ghost predicate SingleRegister(steps: seq<PlannedStep>) {
    forall i, j | 0 <= i < j < |steps| && steps[i].kind == VmRegister :: steps[j].kind != VmRegister
  }

  /** Nothing about the plan, the configuration or the host stands in the way. */
  ghost predicate AllRunnable(job: Job, sha: Contents -> Digest, d: Disk, m: SnapshotManifest) {
    && SingleRegister(job.pending.remainingSteps)
    && DistinctWrites(AllWrites(job, job.pending.remainingSteps))
    && job.roots.SnapshotDir(job.pending.snapshotId) in d.dirs
    && forall s | s in job.pending.remainingSteps :: Runnable(job, s, d, m) && Permitted(job, s, sha, d, m)
  }

  lemma AllWritesPrefix(job: Job, steps: seq<PlannedStep>, i: nat)
    requires i <= |steps|
    ensures AllWrites(job, steps[..i]) <= AllWrites(job, steps)
    ensures WritePaths(AllWrites(job, steps[..i])) <= WritePaths(AllWrites(job, steps))
  {
    if i == |steps| {
      assert steps[..i] == steps;
    } else {
      var n := |steps| - 1;
      AllWritesPrefix(job, steps[..n], i);
      assert steps[..n][..i] == steps[..i];
      forall w | w in AllWrites(job, steps[..i]) ensures w in AllWrites(job, steps) {
      }
    }
  }


  /** The run is one invocation of the job. */
  ghost predicate Serves(job: Job, sha: Contents -> Digest, run: Run) {
    exists quiet :: run == RunOf(job, sha, run.base, run.start, quiet)
  }

  lemma ServesFacts(job: Job, sha: Contents -> Digest, run: Run)
    requires Serves(job, sha, run) && WritesHostOnly(job)
    ensures RunFor(job, run) && run.scope == Scope(job) && run.inputs == Inputs(job) && run.sha == sha
    ensures run.quiet ==> run.covered && Resumable(job, run.base) && run.KnowsHostOnly()
    ensures run.covered == Resumable(job, run.base)
  {
  }

  /** Every step may write its paths, at the start ... */
  lemma StartsReady(job: Job, sha: Contents -> Digest, run: Run, s: PlannedStep)
    requires Serves(job, sha, run) && WritesHostOnly(job) && HasManifest(run.base, run.roots, run.id)
    requires s in job.pending.remainingSteps
    ensures PathsReady(job, run, s, run.base)
    ensures run.covered ==> forall w | w in StepWrites(job, s) ::
      Covers(ManifestOf(run.base, run.roots, run.id), w.path)
  {
    hide StepPaths, StepWrites;
    ServesFacts(job, sha, run);
    WritesOnStepPaths(job, s);
    forall p | p in StepPaths(job.Config(), s) ensures run.MayWrite(run.base, p) {
    }
  }

  /** ... and when its turn comes. */
  lemma NextCanStart(
    job: Job, sha: Contents -> Digest, run: Run, i: nat, mid: Disk, m0: SnapshotManifest, mMid: SnapshotManifest)
    requires Serves(job, sha, run) && WritesHostOnly(job) && HasManifest(run.base, run.roots, run.id)
    requires i < |job.pending.remainingSteps|
    requires Bounds(job, run, job.pending.remainingSteps[..i], run.base, mid, m0, mMid)
    requires HasManifest(mid, run.roots, run.id) && ManifestOf(mid, run.roots, run.id) == mMid
    ensures CanStart(job, run, job.pending.remainingSteps[i], mid, mMid)
  {
    hide StepEffect, StepWrites, PathsReady, Serves;
    var s := job.pending.remainingSteps[i];
    assert s in job.pending.remainingSteps;
    ServesFacts(job, sha, run);
    StartsReady(job, sha, run, s);
    var paths := WritePaths(AllWrites(job, job.pending.remainingSteps[..i]));
    EffectIsOpen(run, run.base, mid, m0, mMid, paths);
    PathsReadyAcross(job, run, s, run.base, mid, m0, mMid, paths);
  }

  lemma RunnableAcross(
    job: Job, run: Run, steps: seq<PlannedStep>, s: PlannedStep, start: Disk, mid: Disk, m0: SnapshotManifest,
    mMid: SnapshotManifest)
    requires run.quiet && RunFor(job, run)
    requires Bounds(job, run, steps, start, mid, m0, mMid) && Runnable(job, s, start, m0)
    requires s.kind == VmRegister ==> forall v | v in steps :: v.kind != VmRegister
    ensures Runnable(job, s, mid, mMid)
  {
    EffectIsOpen(run, start, mid, m0, mMid, WritePaths(AllWrites(job, steps)));
    if HasXmlEntry(m0) {
      var i :| 0 <= i < |m0.entries| && m0.entries[i].producedBy == VmXmlGenerate;
      assert SameCapture(m0.entries[i], mMid.entries[i]);
    }
    if job.Config().disk.Existing? {
      assert job.Config().disk.path in run.Known();
    }
  }

  /** Every step may run when its turn comes, if it could have run at the start. */
  lemma NextCanRun(
    job: Job, run: Run, sha: Contents -> Digest, i: nat, mid: Disk, m0: SnapshotManifest, mMid: SnapshotManifest)
    requires Serves(job, sha, run) && WritesHostOnly(job) && run.quiet
    requires HasManifest(run.base, run.roots, run.id) && m0 == ManifestOf(run.base, run.roots, run.id)
    requires i < |job.pending.remainingSteps|
    requires Bounds(job, run, job.pending.remainingSteps[..i], run.base, mid, m0, mMid)
    requires AllRunnable(job, sha, run.base, m0)
    ensures var s := job.pending.remainingSteps[i]; Runnable(job, s, mid, mMid) && Permitted(job, s, sha, mid, mMid)
    ensures run.roots.SnapshotDir(run.id) in mid.dirs
  {
    hide StepEffect, StepWrites, WriteAllowed, Serves, Runnable, Permitted;
    var steps := job.pending.remainingSteps;
    var done, s := steps[..i], steps[i];
    assert s in steps && steps[..i + 1] == done + [s];
    ServesFacts(job, sha, run);
    OwnDirStays(run, run.base, mid, m0, mMid, WritePaths(AllWrites(job, done)));
    RunnableAcross(job, run, done, s, run.base, mid, m0, mMid);
    AllWritesPrefix(job, steps, i + 1);
    AllWritesSnoc(job, done, s);
    DistinctSplit(AllWrites(job, done), StepWrites(job, s));
    StartsReady(job, sha, run, s);
    WritesInScope(job, s);
    PermittedFromStart(job, run, sha, done, s, run.base, mid, m0, mMid);
  }

  /** One round of the loop. */
  method RunStepAt(
    fs: FileSystem, sha: Contents -> Digest, job: Job, i: nat, m: SnapshotManifest, ghost run: Run,
    ghost m0: SnapshotManifest)
    returns (r: Outcome<Error>, mLater: SnapshotManifest)
    requires i < |job.pending.remainingSteps| && Serves(job, sha, run) && WritesHostOnly(job)
    requires run.Uses(fs, sha) && run.Guarded(fs.journal)
    requires HasManifest(run.base, run.roots, run.id) && m0 == ManifestOf(run.base, run.roots, run.id)
    requires HasManifest(fs.state, run.roots, run.id) && ManifestOf(fs.state, run.roots, run.id) == m
    requires Bounds(job, run, job.pending.remainingSteps[..i], run.base, fs.state, m0, m)
    requires run.quiet ==> Done(job, sha, job.pending.remainingSteps[..i], run.base, fs.state, m0, m)
    modifies fs
    ensures fs.Advances() && run.Uses(fs, sha) && run.Guarded(fs.journal)
    ensures Bounds(job, run, job.pending.remainingSteps[..i + 1], run.base, fs.state, m0, mLater)
    ensures r.Pass? && run.quiet ==>
      Done(job, sha, job.pending.remainingSteps[..i + 1], run.base, fs.state, m0, mLater)
    ensures r.Pass? ==> HasManifest(fs.state, run.roots, run.id) && ManifestOf(fs.state, run.roots, run.id) == mLater
    ensures r.Pass? ==> !IsPhaseA(job.pending.remainingSteps[i].kind)
    ensures r.Fail? && r.error.Refused? ==> IsPhaseA(job.pending.remainingSteps[i].kind)
    ensures run.quiet && old(fs.Calm()) && AllRunnable(job, sha, run.base, m0) ==> r.Pass?
  {
    hide FileSystem.OnRecord, StepEffect, Keeps, Rewrites, Extends, KeepsEntries, Apply, HostIs, StepWrites, StaysPut;
    hide Serves;
    hide Bounds, Done, StepBounds, StepDone, AllRunnable, Runnable, Permitted, CanStart, Resumable, Run.Open;
    hide Run.Guarded, WritesHostOnly, FileSystem.Quiet, Run.KnowsHostOnly, Run.Uses;
    var steps := job.pending.remainingSteps;
    var step := steps[i];
    ghost var mid := fs.state;
    NextCanStart(job, sha, run, i, mid, m0, m);
    if run.quiet && AllRunnable(job, sha, run.base, m0) {
      NextCanRun(job, run, sha, i, mid, m0, m);
    }
    SameRecord(job, sha, run);
    r, mLater := RunStep(fs, sha, job, step, m, run);
    BoundsStep(job, run, steps[..i], step, run.base, mid, fs.state, m0, m, mLater);
    assert steps[..i + 1] == steps[..i] + [step];
    if r.Pass? && run.quiet {
      NextDone(job, run, sha, i, mid, fs.state, m0, m, mLater);
    }
  }

  method RunSteps(fs: FileSystem, sha: Contents -> Digest, job: Job, m: SnapshotManifest, ghost run: Run)
    returns (r: Outcome<Error>, mLater: SnapshotManifest, outcome: PhaseBOutcome)
    requires Serves(job, sha, run) && WritesHostOnly(job)
    requires run.Uses(fs, sha) && run.Guarded(fs.journal)
    requires HasManifest(run.base, run.roots, run.id) && m == ManifestOf(run.base, run.roots, run.id)
    requires StepEffect(run, run.base, fs.state, m, m, {}) && StaysPut(run, run.base, fs.state)
    requires HasManifest(fs.state, run.roots, run.id) && ManifestOf(fs.state, run.roots, run.id) == m
    modifies fs
    ensures fs.Advances() && run.Uses(fs, sha) && run.Guarded(fs.journal)
    ensures Bounds(job, run, job.pending.remainingSteps, run.base, fs.state, m, mLater)
    ensures r.Pass? && run.quiet ==> Done(job, sha, job.pending.remainingSteps, run.base, fs.state, m, mLater)
    ensures r.Pass? ==> HasManifest(fs.state, run.roots, run.id) && ManifestOf(fs.state, run.roots, run.id) == mLater
    ensures r.Pass? ==>
      && outcome == PhaseBOutcome(
           job.pending.snapshotId, CompletedKinds(job.pending.remainingSteps),
           DeferredKinds(job.pending.remainingSteps), false)
      && forall s | s in job.pending.remainingSteps :: !IsPhaseA(s.kind)
    ensures r.Fail? && r.error.Refused? ==> exists s :: s in job.pending.remainingSteps && IsPhaseA(s.kind)
    ensures run.quiet && old(fs.Calm()) && AllRunnable(job, sha, run.base, m) ==> r.Pass?
  {
    hide FileSystem.OnRecord, StepEffect, Keeps, Rewrites, Extends, Serves, StaysPut, Bounds, Done, AllRunnable;
    hide Resumable;
    hide Run.Guarded, WritesHostOnly, FileSystem.Quiet, Run.KnowsHostOnly, Run.Uses, CompletedKinds, DeferredKinds;
    hide IsPhaseA;
    var steps := job.pending.remainingSteps;
    mLater := m;
    outcome := PhaseBOutcome(job.pending.snapshotId, [], [], false);
    NothingDone(job, run, sha, run.base, fs.state, m);
    NoKinds();
    assert steps[..0] == [];
    for i := 0 to |steps|
      invariant fs.Advances() && run.Uses(fs, sha) && run.Guarded(fs.journal)
      invariant Bounds(job, run, steps[..i], run.base, fs.state, m, mLater)
      invariant run.quiet ==> Done(job, sha, steps[..i], run.base, fs.state, m, mLater)
      invariant HasManifest(fs.state, run.roots, run.id) && ManifestOf(fs.state, run.roots, run.id) == mLater
      invariant outcome ==
        PhaseBOutcome(job.pending.snapshotId, CompletedKinds(steps[..i]), DeferredKinds(steps[..i]), false)
      invariant forall s | s in steps[..i] :: !IsPhaseA(s.kind)
    {
      var step := steps[i];
      assert steps[..i + 1] == steps[..i] + [step];
      KindsSnoc(steps[..i], step);
      r, mLater := RunStepAt(fs, sha, job, i, mLater, run, m);
      if r.Fail? {
        BoundsWiden(job, run, i + 1, run.base, fs.state, m, mLater);
        return;
      }
      if step.kind == LookingGlassInstall {
        outcome := outcome.(deferredSteps := outcome.deferredSteps + [step.kind]);
      } else {
        outcome := outcome.(completedSteps := outcome.completedSteps + [step.kind]);
      }
    }
    assert steps[..|steps|] == steps;
    r := Pass;
  }

  lemma NoKinds()
    ensures CompletedKinds([]) == [] && DeferredKinds([]) == []
  {
  }

  lemma KindsSnoc(steps: seq<PlannedStep>, step: PlannedStep)
    ensures CompletedKinds(steps + [step]) ==
      CompletedKinds(steps) + if step.kind == LookingGlassInstall then [] else [step.kind]
    ensures DeferredKinds(steps + [step]) ==
      DeferredKinds(steps) + if step.kind == LookingGlassInstall then [step.kind] else []
  {
    assert (steps + [step])[..|steps|] == steps;
  }

  lemma SameRecord(job: Job, sha: Contents -> Digest, run: Run)
    requires Serves(job, sha, run)
    ensures run.roots == job.roots && run.id == job.pending.snapshotId
  {
  }

  lemma NextDone(
    job: Job, run: Run, sha: Contents -> Digest, i: nat, mid: Disk, d: Disk, m0: SnapshotManifest,
    mMid: SnapshotManifest, m: SnapshotManifest)
    requires Serves(job, sha, run) && WritesHostOnly(job) && run.quiet && i < |job.pending.remainingSteps|
    requires HasManifest(run.base, run.roots, run.id) && m0 == ManifestOf(run.base, run.roots, run.id)
    requires var done, step := job.pending.remainingSteps[..i], job.pending.remainingSteps[i];
      && Bounds(job, run, done, run.base, mid, m0, mMid) && Done(job, sha, done, run.base, mid, m0, mMid)
      && StepBounds(job, run, step, mid, d, mMid, m) && StepDone(job, run, sha, step, mid, d, mMid, m)
    ensures Done(job, sha, job.pending.remainingSteps[..i + 1], run.base, d, m0, m)
  {
    hide Bounds, Done, StepBounds, StepDone, Serves, StepWrites, WritesHostOnly;
    var steps := job.pending.remainingSteps;
    var done, step := steps[..i], steps[i];
    assert steps[..i + 1] == done + [step];
    ServesFacts(job, sha, run);
    forall s | s in done + [step]
      ensures forall w | w in StepWrites(job, s) :: Covers(m0, w.path)
    {
      assert s in steps;
      StartsReady(job, sha, run, s);
    }
    DoneStep(job, run, sha, done, step, run.base, mid, d, m0, mMid, m);
  }

  lemma NothingDone(job: Job, run: Run, sha: Contents -> Digest, start: Disk, d: Disk, m: SnapshotManifest)
    requires Serves(job, sha, run) && WritesHostOnly(job)
    requires StepEffect(run, start, d, m, m, {}) && StaysPut(run, start, d)
    ensures Bounds(job, run, [], start, d, m, m) && (run.quiet ==> Done(job, sha, [], start, d, m, m))
  {
    hide StepEffect, Serves;
    ServesFacts(job, sha, run);
    assert WritePaths(AllWrites(job, [])) == {};
    EffectIsOpen(run, start, d, m, m, {});
    if run.quiet {
      KnownStay(run, start, d);
      HostIsKept(Scope(job), start, d, start.files);
      StaysButImage(run.Known(), start, d, DiskPaths(job));
    }
  }

  lemma BoundsWiden(job: Job, run: Run, i: nat, start: Disk, d: Disk, m0: SnapshotManifest, m: SnapshotManifest)
    requires i <= |job.pending.remainingSteps|
    requires Bounds(job, run, job.pending.remainingSteps[..i], start, d, m0, m)
    ensures Bounds(job, run, job.pending.remainingSteps, start, d, m0, m)
  {
    hide StepEffect;
    var steps := job.pending.remainingSteps;
    AllWritesPrefix(job, steps, i);
    StepEffectWiden(run, start, d, m0, m, WritePaths(AllWrites(job, steps[..i])), WritePaths(AllWrites(job, steps)));
    assert forall s | s in steps[..i] :: s in steps;
  }

  // ----- the whole phase -----

  /** What one invocation may do to Virtu's own records, whether or not it succeeds, and whatever others do. */
  ghost predicate Safe(job: Job, d: Disk, later: Disk) {
    var roots, id := job.roots, job.pending.snapshotId;
    && Keeps(roots, d, later) && AddsNothing(roots, d, later)
    && (forall p | Under(roots.state, p) && p != roots.PendingPath() :: Same(d, later, p))
    && (HasManifest(d, roots, id) ==>
          && HasManifest(later, roots, id) && Rewrites(roots, ManifestOf(d, roots, id), ManifestOf(later, roots, id))
          && (Resumable(job, d) ==> SameCount(ManifestOf(d, roots, id), ManifestOf(later, roots, id))))
  }

  /** A success has dealt with every step and cleared the pending record. */
  ghost predicate Finished(job: Job, d: Disk, later: Disk, outcome: PhaseBOutcome) {
    var steps := job.pending.remainingSteps;
    && HasManifest(d, job.roots, job.pending.snapshotId)
    && outcome.snapshotId == job.pending.snapshotId
    && outcome.completedSteps == CompletedKinds(steps) && outcome.deferredSteps == DeferredKinds(steps)
    && job.roots.PendingPath() !in later.files && (outcome.pendingCleared <==> job.roots.PendingPath() in d.files)
    && forall s | s in steps :: !IsPhaseA(s.kind)
  }

  /** What a resume reports: the snapshot, the steps made and those put off, in order, and that the record is gone. */
  ghost predicate ResumeReport(pending: PendingPlan, d: Disk, roots: Roots, outcome: PhaseBOutcome) {
    && outcome.snapshotId == pending.snapshotId
    && Selects(pending.remainingSteps, {HookInstall, VmXmlGenerate, VmRegister, Verify}, outcome.completedSteps)
    && Selects(pending.remainingSteps, {LookingGlassInstall}, outcome.deferredSteps)
    && (outcome.pendingCleared <==> roots.PendingPath() in d.files)
  }

  lemma FinishedReport(job: Job, d: Disk, later: Disk, outcome: PhaseBOutcome)
    requires Finished(job, d, later, outcome)
    ensures ResumeReport(job.pending, d, job.roots, outcome)
  {
    hide Selects;
    OutcomeKindsAre(job.pending.remainingSteps);
  }

  /** One invocation, with whatever others do meanwhile. */
  ghost predicate Executed(job: Job, d: Disk, later: Disk, r: Result<PhaseBOutcome, Error>) {
    && Safe(job, d, later)
    && (r.Failure? ==> Same(d, later, job.roots.PendingPath()))
    && (r.Failure? && r.error.Refused? ==> exists s :: s in job.pending.remainingSteps && IsPhaseA(s.kind))
    && (r.Success? ==> Finished(job, d, later, r.value))
  }

  /** What it does to the host's files and domains, where others leave them alone. */
  ghost predicate Contained(job: Job, d: Disk, later: Disk)
    requires HasManifest(d, job.roots, job.pending.snapshotId) && HasManifest(later, job.roots, job.pending.snapshotId)
  {
    var roots, id, known := job.roots, job.pending.snapshotId, Scope(job) + Inputs(job);
    && ChangesOnly(known, d, later, WritePaths(AllWrites(job, job.pending.remainingSteps)))
    && Stays(known, d, later, DiskPaths(job))
    && DomainsGrow(job, d, later, ManifestOf(d, roots, id), ManifestOf(later, roots, id))
  }

  /** One invocation for a resumable record, while others leave its files and the domains alone. */
  ghost predicate Ran(job: Job, sha: Contents -> Digest, d: Disk, later: Disk, r: Result<PhaseBOutcome, Error>) {
    var roots, id := job.roots, job.pending.snapshotId;
    && Executed(job, d, later, r) && Resumable(job, d) && HasManifest(later, roots, id)
    && Contained(job, d, later)
    && (r.Success? ==>
          Done(job, sha, job.pending.remainingSteps, d, later, ManifestOf(d, roots, id), ManifestOf(later, roots, id)))
  }

  /** Without faults, an invocation with nothing in its way succeeds. */
  ghost predicate Unhindered(job: Job, sha: Contents -> Digest, d: Disk, r: Result<PhaseBOutcome, Error>)
    requires HasManifest(d, job.roots, job.pending.snapshotId)
  {
    job.roots.PendingPath() in d.files && AllRunnable(job, sha, d, ManifestOf(d, job.roots, job.pending.snapshotId))
    ==> r.Success?
  }

  /** The operation found every snapshot kept, and changed a record or, once covered, a file in the job's scope. */
  ghost predicate GuardedEvent(job: Job, base: Disk, e: Event) {
    var roots, id := job.roots, job.pending.snapshotId;
    && Keeps(roots, base, e.before)
    && (e.path.Some? && !roots.Protected(e.path.value) ==>
          && e.path.value in Scope(job) && HasManifest(e.before, roots, id)
          && (Resumable(job, base) ==> Covers(ManifestOf(e.before, roots, id), e.path.value)))
  }

  ghost predicate GuardedSince(job: Job, base: Disk, journal: seq<Event>, n: nat) {
    forall k | n <= k < |journal| :: GuardedEvent(job, base, journal[k])
  }

  /** The record is resumable, and others leave alone what it is about. */
  ghost predicate Steered(fs: FileSystem, job: Job)
    reads fs
  {
    && Resumable(job, fs.state) && fs.Quiet(Scope(job) + Inputs(job))
    && forall p | p in Inputs(job) :: !job.roots.Protected(p)
  }

  /**
   * Phase B, for any pending record whose steps write host files only. Without the manifest of its
   * snapshot it fails and changes nothing. Otherwise every snapshot is kept at every operation; if
   * the manifest covers the record, no host file is changed before it is covered.
   */
  method ExecutePhaseB(fs: FileSystem, sha: Contents -> Digest, job: Job) returns (r: Result<PhaseBOutcome, Error>)
    requires job.roots == fs.reserved && job.roots.Apart() && WritesHostOnly(job)
    modifies fs
    ensures fs.Advances()
    ensures GuardedSince(job, old(fs.state), fs.journal, |old(fs.journal)|)
    ensures Executed(job, old(fs.state), fs.state, r)
    ensures !HasManifest(old(fs.state), job.roots, job.pending.snapshotId) ==>
      r.Failure? && !r.error.Refused? && forall p | job.roots.Protected(p) :: Same(old(fs.state), fs.state, p)
    ensures old(Steered(fs, job)) ==> Ran(job, sha, old(fs.state), fs.state, r)
    ensures old(Steered(fs, job)) && old(fs.Calm()) ==> Unhindered(job, sha, old(fs.state), r)
  {
    hide FileSystem.OnRecord, StepEffect, Keeps, Rewrites, Extends, KeepsEntries, Done, Bounds, Executed, Ran;
    hide Resumable, Serves, StaysPut;
    hide WritesHostOnly, Run.Guarded, Run.Open, Run.KnowsHostOnly, GuardedSince, Merged, SameOwn;
    hide HandsOff, AllRunnable;
    ghost var start, n, journal := fs.state, |fs.journal|, fs.journal;
    ghost var run := RunOf(job, sha, start, n, fs.Quiet(Scope(job) + Inputs(job)));
    RunIsServing(job, sha, run, fs.Quiet(Scope(job) + Inputs(job)));
    ServesFacts(job, sha, run);
    assert run.Known() == Scope(job) + Inputs(job);
    var raw := fs.Read(job.roots.ManifestPath(job.pending.snapshotId));
    ghost var found := fs.state;
    if !HasManifest(start, job.roots, job.pending.snapshotId) {
      NothingToRead(job, sha, start, found, journal);
    } else {
      RecordRead(job, sha, run, found, journal);
    }
    if raw.Failure? {
      return Failure(raw.error);
    }
    if !raw.value.ManifestFile? {
      return Failure(StepFailed(Snapshot));
    }
    ReadIsRecord(job, start, found);
    r := RunAndClear(fs, sha, job, raw.value.manifest, run);
    GuardedFacts(job, sha, run, fs.journal);
  }

  /** The steps, and then the end of the pending record. */
  method RunAndClear(fs: FileSystem, sha: Contents -> Digest, job: Job, m: SnapshotManifest, ghost run: Run)
    returns (r: Result<PhaseBOutcome, Error>)
    requires Serves(job, sha, run) && WritesHostOnly(job) && job.roots.Apart()
    requires run.Uses(fs, sha) && run.Guarded(fs.journal)
    requires HasManifest(run.base, run.roots, run.id) && m == ManifestOf(run.base, run.roots, run.id)
    requires StepEffect(run, run.base, fs.state, m, m, {}) && StaysPut(run, run.base, fs.state)
    requires HasManifest(fs.state, run.roots, run.id) && ManifestOf(fs.state, run.roots, run.id) == m
    modifies fs
    ensures fs.Advances() && run.Guarded(fs.journal)
    ensures Executed(job, run.base, fs.state, r)
    ensures run.quiet ==> Ran(job, sha, run.base, fs.state, r)
    ensures run.quiet && old(fs.Calm()) ==> Unhindered(job, sha, run.base, r)
  {
    hide FileSystem.OnRecord, StepEffect, Keeps, Rewrites, Extends, Done, Bounds, Executed, Ran, Resumable, Serves;
    hide StaysPut, Safe;
    hide WritesHostOnly, Run.Guarded, Run.Open, FileSystem.Quiet, Run.KnowsHostOnly, AllRunnable, Contained, Cleared;
    ServesFacts(job, sha, run);
    var ran, mLater, outcome := RunSteps(fs, sha, job, m, run);
    ghost var stepped := fs.state;
    BoundsAreSafe(job, sha, run, stepped, m, mLater);
    if ran.Fail? {
      StoppedShort(job, sha, run, stepped, stepped, m, mLater, ran.error);
      return Failure(ran.error);
    }
    var cleared := ClearPending(fs, job.roots, mLater, run);
    if cleared.Failure? {
      StoppedShort(job, sha, run, stepped, fs.state, m, mLater, cleared.error);
      return Failure(cleared.error);
    }
    outcome := outcome.(pendingCleared := cleared.value);
    RanThrough(job, sha, run, stepped, fs.state, m, mLater, outcome);
    r := Success(outcome);
  }

  lemma RunIsServing(job: Job, sha: Contents -> Digest, run: Run, quiet: bool)
    requires run == RunOf(job, sha, run.base, run.start, quiet)
    ensures Serves(job, sha, run)
    ensures run.covered == Resumable(job, run.base)
    ensures run.quiet ==> quiet
    ensures quiet && Resumable(job, run.base) && (forall p | p in Inputs(job) :: !job.roots.Protected(p)) ==> run.quiet
  {
  }

  /** Others do not touch the pending record and the snapshots, so there is nothing to read where there was nothing. */
  lemma NothingToRead(job: Job, sha: Contents -> Digest, start: Disk, found: Disk, journal: seq<Event>)
    requires job.roots.Apart() && SameOwn(job.roots, start, found)
    requires !HasManifest(start, job.roots, job.pending.snapshotId)
    ensures !HasManifest(found, job.roots, job.pending.snapshotId)
    ensures forall e: Error | !e.Refused? :: Executed(job, start, found, Failure(e))
    ensures GuardedSince(job, start, journal + [Event(found, found, None)], |journal|)
    ensures !Resumable(job, start) && forall p | job.roots.Protected(p) :: Same(start, found, p)
  {
    var roots, id := job.roots, job.pending.snapshotId;
    OthersKeep(roots, start, found);
    PendingIsApart(roots, id);
    assert roots.Protected(roots.ManifestPath(id));
    assert Same(start, found, roots.ManifestPath(id));
    forall p | Under(roots.state, p) ensures Same(start, found, p) {
      assert roots.Protected(p);
    }
  }

  lemma PendingIsApart(roots: Roots, id: string)
    requires roots.Apart()
    ensures roots.Protected(roots.PendingPath()) && Under(roots.state, roots.PendingPath())
    ensures forall p | Under(roots.snapshots, p) :: !Under(roots.state, p)
    ensures roots.ManifestPath(id) != roots.PendingPath() && roots.Protected(roots.ManifestPath(id))
  {
    forall p | Under(roots.snapshots, p) ensures !Under(roots.state, p) {
      PrefixesCompare(roots.snapshots, roots.state, p);
    }
    assert Under(roots.snapshots, roots.ManifestPath(id));
  }

  lemma ReadIsRecord(job: Job, start: Disk, found: Disk)
    requires SameOwn(job.roots, start, found) && HasManifest(found, job.roots, job.pending.snapshotId)
    ensures HasManifest(start, job.roots, job.pending.snapshotId)
    ensures ManifestOf(start, job.roots, job.pending.snapshotId) == ManifestOf(found, job.roots, job.pending.snapshotId)
  {
    var p := job.roots.ManifestPath(job.pending.snapshotId);
    assert Under(job.roots.snapshots, p);
    assert Same(start, found, p);
  }

  /** After the manifest has been read the run is open, and may stop. */
  lemma RecordRead(job: Job, sha: Contents -> Digest, run: Run, found: Disk, journal: seq<Event>)
    requires Serves(job, sha, run) && WritesHostOnly(job) && job.roots.Apart() && run.start == |journal|
    requires HasManifest(run.base, job.roots, job.pending.snapshotId) && SameOwn(job.roots, run.base, found)
    requires run.quiet ==> HandsOff(run.Known(), run.base, found)
    ensures run.roots == job.roots && run.id == job.pending.snapshotId && HasManifest(found, run.roots, run.id)
    ensures var m := ManifestOf(run.base, run.roots, run.id);
      && run.Open(found, m) && StepEffect(run, run.base, found, m, m, {}) && StaysPut(run, run.base, found)
      && ManifestOf(found, run.roots, run.id) == m
    ensures run.Guarded(journal + [Event(found, found, None)])
    ensures GuardedSince(job, run.base, journal + [Event(found, found, None)], |journal|)
    ensures forall e: Error | !e.Refused? ::
      Executed(job, run.base, found, Failure(e)) && (run.quiet ==> Ran(job, sha, run.base, found, Failure(e)))
  {
    hide StepEffect, StaysPut, Serves, WritesHostOnly, Bounds, Executed, Ran, Run.Guarded, GuardedSince, HandsOff;
    hide SameOwn;
    ServesFacts(job, sha, run);
    var m, steps := ManifestOf(run.base, run.roots, run.id), job.pending.remainingSteps;
    RunIsOpen(run);
    OthersStep(run, run.base, found, m);
    EffectIsOpen(run, run.base, found, m, m, {});
    NothingLoggedYet(run, journal);
    QuietEvent(run, journal, found, found, m);
    GuardedFacts(job, sha, run, journal + [Event(found, found, None)]);
    NothingDone(job, run, sha, run.base, found, m);
    assert steps[..0] == [];
    BoundsWiden(job, run, 0, run.base, found, m, m);
    BoundsAreSafe(job, sha, run, found, m, m);
    forall e: Error | !e.Refused?
      ensures Executed(job, run.base, found, Failure(e))
      ensures run.quiet ==> Ran(job, sha, run.base, found, Failure(e))
    {
      StoppedShort(job, sha, run, found, found, m, m, e);
    }
  }

  lemma RunIsOpen(run: Run)
    requires HasManifest(run.base, run.roots, run.id)
    ensures run.Open(run.base, ManifestOf(run.base, run.roots, run.id))
  {
  }

  lemma NothingLoggedYet(run: Run, journal: seq<Event>)
    requires run.start == |journal|
    ensures run.Guarded(journal)
  {
  }

  lemma GuardedFacts(job: Job, sha: Contents -> Digest, run: Run, journal: seq<Event>)
    requires Serves(job, sha, run) && run.Guarded(journal)
    ensures GuardedSince(job, run.base, journal, run.start)
  {
    hide Keeps, AddsNothing, Resumable, Scope;
    forall k | run.start <= k < |journal| ensures GuardedEvent(job, run.base, journal[k]) {
      assert run.EventGuarded(journal[k]);
    }
  }

  /** What the steps have done is safe, and contained where others are quiet. */
  lemma BoundsAreSafe(
    job: Job, sha: Contents -> Digest, run: Run, later: Disk, m0: SnapshotManifest, m: SnapshotManifest)
    requires Serves(job, sha, run) && WritesHostOnly(job) && job.roots.Apart()
    requires HasManifest(run.base, run.roots, run.id) && m0 == ManifestOf(run.base, run.roots, run.id)
    requires Bounds(job, run, job.pending.remainingSteps, run.base, later, m0, m)
    ensures Safe(job, run.base, later) && Same(run.base, later, job.roots.PendingPath())
    ensures run.Open(later, m) && HasManifest(later, job.roots, job.pending.snapshotId)
    ensures run.quiet ==> Contained(job, run.base, later)
  {
    hide Serves, WritesHostOnly, Resumable, Stays, ChangesOnly, KeepsEntries, AllWrites;
    ServesFacts(job, sha, run);
    PendingIsApart(job.roots, run.id);
    forall p | Under(job.roots.state, p) ensures Same(run.base, later, p) {
      assert !Under(job.roots.snapshots, p);
    }
  }

  // ----- clearing the record -----

  /** What clearing the pending record may change. */
  ghost predicate Cleared(run: Run, d: Disk, later: Disk) {
    && (forall p | run.roots.Protected(p) && p != run.roots.PendingPath() :: Same(d, later, p))
    && (run.quiet ==> ChangesOnly(run.Known(), d, later, {}) && Stays(run.Known(), d, later, {})
                      && later.domains == d.domains)
  }

  lemma ClearedMore(run: Run, a: Disk, b: Disk, c: Disk)
    requires Cleared(run, a, b) && Cleared(run, b, c)
    ensures Cleared(run, a, c)
  {
    forall p | run.roots.Protected(p) && p != run.roots.PendingPath() ensures Same(a, c, p) {
      SameTransitive(a, b, c, p);
    }
    if run.quiet {
      var none: set<Path> := {};
      ChangesOnlyTransitive(run.Known(), a, b, c, {}, {});
      assert none + none == none;
    }
  }

  lemma OthersClearNothing(run: Run, d: Disk, found: Disk)
    requires SameOwn(run.roots, d, found) && (run.quiet ==> HandsOff(run.Known(), d, found))
    ensures Cleared(run, d, found) && Same(d, found, run.roots.PendingPath())
  {
    assert Under(run.roots.state, run.roots.PendingPath()) && run.roots.Protected(run.roots.PendingPath());
  }

  lemma RemovalClears(run: Run, d: Disk, later: Disk, m: SnapshotManifest)
    requires run.roots.Apart() && run.Open(d, m) && (run.quiet ==> run.KnowsHostOnly())
    requires later.dirs == d.dirs && later.domains == d.domains
    requires later.executable == d.executable - {run.roots.PendingPath()}
    requires later.files == d.files - {run.roots.PendingPath()}
    ensures Cleared(run, d, later) && run.Contains(later)
  {
    var p := run.roots.PendingPath();
    PendingIsApart(run.roots, run.id);
    assert !Under(run.roots.snapshots, p);
    HostWriteKeeps(run.roots, d, later, p);
    KeepsTransitive(run.roots, run.base, d, later);
    assert Same(d, later, run.roots.ManifestPath(run.id));
  }

  lemma ClearedContains(run: Run, d: Disk, later: Disk, m: SnapshotManifest)
    requires run.Open(d, m) && SameOwn(run.roots, d, later)
    ensures run.Open(later, m)
  {
    OthersKeep(run.roots, d, later);
    KeepsTransitive(run.roots, run.base, d, later);
  }

  /** Removes the pending record, if there is one. */
  method ClearPending(fs: FileSystem, roots: Roots, ghost m: SnapshotManifest, ghost run: Run)
    returns (r: Result<bool, Error>)
    requires roots == run.roots && roots.Apart() && run.Uses(fs, run.sha) && run.Open(fs.state, m)
    requires run.Guarded(fs.journal)
    modifies fs
    ensures fs.Advances() && run.Guarded(fs.journal) && run.Contains(fs.state)
    ensures Cleared(run, old(fs.state), fs.state)
    ensures r.Failure? ==> Same(old(fs.state), fs.state, roots.PendingPath()) && r.error.Io?
    ensures r.Success? ==>
      roots.PendingPath() !in fs.state.files && (r.value <==> roots.PendingPath() in old(fs.state).files)
    ensures old(fs.Calm()) && roots.PendingPath() in old(fs.state).files ==> r.Success?
  {
    hide FileSystem.OnRecord, Keeps, AddsNothing, Rewrites, Run.Guarded, Cleared, Merged, SameOwn, HandsOff;
    hide Run.KnowsHostOnly, Run.Contains;
    var pendingPath := roots.PendingPath();
    ghost var start, journal, first := fs.state, fs.journal, fs.Found();
    ghost var second := fs.Others(fs.ops + 1, first);
    OthersClearNothing(run, start, first);
    ClearedContains(run, start, first, m);
    OthersClearNothing(run, first, second);
    ClearedContains(run, first, second, m);
    ClearedMore(run, start, first, second);
    SameTransitive(start, first, second, pendingPath);
    OpenContains(run, first, m);
    OpenContains(run, second, m);
    QuietEvent(run, journal, first, first, m);
    var there := fs.Exists(pendingPath);
    if !there {
      return Success(false);
    }
    ghost var looked := fs.journal;
    var removed := fs.RemoveFile(pendingPath);
    if removed.Fail? {
      QuietEvent(run, looked, second, second, m);
      return Failure(removed.error);
    }
    PendingIsApart(roots, run.id);
    RecordLogged(run, looked, second, fs.state, pendingPath);
    RemovalClears(run, second, fs.state, m);
    ClearedMore(run, start, second, fs.state);
    return Success(true);
  }

  lemma OpenContains(run: Run, d: Disk, m: SnapshotManifest)
    requires run.Open(d, m)
    ensures run.Contains(d)
  {
  }

  /** Clearing the record adds nothing unsafe to what the steps have done. */
  lemma SafeAfter(
    job: Job, sha: Contents -> Digest, run: Run, stepped: Disk, later: Disk, m0: SnapshotManifest,
    m: SnapshotManifest)
    requires Serves(job, sha, run) && WritesHostOnly(job) && job.roots.Apart()
    requires HasManifest(run.base, run.roots, run.id) && m0 == ManifestOf(run.base, run.roots, run.id)
    requires Safe(job, run.base, stepped) && run.Open(stepped, m) && Cleared(run, stepped, later)
    requires run.quiet ==> HasManifest(stepped, run.roots, run.id) && Contained(job, run.base, stepped)
    ensures Safe(job, run.base, later) && HasManifest(later, run.roots, run.id)
    ensures ManifestOf(later, run.roots, run.id) == ManifestOf(stepped, run.roots, run.id)
    ensures run.quiet ==> Contained(job, run.base, later)
  {
    hide Serves, WritesHostOnly, Resumable, Stays, KeepsEntries, AllWrites, ChangesOnly, Rewrites;
    ServesFacts(job, sha, run);
    PendingIsApart(job.roots, run.id);
    assert Same(stepped, later, run.roots.ManifestPath(run.id));
    ClearedKeeps(run, stepped, later);
    KeepsTransitive(run.roots, run.base, stepped, later);
    forall p | Under(run.roots.state, p) && p != run.roots.PendingPath() ensures Same(run.base, later, p) {
      assert run.roots.Protected(p);
      SameTransitive(run.base, stepped, later, p);
    }
    if run.quiet {
      var paths := WritePaths(AllWrites(job, job.pending.remainingSteps));
      ChangesOnlyTransitive(run.Known(), run.base, stepped, later, paths, {});
      assert paths + {} == paths;
      StaysButImage(run.Known(), stepped, later, DiskPaths(job));
      StaysTransitive(run.Known(), run.base, stepped, later, DiskPaths(job));
    }
  }

  lemma ClearedKeeps(run: Run, d: Disk, later: Disk)
    requires run.roots.Apart() && Cleared(run, d, later)
    ensures Keeps(run.roots, d, later) && AddsNothing(run.roots, d, later)
  {
    PendingIsApart(run.roots, run.id);
    forall p | Under(run.roots.snapshots, p) ensures Same(d, later, p) {
      assert run.roots.Protected(p);
    }
  }

  lemma StoppedShort(
    job: Job, sha: Contents -> Digest, run: Run, stepped: Disk, later: Disk, m0: SnapshotManifest,
    m: SnapshotManifest, e: Error)
    requires Serves(job, sha, run) && WritesHostOnly(job) && job.roots.Apart()
    requires HasManifest(run.base, run.roots, run.id) && m0 == ManifestOf(run.base, run.roots, run.id)
    requires Safe(job, run.base, stepped) && run.Open(stepped, m)
    requires run.quiet ==> HasManifest(stepped, run.roots, run.id) && Contained(job, run.base, stepped)
    requires later == stepped || Cleared(run, stepped, later)
    requires Same(run.base, stepped, job.roots.PendingPath()) && Same(stepped, later, job.roots.PendingPath())
    requires e.Refused? ==> exists s :: s in job.pending.remainingSteps && IsPhaseA(s.kind)
    ensures Executed(job, run.base, later, Failure(e))
    ensures run.quiet ==> Ran(job, sha, run.base, later, Failure(e))
  {
    hide Serves, WritesHostOnly, Resumable, Safe, Contained, Run.Open, Cleared;
    ServesFacts(job, sha, run);
    if later != stepped {
      SafeAfter(job, sha, run, stepped, later, m0, m);
    }
    SameTransitive(run.base, stepped, later, job.roots.PendingPath());
  }

  lemma RanThrough(
    job: Job, sha: Contents -> Digest, run: Run, stepped: Disk, later: Disk, m0: SnapshotManifest,
    m: SnapshotManifest, outcome: PhaseBOutcome)
    requires Serves(job, sha, run) && WritesHostOnly(job) && job.roots.Apart()
    requires HasManifest(run.base, run.roots, run.id) && m0 == ManifestOf(run.base, run.roots, run.id)
    requires Safe(job, run.base, stepped) && run.Open(stepped, m) && Cleared(run, stepped, later)
    requires HasManifest(stepped, run.roots, run.id) && ManifestOf(stepped, run.roots, run.id) == m
    requires run.quiet ==>
      Contained(job, run.base, stepped) && Done(job, sha, job.pending.remainingSteps, run.base, stepped, m0, m)
    requires Same(run.base, stepped, job.roots.PendingPath())
    requires outcome == PhaseBOutcome(
      job.pending.snapshotId, CompletedKinds(job.pending.remainingSteps), DeferredKinds(job.pending.remainingSteps),
      job.roots.PendingPath() in stepped.files)
    requires forall s | s in job.pending.remainingSteps :: !IsPhaseA(s.kind)
    requires job.roots.PendingPath() !in later.files
    ensures Executed(job, run.base, later, Success(outcome))
    ensures run.quiet ==> Ran(job, sha, run.base, later, Success(outcome))
  {
    hide Serves, WritesHostOnly, Resumable, Safe, Contained, Run.Open, Cleared, Done;
    ServesFacts(job, sha, run);
    SafeAfter(job, sha, run, stepped, later, m0, m);
    if run.quiet {
      DoneAfter(job, sha, run, stepped, later, m0, m);
    }
  }

  /** What the steps have achieved outlives the clearing of the record. */
  lemma DoneAfter(
    job: Job, sha: Contents -> Digest, run: Run, stepped: Disk, later: Disk, m0: SnapshotManifest,
    m: SnapshotManifest)
    requires Serves(job, sha, run) && WritesHostOnly(job) && run.quiet && Cleared(run, stepped, later)
    requires Done(job, sha, job.pending.remainingSteps, run.base, stepped, m0, m)
    ensures Done(job, sha, job.pending.remainingSteps, run.base, later, m0, m)
  {
    hide Serves, WritesHostOnly, Permitted, StepWrites, Apply;
    var steps := job.pending.remainingSteps;
    ServesFacts(job, sha, run);
    KnownStay(run, stepped, later);
    HostIsKept(Scope(job), stepped, later, Apply(run.base.files, AllWrites(job, steps)));
    if DistinctWrites(AllWrites(job, steps)) {
      forall s | s in steps ensures InPlace(job, sha, s, run.base, later, m0, m) {
        assert InPlace(job, sha, s, run.base, stepped, m0, m);
        WritesInScope(job, s);
        if s.kind == HookInstall {
          forall w | w in StepWrites(job, s) ensures RecordedOne(later, sha, m, w) && w.path in later.executable {
            assert RecordedOne(stepped, sha, m, w) && w.path in run.Known();
            assert Same(stepped, later, w.path);
          }
        }
      }
    }
  }

  /**
   * After a Phase B that succeeded, and wrote no file twice, what each of its steps is for is there,
   * if others left its files and the domains alone.
   */
  lemma RunDelivers(
    job: Job, sha: Contents -> Digest, d: Disk, later: Disk, outcome: PhaseBOutcome, step: PlannedStep)
    requires Ran(job, sha, d, later, Success(outcome)) && step in job.pending.remainingSteps
    requires DistinctWrites(AllWrites(job, job.pending.remainingSteps))
    ensures Delivered(job, step, later)
  {
    hide Executed, Contained, StepWrites, AllWrites, Apply, IsContext, HooksInstalled, Permitted;
    hide DistinctWrites;
    var steps, roots, id := job.pending.remainingSteps, job.roots, job.pending.snapshotId;
    var m := ManifestOf(later, roots, id);
    assert InPlace(job, sha, step, d, later, ManifestOf(d, roots, id), m);
    match step.kind
    case HookInstall =>
      forall w | w in StepWrites(job, step) ensures Holds(later, w.path, w.content) && w.path in later.executable {
        assert RecordedOne(later, sha, m, w);
      }
      HooksDelivered(job, step, later);
    case VmXmlGenerate =>
      XmlWrites(job, step);
      WriteLanded(job, d, later, step, Write(step.touches[0], job.mode.xml.value));
    case VmRegister =>
      if job.mode.live && job.Config().disk.Create? {
        DiskWrites(job, step);
        WriteLanded(job, d, later, step, DiskWrite(job.Config()));
      }
    case _ =>
  }

  lemma WriteLanded(job: Job, d: Disk, later: Disk, step: PlannedStep, w: Write)
    requires step in job.pending.remainingSteps && w in StepWrites(job, step)
    requires DistinctWrites(AllWrites(job, job.pending.remainingSteps))
    requires HostIs(Scope(job), later, Apply(d.files, AllWrites(job, job.pending.remainingSteps)))
    ensures Holds(later, w.path, w.content)
  {
    hide StepWrites, AllWrites, Apply, DistinctWrites, Scope;
    WritesOfStep(job, job.pending.remainingSteps, step);
    WritesInScope(job, step);
    DistinctLand(d.files, AllWrites(job, job.pending.remainingSteps), w);
  }
}
