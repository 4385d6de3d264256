/** The steps of Phase B, which run after the reboot. */
module PhaseBInstall {
  import opened Wrappers
  import opened Paths
  import opened Records
  import opened Manifest
  import opened Store
  import opened Layout
  import opened AtomicWrite
  import opened Session
  import opened HostWrites
  import opened Staging
  import opened GpuRoles
  import opened KernelParams
  import opened Planner
  import opened RoleChecks

  /** How the run treats host commands, and what the XML generator produced for it. */
  datatype Mode = Mode(live: bool, bashAvailable: bool, xml: Option<Contents>)

  /** One invocation of Phase B. */
  datatype Job = Job(roots: Roots, pending: PendingPlan, profile: SystemProfile, mode: Mode) {
    function Config(): PassthroughConfig {
      pending.config
    }
  }

  // ----- what the steps write -----

  function Context(profile: SystemProfile, config: PassthroughConfig): Option<HookContext> {
    match PrimaryPassthroughGpu(config, profile)
    case None => None
    case Some(gpu) => Some(HookContext(config.vmName, profile.displayManager, gpu.vendor, IdsOf(gpu)))
  }

  /** The helper generators refuse an unmanaged display manager and malformed ids. */
  predicate Scriptable(ctx: HookContext) {
    ctx.displayManager != NoDisplayManager && ctx.displayManager != UnknownDisplayManager &&
      AllVendorDeviceIds(ctx.vfioPciIds)
  }

  function HookPaths(config: PassthroughConfig): seq<Path> {
    var helperDir := QEMU_D + [config.vmName + ".d"];
    [QEMU_D + [config.vmName], helperDir + ["release"], helperDir + ["reattach"]]
  }

  function HookWrites(config: PassthroughConfig, ctx: HookContext): seq<Write> {
    var p := HookPaths(config);
    [Write(p[0], Script(Dispatcher, ctx)), Write(p[1], Script(Release, ctx)), Write(p[2], Script(Reattach, ctx))]
  }

  // ----- what is there afterwards, in the host's own terms -----

  ghost predicate Holds(d: Disk, path: Path, content: Contents) {
    path in d.files && d.files[path] == content
  }

  /**
   * The scripts are made for the configured VM, the host's display manager, and the vendor and ids of
   * the GPU behind the only passthrough role.
   */
  ghost predicate IsContext(ctx: HookContext, profile: SystemProfile, config: PassthroughConfig) {
    && ctx.vmName == config.vmName && ctx.displayManager == profile.displayManager
    && exists gpu ::
         && IsSoleGpu(config.gpuRoles, profile.gpus, Passthrough, gpu)
         && ctx.gpuVendor == gpu.vendor
         && ctx.vfioPciIds == [gpu.vendorId + ":" + gpu.deviceId]
              + match gpu.companionAudio { case None => [] case Some(a) => [a.vendorId + ":" + a.deviceId] }
  }

  lemma ContextIs(profile: SystemProfile, config: PassthroughConfig, ctx: HookContext)
    ensures Context(profile, config) == Some(ctx) <==> IsContext(ctx, profile, config)
  {
    hide IsSoleGpu, SoleGpu;
    forall gpu
      ensures SoleGpu(config.gpuRoles, profile.gpus, Passthrough) == Some(gpu) <==>
        IsSoleGpu(config.gpuRoles, profile.gpus, Passthrough, gpu)
    {
      SoleGpuIff(config.gpuRoles, profile.gpus, Passthrough, gpu);
    }
  }

  /** Each script is in the place libvirt runs it from, and executable. */
  ghost predicate HooksInstalled(d: Disk, vmName: string, ctx: HookContext) {
    var dispatcher: Path := ["etc", "libvirt", "hooks", "qemu.d", vmName];
    var release: Path := ["etc", "libvirt", "hooks", "qemu.d", vmName + ".d", "release"];
    var reattach: Path := ["etc", "libvirt", "hooks", "qemu.d", vmName + ".d", "reattach"];
    && Holds(d, dispatcher, Script(Dispatcher, ctx)) && dispatcher in d.executable
    && Holds(d, release, Script(Release, ctx)) && release in d.executable
    && Holds(d, reattach, Script(Reattach, ctx)) && reattach in d.executable
  }

  /** What a step of Phase B is for is there. */
  ghost predicate Delivered(job: Job, step: PlannedStep, d: Disk) {
    var config := job.pending.config;
    match step.kind
    case HookInstall => exists ctx :: IsContext(ctx, job.profile, config) && HooksInstalled(d, config.vmName, ctx)
    case VmXmlGenerate =>
      step.touches != [] && job.mode.xml.Some? && Holds(d, step.touches[0], job.mode.xml.value)
    case VmRegister =>
      job.mode.live ==>
        && config.vmName in d.domains
        && (config.disk.Create? ==> Holds(d, config.disk.path, DiskImage(config.disk.sizeGb, config.disk.format)))
    case _ => true
  }

  lemma HooksDelivered(job: Job, step: PlannedStep, d: Disk)
    requires step.kind == HookInstall && Context(job.profile, job.Config()).Some?
    requires forall w | w in StepWrites(job, step) :: Holds(d, w.path, w.content) && w.path in d.executable
    ensures Delivered(job, step, d)
  {
    hide IsContext, Context;
    var config, ctx := job.Config(), Context(job.profile, job.Config()).value;
    ContextIs(job.profile, config, ctx);
    var writes := HookWrites(config, ctx);
    assert writes == StepWrites(job, step);
    assert writes[0] in writes && writes[1] in writes && writes[2] in writes;
    var p := HookPaths(config);
    assert p[0] == ["etc", "libvirt", "hooks", "qemu.d", config.vmName];
    assert p[1] == ["etc", "libvirt", "hooks", "qemu.d", config.vmName + ".d", "release"];
    assert p[2] == ["etc", "libvirt", "hooks", "qemu.d", config.vmName + ".d", "reattach"];
    assert HooksInstalled(d, config.vmName, ctx);
  }

  function DiskWrite(config: PassthroughConfig): Write
    requires config.disk.Create?
  {
    Write(config.disk.path, DiskImage(config.disk.sizeGb, config.disk.format))
  }

  function StepWrites(job: Job, step: PlannedStep): seq<Write> {
    match step.kind
    case VmXmlGenerate =>
      if step.touches != [] && job.mode.xml.Some? then [Write(step.touches[0], job.mode.xml.value)] else []
    case HookInstall =>
      (match Context(job.profile, job.Config()) case None => [] case Some(ctx) => HookWrites(job.Config(), ctx))
    case VmRegister =>
      if job.mode.live && job.Config().disk.Create? then [DiskWrite(job.Config())] else []
    case _ => []
  }

  function AllWrites(job: Job, steps: seq<PlannedStep>): seq<Write> {
    if steps == [] then []
    else AllWrites(job, steps[..|steps| - 1]) + StepWrites(job, steps[|steps| - 1])
  }

  /** The paths a step may write, rebuilt from the record and its configuration as the executor does. */
  function StepPaths(config: PassthroughConfig, step: PlannedStep): seq<Path> {
    match step.kind
    case VmXmlGenerate => if step.touches != [] then [step.touches[0]] else []
    case HookInstall => HookPaths(config)
    case VmRegister => if config.disk.Create? then [config.disk.path] else []
    case _ => []
  }

  /** The paths the executor rebuilds are among those the planner declared. */
  predicate Declared(config: PassthroughConfig, step: PlannedStep) {
    forall p | p in StepPaths(config, step) :: p in step.touches
  }

  lemma PlannedStepsAreDeclared(home: Path, profile: SystemProfile, config: PassthroughConfig)
    ensures forall s | s in PhaseBPart(home, profile, config) :: Declared(config, s)
  {
    hide WantsHooks, VmXmlPath, HookPaths, Declared;
    HookStepIsDeclared(config);
    OtherStepsAreDeclared(home, config);
  }

  lemma HookStepIsDeclared(config: PassthroughConfig)
    ensures Declared(config, SingleGpuHookStep(config))
  {
  }

  lemma OtherStepsAreDeclared(home: Path, config: PassthroughConfig)
    ensures Declared(config, LookingGlassStep()) && Declared(config, VerifyStep())
    ensures Declared(config, VmXmlStep(home, config)) && Declared(config, VmRegisterStep(config))
  {
    hide VmXmlPath, HookPaths;
  }

  lemma WritesOnStepPaths(job: Job, step: PlannedStep)
    ensures forall w | w in StepWrites(job, step) :: w.path in StepPaths(job.Config(), step)
  {
    if step.kind == HookInstall {
      var p := HookPaths(job.Config());
      assert p[0] in p && p[1] in p && p[2] in p;
    }
  }

  lemma HookWritesAreDistinct(config: PassthroughConfig, ctx: HookContext)
    ensures DistinctWrites(HookWrites(config, ctx))
  {
    var p := HookPaths(config);
    assert |p[0]| == 5 && |p[1]| == 6 && |p[2]| == 6;
    assert p[1][5] == "release" && p[2][5] == "reattach";
    assert "release"[2] == 'l' && "reattach"[2] == 'a';
  }

  // ----- when a step can run -----

  ghost predicate HasXmlEntry(m: SnapshotManifest) {
    exists i :: 0 <= i < |m.entries| && m.entries[i].producedBy == VmXmlGenerate
  }

  /** What a step asks of the configuration and the host, besides the snapshot. */
  ghost predicate Runnable(job: Job, step: PlannedStep, d: Disk, m: SnapshotManifest) {
    match step.kind
    case VmXmlGenerate => step.touches != [] && job.mode.xml.Some?
    case HookInstall =>
      (match Context(job.profile, job.Config()) case None => false case Some(ctx) => Scriptable(ctx))
    case VmRegister =>
      && (job.Config().disk.Existing? ==> d.Exists(job.Config().disk.path))
      && HasXmlEntry(m)
      && (job.mode.live ==> job.Config().vmName !in d.domains)
    case LookingGlassInstall => true
    case Verify => true
    case _ => false
  }

  /** Everything a step writes through the snapshot still is as captured. */
  ghost predicate Permitted(job: Job, step: PlannedStep, sha: Contents -> Digest, d: Disk, m: SnapshotManifest) {
    step.kind != VmRegister ==> AllAllowed(d, sha, m, StepWrites(job, step))
  }

  // ----- what a step does -----

  ghost function DiskPaths(job: Job): set<Path> {
    if job.mode.live && job.Config().disk.Create? then {job.Config().disk.path} else {}
  }

  /** Whether or not it succeeds. */
  ghost predicate StepBounds(
    job: Job, run: Run, step: PlannedStep, d: Disk, later: Disk, m: SnapshotManifest, mLater: SnapshotManifest)
  {
    && StepEffect(run, d, later, m, mLater, WritePaths(StepWrites(job, step)))
    && (run.quiet ==>
          && Stays(run.Known(), d, later, if step.kind == VmRegister then DiskPaths(job) else {})
          && DomainsGrow(job, d, later, m, mLater)
          && (step.kind != VmRegister ==> later.domains == d.domains))
  }

  /** Only the configured domain is ever defined, and its undefine action is recorded only once it is. */
  ghost predicate DomainsGrow(job: Job, d: Disk, later: Disk, m: SnapshotManifest, mLater: SnapshotManifest) {
    var name := job.Config().vmName;
    && (later.domains == d.domains || (job.mode.live && later.domains == d.domains + {name}))
    && (UndefineLibvirtDomain(name) in mLater.restoreActions ==>
          UndefineLibvirtDomain(name) in m.restoreActions || name in later.domains)
  }

  /** When it succeeds, and others leave its files and the domains alone. */
  ghost predicate StepDone(
    job: Job, run: Run, sha: Contents -> Digest, step: PlannedStep, d: Disk, later: Disk, m: SnapshotManifest,
    mLater: SnapshotManifest)
  {
    && HostIs(run.scope, later, Apply(d.files, StepWrites(job, step)))
    && Runnable(job, step, d, m) && Permitted(job, step, sha, d, m)
    && (step.kind != VmRegister ==> Recorded(later, sha, mLater, StepWrites(job, step)))
    && (step.kind == HookInstall ==> forall w | w in StepWrites(job, step) :: w.path in later.executable)
    && (step.kind == HookInstall ==> RemoveHookScripts(job.Config().vmName) in mLater.restoreActions)
    && (step.kind == VmRegister && job.mode.live ==>
          job.Config().vmName in later.domains && UndefineLibvirtDomain(job.Config().vmName) in mLater.restoreActions)
  }

  lemma StepDelivers(
    job: Job, run: Run, sha: Contents -> Digest, step: PlannedStep, d: Disk, later: Disk, m: SnapshotManifest,
    mLater: SnapshotManifest)
    requires run.quiet && CanStart(job, run, step, d, m) && StepDone(job, run, sha, step, d, later, m, mLater)
    ensures Delivered(job, step, later)
  {
    hide StepWrites, Run.MayWrite, Run.Open, Context, HooksInstalled, IsContext, Scriptable, Apply;
    match step.kind
    case HookInstall =>
      forall w | w in StepWrites(job, step) ensures Holds(later, w.path, w.content) && w.path in later.executable {
        assert RecordedOne(later, sha, mLater, w);
      }
      HooksDelivered(job, step, later);
    case VmXmlGenerate =>
      var w := Write(step.touches[0], job.mode.xml.value);
      XmlWrites(job, step);
      assert RecordedOne(later, sha, mLater, w);
    case VmRegister =>
      if job.mode.live && job.Config().disk.Create? {
        var w := DiskWrite(job.Config());
        DiskWrites(job, step);
        assert w.path in StepPaths(job.Config(), step);
        InScope(run, d, w.path);
        ApplySnoc(d.files, [], w);
        assert [] + [w] == [w];
      }
    case _ =>
  }

  lemma XmlWrites(job: Job, step: PlannedStep)
    requires step.kind == VmXmlGenerate && step.touches != [] && job.mode.xml.Some?
    ensures Write(step.touches[0], job.mode.xml.value) in StepWrites(job, step)
  {
  }

  lemma DiskWrites(job: Job, step: PlannedStep)
    requires step.kind == VmRegister && job.mode.live && job.Config().disk.Create?
    ensures StepWrites(job, step) == [DiskWrite(job.Config())]
  {
  }

  /** The run belongs to the job and knows the disk image the job looks at. */
  ghost predicate RunFor(job: Job, run: Run) {
    && run.roots == job.roots && run.id == job.pending.snapshotId && !run.checks
    && (job.Config().disk.Existing? && run.quiet ==> job.Config().disk.path in run.inputs)
  }

  /** A step may start: its run is open, its copy of the manifest is the one on disk, and it may write its paths. */
  ghost predicate CanStart(job: Job, run: Run, step: PlannedStep, d: Disk, m: SnapshotManifest) {
    && RunFor(job, run) && run.Open(d, m) && ManifestOf(d, run.roots, run.id) == m
    && PathsReady(job, run, step, d)
  }

  ghost predicate PathsReady(job: Job, run: Run, step: PlannedStep, d: Disk) {
    forall p | p in StepPaths(job.Config(), step) :: run.MayWrite(d, p)
  }

  lemma PathsReadyAcross(
    job: Job, run: Run, step: PlannedStep, d: Disk, later: Disk, m: SnapshotManifest, mLater: SnapshotManifest,
    paths: set<Path>)
    requires StepEffect(run, d, later, m, mLater, paths) && PathsReady(job, run, step, d)
    ensures PathsReady(job, run, step, later)
  {
    hide StepEffect, StepPaths, Run.MayWrite;
    forall p | p in StepPaths(job.Config(), step) ensures run.MayWrite(later, p) {
      MayWriteAcross(run, d, later, m, mLater, paths, p);
    }
  }

  lemma NoBounds(job: Job, run: Run, step: PlannedStep, d: Disk, m: SnapshotManifest)
    requires run.Open(d, m)
    ensures StepBounds(job, run, step, d, d, m, m)
  {
    StepEffectNone(run, d, m, WritePaths(StepWrites(job, step)));
  }

  /** A step that keeps files, domains and rollback actions stays within the bounds. */
  lemma BoundsOf(
    job: Job, run: Run, step: PlannedStep, d: Disk, later: Disk, m: SnapshotManifest, mLater: SnapshotManifest)
    requires StepEffect(run, d, later, m, mLater, WritePaths(StepWrites(job, step))) && StaysPut(run, d, later)
    requires UndefineLibvirtDomain(job.Config().vmName) in mLater.restoreActions ==>
      UndefineLibvirtDomain(job.Config().vmName) in m.restoreActions
    ensures StepBounds(job, run, step, d, later, m, mLater)
  {
  }

  lemma QuietStepAfter(
    run: Run, d: Disk, mid: Disk, later: Disk, m: SnapshotManifest, mMid: SnapshotManifest,
    mLater: SnapshotManifest, paths: set<Path>)
    requires StepEffect(run, d, mid, m, mMid, paths) && StepEffect(run, mid, later, mMid, mLater, {})
    ensures StepEffect(run, d, later, m, mLater, paths)
  {
    StepEffectTransitive(run, d, mid, later, m, mMid, mLater, paths, {});
    assert paths + {} == paths;
  }

  lemma ActionStep(run: Run, d: Disk, m: SnapshotManifest, action: RestoreAction)
    requires run.Open(d, m)
    ensures StepEffect(run, d, d, m, PushAction(m, action), {})
  {
    PushActionExtends(m, action);
    RewritesTransitive(run.roots, ManifestOf(d, run.roots, run.id), m, PushAction(m, action));
  }

  // ----- the VM XML step -----

  method RunVmXmlStep(
    fs: FileSystem, sha: Contents -> Digest, job: Job, step: PlannedStep, m: SnapshotManifest, ghost run: Run)
    returns (r: Outcome<Error>, mLater: SnapshotManifest)
    requires step.kind == VmXmlGenerate && CanStart(job, run, step, fs.state, m)
    requires run.Uses(fs, sha) && run.Guarded(fs.journal)
    modifies fs
    ensures fs.Advances() && run.Uses(fs, sha) && run.Guarded(fs.journal)
    ensures StepBounds(job, run, step, old(fs.state), fs.state, m, mLater)
    ensures r.Pass? ==> HasManifest(fs.state, run.roots, run.id) && ManifestOf(fs.state, run.roots, run.id) == mLater
    ensures r.Pass? && run.quiet ==> StepDone(job, run, sha, step, old(fs.state), fs.state, m, mLater)
    ensures r.Pass? && run.quiet ==> Delivered(job, step, fs.state)
    ensures run.quiet && old(fs.Calm()) && job.roots.SnapshotDir(job.pending.snapshotId) in old(fs.state).dirs
            && Runnable(job, step, old(fs.state), m) && Permitted(job, step, sha, old(fs.state), m)
            ==> r.Pass?
    ensures r.Pass? && job.mode.live ==> "virt-xml-validate" in fs.commands[|old(fs.commands)|..]
    ensures r.Fail? ==> !r.error.Refused?
  {
    hide FileSystem.OnRecord, StepEffect, Keeps, Rewrites, Extends, KeepsEntries, AddsNothing, HostIs, StaysPut;
    hide RecordedOne, WriteAllowed, Apply, Context, HookWrites, Run.Open, Run.Guarded, HasXmlEntry, Run.MayWrite;
    hide FileSystem.Quiet, Run.KnowsHostOnly;
    ghost var start := fs.state;
    NoBounds(job, run, step, start, m);
    if step.touches == [] {
      return Fail(StepFailed(VmXmlGenerate)), m;
    }
    if job.mode.xml.None? {
      return Fail(XmlGenerate), m;
    }
    var w := Write(step.touches[0], job.mode.xml.value);
    assert StepWrites(job, step) == [w] && StepPaths(job.Config(), step) == [w.path];
    assert WritePaths([w]) == {w.path} && w.path in StepPaths(job.Config(), step);
    StepEffectNone(run, start, m, {});
    StaysItself(run, start);
    if job.mode.live {
      var valid := HostCommand(fs, VmXmlGenerate, "virt-xml-validate", run, m);
      if valid.Fail? {
        StepEffectWiden(run, start, fs.state, m, m, {}, {w.path});
        BoundsOf(job, run, step, start, fs.state, m, m);
        return valid, m;
      }
    }
    ghost var ready, commands := fs.state, fs.commands;
    EffectIsOpen(run, start, ready, m, m, {});
    OwnDirStays(run, start, ready, m, m, {});
    MayWriteAcross(run, start, ready, m, m, {}, w.path);
    LeavesPermission(run, start, ready, sha, m, w.path);
    r, mLater := InstallXml(fs, sha, job, w, m, run);
    if job.mode.live {
      StaysOnRecord(old(fs.commands), commands, fs.commands, "virt-xml-validate");
    }
    StepEffectTransitive(run, start, ready, fs.state, m, m, mLater, {}, {w.path});
    assert {} + {w.path} == {w.path};
    StaysPutTransitive(run, start, ready, fs.state);
    BoundsOf(job, run, step, start, fs.state, m, mLater);
    if r.Pass? && run.quiet {
      InScope(run, start, w.path);
      OneWriteDone(job, run, start, fs.state, m, mLater, sha, w);
      StepDelivers(job, run, sha, step, start, fs.state, m, mLater);
    }
  }

  /** Stages the file and stores the manifest that knows it. */
  method InstallXml(fs: FileSystem, sha: Contents -> Digest, job: Job, w: Write, m: SnapshotManifest, ghost run: Run)
    returns (r: Outcome<Error>, mLater: SnapshotManifest)
    requires run.Uses(fs, sha) && run.Open(fs.state, m) && run.Guarded(fs.journal) && run.MayWrite(fs.state, w.path)
    requires RunFor(job, run)
    modifies fs
    ensures fs.Advances() && run.Uses(fs, sha) && run.Guarded(fs.journal)
    ensures StepEffect(run, old(fs.state), fs.state, m, mLater, {w.path}) && StaysPut(run, old(fs.state), fs.state)
    ensures mLater.restoreActions == m.restoreActions
    ensures r.Pass? ==> HasManifest(fs.state, run.roots, run.id) && ManifestOf(fs.state, run.roots, run.id) == mLater
    ensures r.Pass? && run.quiet ==>
      RecordedOne(fs.state, sha, mLater, w) && WriteAllowed(old(fs.state), sha, m, w.path)
    ensures r.Fail? ==> !r.error.Refused?
    ensures run.quiet && old(fs.Calm()) && job.roots.SnapshotDir(job.pending.snapshotId) in old(fs.state).dirs
            && WriteAllowed(old(fs.state), sha, m, w.path)
            ==> r.Pass?
  {
    hide FileSystem.OnRecord, StepEffect, Keeps, Rewrites, Extends, KeepsEntries, AddsNothing, StaysPut, Run.Open;
    hide Run.Guarded;
    hide RecordedOne, WriteAllowed, FileSystem.Quiet, Run.KnowsHostOnly, Run.MayWrite;
    ghost var start := fs.state;
    r, mLater := StageFile(fs, sha, w, VmXmlGenerate, m, run);
    if r.Fail? {
      return;
    }
    ghost var written := fs.state;
    EffectIsOpen(run, start, written, m, mLater, {w.path});
    OwnDirStays(run, start, written, m, mLater, {w.path});
    r := PersistManifest(fs, job.roots, job.pending.snapshotId, mLater, run);
    QuietStepAfter(run, start, written, fs.state, m, mLater, mLater, {w.path});
    StaysPutTransitive(run, start, written, fs.state);
    if r.Pass? && run.quiet {
      InScope(run, start, w.path);
      RecordedAcross(run, written, fs.state, sha, mLater, mLater, {}, w);
    }
  }

  lemma OwnDirStays(
    run: Run, d: Disk, later: Disk, m: SnapshotManifest, mLater: SnapshotManifest, paths: set<Path>)
    requires StepEffect(run, d, later, m, mLater, paths)
    ensures run.roots.SnapshotDir(run.id) in d.dirs ==> run.roots.SnapshotDir(run.id) in later.dirs
  {
    assert Under(run.roots.snapshots, run.roots.SnapshotDir(run.id));
  }

  lemma OneWriteDone(
    job: Job, run: Run, start: Disk, later: Disk, m: SnapshotManifest, mLater: SnapshotManifest,
    sha: Contents -> Digest, w: Write)
    requires run.quiet && w.path in run.scope
    requires StepEffect(run, start, later, m, mLater, {w.path}) && RecordedOne(later, sha, mLater, w)
    ensures HostIs(run.scope, later, Apply(start.files, [w])) && Recorded(later, sha, mLater, [w])
  {
    hide StepEffect;
    EffectIsOpen(run, start, later, m, mLater, {w.path});
    HostIsStep(run.scope, start, later, start.files, w);
    ApplySnoc(start.files, [], w);
    assert [] + [w] == [w];
  }

  // ----- the hook step -----

  method ValidateScripts(fs: FileSystem, scripts: seq<Write>, ghost run: Run, ghost m: SnapshotManifest)
    returns (r: Outcome<Error>)
    requires run.Uses(fs, run.sha) && run.Open(fs.state, m) && run.Guarded(fs.journal)
    modifies fs
    ensures fs.Advances() && run.Uses(fs, run.sha) && run.Guarded(fs.journal)
    ensures StepEffect(run, old(fs.state), fs.state, m, m, {}) && StaysPut(run, old(fs.state), fs.state)
    ensures r.Pass? ==> fs.commands == old(fs.commands) + seq(|scripts|, _ => "bash -n")
    ensures r.Fail? ==> !r.error.Refused?
    ensures old(fs.Calm()) ==> r.Pass?
  {
    hide FileSystem.OnRecord, StepEffect, StaysPut, Run.Open, Run.Guarded, FileSystem.Quiet, Run.KnowsHostOnly;
    ghost var start := fs.state;
    StepEffectNone(run, start, m, {});
    StaysItself(run, start);
    for i := 0 to |scripts|
      invariant fs.Advances() && run.Uses(fs, run.sha) && run.Guarded(fs.journal)
      invariant StepEffect(run, start, fs.state, m, m, {}) && StaysPut(run, start, fs.state)
      invariant fs.commands == old(fs.commands) + seq(i, _ => "bash -n")
    {
      ghost var before := fs.state;
      EffectIsOpen(run, start, before, m, m, {});
      r := HostCommand(fs, HookInstall, "bash -n", run, m);
      TwoSteps(run, start, before, fs.state, m);
      if r.Fail? {
        return;
      }
    }
    r := Pass;
  }

  method MakeHookDirs(
    fs: FileSystem, config: PassthroughConfig, ghost run: Run, ghost m: SnapshotManifest)
    returns (r: Outcome<Error>)
    requires run.Uses(fs, run.sha) && run.Open(fs.state, m) && run.Guarded(fs.journal)
    modifies fs
    ensures fs.Advances() && run.Uses(fs, run.sha) && run.Guarded(fs.journal)
    ensures StepEffect(run, old(fs.state), fs.state, m, m, {}) && StaysPut(run, old(fs.state), fs.state)
    ensures r.Fail? ==> r.error.Io?
    ensures r.Pass? && run.quiet ==> forall p | p in HookPaths(config) :: HasParent(fs.state, p)
    ensures old(fs.Calm()) ==> r.Pass?
  {
    hide FileSystem.OnRecord, StepEffect, StaysPut, Run.Open, Run.Guarded, FileSystem.Quiet, Run.KnowsHostOnly;
    ghost var start := fs.state;
    var helperDir := QEMU_D + [config.vmName + ".d"];
    r := MakeDirs(fs, QEMU_D, run, m);
    if r.Fail? {
      return;
    }
    ghost var mid := fs.state;
    EffectIsOpen(run, start, mid, m, m, {});
    r := MakeDirs(fs, helperDir, run, m);
    TwoSteps(run, start, mid, fs.state, m);
    DirsStay(run, mid, fs.state, m, m, {});
    AncestorsAt(QEMU_D, |QEMU_D|);
    AncestorsAt(helperDir, |helperDir|);
    assert QEMU_D[..|QEMU_D|] == QEMU_D && helperDir[..|helperDir|] == helperDir;
    var p := HookPaths(config);
    assert p[0][..|p[0]| - 1] == QEMU_D && p[1][..|p[1]| - 1] == helperDir && p[2][..|p[2]| - 1] == helperDir;
  }

  /** What the installation of the scripts has achieved. */
  ghost predicate Installed(
    run: Run, start: Disk, d: Disk, sha: Contents -> Digest, m: SnapshotManifest, mLater: SnapshotManifest,
    writes: seq<Write>)
  {
    WroteAll(run, start, d, sha, m, mLater, writes) && forall w | w in writes :: w.path in d.executable
  }

  /** Directories, manifest entries and contents of the scripts. */
  method WriteScripts(
    fs: FileSystem, sha: Contents -> Digest, config: PassthroughConfig, ctx: HookContext, m: SnapshotManifest,
    ghost run: Run)
    returns (r: Outcome<Error>, mLater: SnapshotManifest)
    requires run.Uses(fs, sha) && run.Open(fs.state, m) && run.Guarded(fs.journal)
    requires forall p | p in HookPaths(config) :: run.MayWrite(fs.state, p)
    modifies fs
    ensures fs.Advances() && run.Uses(fs, sha) && run.Guarded(fs.journal)
    ensures StepEffect(run, old(fs.state), fs.state, m, mLater, WritePaths(HookWrites(config, ctx)))
    ensures StaysPut(run, old(fs.state), fs.state)
    ensures mLater.restoreActions == m.restoreActions
    ensures r.Pass? && run.quiet ==>
      WroteAll(run, old(fs.state), fs.state, sha, m, mLater, HookWrites(config, ctx))
    ensures r.Fail? ==> !r.error.Refused?
    ensures run.quiet && old(fs.Calm()) && AllAllowed(old(fs.state), sha, m, HookWrites(config, ctx)) ==> r.Pass?
  {
    hide FileSystem.OnRecord, StepEffect, Keeps, Rewrites, Extends, KeepsEntries, AddsNothing, StaysPut, WroteAll;
    hide Ready;
    hide Run.Open, Run.Guarded, Run.MayWrite, HookWrites, HookPaths, HasParent, WritePaths, FileSystem.Quiet;
    hide AllAllowed, DistinctWrites, Run.KnowsHostOnly, Recorded, HostIs, Apply;
    ghost var start := fs.state;
    var writes := HookWrites(config, ctx);
    ghost var paths := WritePaths(writes);
    mLater := m;
    r := MakeHookDirs(fs, config, run, m);
    ghost var made := fs.state;
    StepEffectWiden(run, start, made, m, m, {}, paths);
    if r.Fail? {
      return;
    }
    ScriptsMayGo(run, start, made, sha, m, config, ctx);
    mLater := DeclareAll(HookPaths(config), HookInstall, m, run, made);
    ghost var declared := mLater;
    EffectIsOpen(run, made, made, m, declared, {});
    ScriptsAreDeclared(declared, config, ctx);
    r, mLater := WriteAll(fs, sha, mLater, writes, run);
    assert {} + paths == paths;
    StepEffectTransitive(run, made, made, fs.state, m, declared, mLater, {}, paths);
    StepEffectTransitive(run, start, made, fs.state, m, m, mLater, {}, paths);
    StaysPutTransitive(run, start, made, fs.state);
    if r.Pass? && run.quiet {
      WroteSooner(run, start, made, fs.state, sha, m, mLater, writes);
    }
  }

  /** With the directories in place the scripts may be declared and written. */
  lemma ScriptsMayGo(
    run: Run, start: Disk, made: Disk, sha: Contents -> Digest, m: SnapshotManifest, config: PassthroughConfig,
    ctx: HookContext)
    requires StepEffect(run, start, made, m, m, {}) && forall p | p in HookPaths(config) :: run.MayWrite(start, p)
    ensures run.Open(made, m) && Ready(run, start, HookWrites(config, ctx)) && Ready(run, made, HookWrites(config, ctx))
    ensures forall p | p in HookPaths(config) :: run.MayWrite(made, p)
    ensures (forall p | p in HookPaths(config) :: HasParent(made, p)) ==>
      forall w | w in HookWrites(config, ctx) :: HasParent(made, w.path)
    ensures run.quiet ==>
      (AllAllowed(start, sha, m, HookWrites(config, ctx)) <==> AllAllowed(made, sha, m, HookWrites(config, ctx)))
  {
    hide StepEffect, HookWrites, HookPaths, Run.MayWrite, HasParent, AllAllowed, Ready, Run.Open;
    EffectIsOpen(run, start, made, m, m, {});
    HooksReady(run, start, config, ctx);
    NothingChangesNothing(run, start, made, sha, m, HookWrites(config, ctx));
    HooksReadyLater(run, made, config, ctx);
    ParentsOfWrites(config, ctx, made);
  }

  lemma ScriptsAreDeclared(declared: SnapshotManifest, config: PassthroughConfig, ctx: HookContext)
    requires forall p | p in HookPaths(config) :: Covers(declared, p)
    ensures DistinctWrites(HookWrites(config, ctx))
    ensures forall w | w in HookWrites(config, ctx) :: Covers(declared, w.path)
  {
    hide HookPaths, HookWrites;
    HookWritesAreDistinct(config, ctx);
    WritesOnPaths(config, ctx);
  }

  lemma WroteSooner(
    run: Run, start: Disk, made: Disk, d: Disk, sha: Contents -> Digest, m: SnapshotManifest,
    mLater: SnapshotManifest, writes: seq<Write>)
    requires run.quiet && Ready(run, start, writes) && StepEffect(run, start, made, m, m, {})
    requires WroteAll(run, made, d, sha, m, mLater, writes)
    ensures WroteAll(run, start, d, sha, m, mLater, writes)
  {
    hide StepEffect, RecordedOne, WriteAllowed, Apply, Ready, AllAllowed;
    NothingChangesNothing(run, start, made, sha, m, writes);
    EffectIsOpen(run, start, made, m, m, {});
    HostIsSooner(run, start, made, d, writes);
  }

  /** Writes the scripts and marks them executable. */
  method InstallScripts(
    fs: FileSystem, sha: Contents -> Digest, config: PassthroughConfig, ctx: HookContext, m: SnapshotManifest,
    ghost run: Run)
    returns (r: Outcome<Error>, mLater: SnapshotManifest)
    requires run.Uses(fs, sha) && run.Open(fs.state, m) && run.Guarded(fs.journal) && !run.checks
    requires forall p | p in HookPaths(config) :: run.MayWrite(fs.state, p)
    modifies fs
    ensures fs.Advances() && run.Uses(fs, sha) && run.Guarded(fs.journal)
    ensures StepEffect(run, old(fs.state), fs.state, m, mLater, WritePaths(HookWrites(config, ctx)))
    ensures StaysPut(run, old(fs.state), fs.state)
    ensures mLater.restoreActions == m.restoreActions
    ensures r.Pass? && run.quiet ==>
      Installed(run, old(fs.state), fs.state, sha, m, mLater, HookWrites(config, ctx))
    ensures r.Fail? ==> !r.error.Refused?
    ensures run.quiet && old(fs.Calm()) && AllAllowed(old(fs.state), sha, m, HookWrites(config, ctx)) ==> r.Pass?
  {
    hide FileSystem.OnRecord, StepEffect, Keeps, Rewrites, Extends, KeepsEntries, AddsNothing, StaysPut, WroteAll;
    hide Run.Open, Run.Guarded, Run.MayWrite, HookWrites, HookPaths, WritePaths, FileSystem.Quiet;
    hide AllAllowed, Run.KnowsHostOnly, Installed;
    ghost var start, writes := fs.state, HookWrites(config, ctx);
    HooksReady(run, start, config, ctx);
    r, mLater := WriteScripts(fs, sha, config, ctx, m, run);
    if r.Fail? {
      return;
    }
    ghost var written := fs.state;
    EffectIsOpen(run, start, written, m, mLater, WritePaths(writes));
    HooksReadyAcross(run, start, written, m, mLater, config, WritePaths(writes));
    if run.quiet {
      ScriptsAreThere(run, start, written, sha, m, mLater, config, ctx);
    }
    r := MarkAllExecutable(fs, HookPaths(config), run, mLater);
    QuietStepAfter(run, start, written, fs.state, m, mLater, mLater, WritePaths(writes));
    StaysPutTransitive(run, start, written, fs.state);
    if r.Pass? && run.quiet {
      InstalledNow(run, start, written, fs.state, sha, m, mLater, config, ctx);
    }
  }

  lemma HooksReady(run: Run, d: Disk, config: PassthroughConfig, ctx: HookContext)
    requires forall p | p in HookPaths(config) :: run.MayWrite(d, p)
    ensures Ready(run, d, HookWrites(config, ctx))
  {
    hide HookPaths, HookWrites, Run.MayWrite;
    WritesOnPaths(config, ctx);
  }

  lemma HooksReadyLater(run: Run, d: Disk, config: PassthroughConfig, ctx: HookContext)
    requires Ready(run, d, HookWrites(config, ctx))
    ensures forall p | p in HookPaths(config) :: run.MayWrite(d, p)
  {
    hide HookPaths, HookWrites, Run.MayWrite;
    WritesOnPaths(config, ctx);
  }

  lemma HooksReadyAcross(
    run: Run, d: Disk, later: Disk, m: SnapshotManifest, mLater: SnapshotManifest, config: PassthroughConfig,
    paths: set<Path>)
    requires StepEffect(run, d, later, m, mLater, paths)
    requires forall p | p in HookPaths(config) :: run.MayWrite(d, p)
    ensures forall p | p in HookPaths(config) :: run.MayWrite(later, p)
  {
    hide StepEffect, HookPaths, Run.MayWrite;
    forall p | p in HookPaths(config) ensures run.MayWrite(later, p) {
      MayWriteAcross(run, d, later, m, mLater, paths, p);
    }
  }

  lemma ParentsOfWrites(config: PassthroughConfig, ctx: HookContext, d: Disk)
    ensures (forall p | p in HookPaths(config) :: HasParent(d, p)) ==>
      forall w | w in HookWrites(config, ctx) :: HasParent(d, w.path)
  {
    hide HookPaths, HasParent, HookWrites;
    WritesOnPaths(config, ctx);
  }

  lemma ScriptsAreThere(
    run: Run, made: Disk, written: Disk, sha: Contents -> Digest, m: SnapshotManifest, mLater: SnapshotManifest,
    config: PassthroughConfig, ctx: HookContext)
    requires WroteAll(run, made, written, sha, m, mLater, HookWrites(config, ctx))
    ensures forall p | p in HookPaths(config) :: p in written.files
  {
    hide HookWrites, HookPaths, HostIs, AllAllowed;
    WritesOnPaths(config, ctx);
    forall p | p in HookPaths(config) ensures p in written.files {
      var w :| w in HookWrites(config, ctx) && w.path == p;
      assert RecordedOne(written, sha, mLater, w);
    }
  }

  lemma WritesOnPaths(config: PassthroughConfig, ctx: HookContext)
    ensures forall w | w in HookWrites(config, ctx) :: w.path in HookPaths(config)
    ensures forall p | p in HookPaths(config) :: exists w :: w in HookWrites(config, ctx) && w.path == p
  {
    var p, w := HookPaths(config), HookWrites(config, ctx);
    assert p[0] in p && p[1] in p && p[2] in p;
    assert w[0] in w && w[1] in w && w[2] in w;
  }

  /** Contents and records outlive the marking. */
  lemma InstalledNow(
    run: Run, start: Disk, written: Disk, later: Disk, sha: Contents -> Digest, m: SnapshotManifest,
    mLater: SnapshotManifest, config: PassthroughConfig, ctx: HookContext)
    requires run.quiet && Ready(run, start, HookWrites(config, ctx))
    requires StepEffect(run, written, later, mLater, mLater, {})
    requires WroteAll(run, start, written, sha, m, mLater, HookWrites(config, ctx))
    requires forall p | p in HookPaths(config) :: p in later.executable
    ensures Installed(run, start, later, sha, m, mLater, HookWrites(config, ctx))
  {
    hide StepEffect, HookWrites, HookPaths, RecordedOne, WriteAllowed, Apply;
    var writes := HookWrites(config, ctx);
    WritesOnPaths(config, ctx);
    EffectIsOpen(run, written, later, mLater, mLater, {});
    InScopeOf(run, start, writes);
    HostIsKept(run.scope, written, later, Apply(start.files, writes));
    forall w | w in writes ensures RecordedOne(later, sha, mLater, w) {
      assert RecordedOne(written, sha, mLater, w) && w.path in run.Known();
      RecordedAcross(run, written, later, sha, mLater, mLater, {}, w);
    }
  }

  /** Persists the manifest as it is, then again with one more rollback action. */
  method RecordAction(fs: FileSystem, job: Job, action: RestoreAction, m: SnapshotManifest, ghost run: Run)
    returns (r: Outcome<Error>, mLater: SnapshotManifest)
    requires RunFor(job, run)
    requires run.Uses(fs, run.sha) && run.Open(fs.state, m) && run.Guarded(fs.journal)
    modifies fs
    ensures fs.Advances() && run.Uses(fs, run.sha) && run.Guarded(fs.journal)
    ensures StepEffect(run, old(fs.state), fs.state, m, mLater, {}) && StaysPut(run, old(fs.state), fs.state)
    ensures mLater == m || mLater == PushAction(m, action)
    ensures r.Pass? ==> mLater == PushAction(m, action)
    ensures r.Pass? ==> HasManifest(fs.state, run.roots, run.id) && ManifestOf(fs.state, run.roots, run.id) == mLater
    ensures r.Fail? ==> !r.error.Refused?
    ensures old(fs.Calm()) && job.roots.SnapshotDir(job.pending.snapshotId) in old(fs.state).dirs ==> r.Pass?
  {
    hide FileSystem.OnRecord, StepEffect, Keeps, Rewrites, Extends, KeepsEntries, StaysPut, Run.Open, Run.Guarded;
    hide FileSystem.Quiet;
    hide Run.KnowsHostOnly;
    ghost var start := fs.state;
    mLater := m;
    r := PersistManifest(fs, job.roots, job.pending.snapshotId, m, run);
    if r.Fail? {
      return;
    }
    ghost var stored := fs.state;
    EffectIsOpen(run, start, stored, m, m, {});
    OwnDirStays(run, start, stored, m, m, {});
    mLater := PushAction(m, action);
    ActionStep(run, stored, m, action);
    EffectIsOpen(run, stored, stored, m, mLater, {});
    r := PersistManifest(fs, job.roots, job.pending.snapshotId, mLater, run);
    QuietStepAfter(run, stored, stored, fs.state, m, mLater, mLater, {});
    QuietStepAfter(run, start, stored, fs.state, m, m, mLater, {});
    StaysPutTransitive(run, start, stored, fs.state);
  }

  lemma NoContext(profile: SystemProfile, config: PassthroughConfig)
    requires PrimaryPassthroughGpu(config, profile).None?
    ensures forall ctx :: !IsContext(ctx, profile, config)
  {
    hide IsContext, PrimaryPassthroughGpu;
    forall ctx ensures !IsContext(ctx, profile, config) {
      ContextIs(profile, config, ctx);
    }
  }

  lemma ThreeScripts(config: PassthroughConfig, ctx: HookContext)
    ensures |HookWrites(config, ctx)| == 3 && seq(3, _ => "bash -n") == ["bash -n", "bash -n", "bash -n"]
  {
  }

  lemma OneContext(profile: SystemProfile, config: PassthroughConfig, ctx: HookContext)
    requires Context(profile, config) == Some(ctx)
    ensures IsContext(ctx, profile, config) && forall other :: IsContext(other, profile, config) ==> other == ctx
  {
    hide IsContext, Context;
    ContextIs(profile, config, ctx);
    forall other ensures IsContext(other, profile, config) ==> other == ctx {
      ContextIs(profile, config, other);
    }
  }

  lemma ScriptableIs(ctx: HookContext)
    ensures Scriptable(ctx) <==>
      && ctx.displayManager != NoDisplayManager && ctx.displayManager != UnknownDisplayManager
      && AllVendorDeviceIds(ctx.vfioPciIds)
  {
  }

  method RunHookInstallStep(
    fs: FileSystem, sha: Contents -> Digest, job: Job, step: PlannedStep, m: SnapshotManifest, ghost run: Run)
    returns (r: Outcome<Error>, mLater: SnapshotManifest)
    requires step.kind == HookInstall && CanStart(job, run, step, fs.state, m)
    requires run.Uses(fs, sha) && run.Guarded(fs.journal)
    modifies fs
    ensures fs.Advances() && run.Uses(fs, sha) && run.Guarded(fs.journal)
    ensures StepBounds(job, run, step, old(fs.state), fs.state, m, mLater)
    ensures r.Pass? ==> HasManifest(fs.state, run.roots, run.id) && ManifestOf(fs.state, run.roots, run.id) == mLater
    ensures r.Pass? && run.quiet ==> StepDone(job, run, sha, step, old(fs.state), fs.state, m, mLater)
    ensures r.Pass? && run.quiet ==> Delivered(job, step, fs.state)
    ensures (forall ctx :: !IsContext(ctx, job.profile, job.Config())) ==> r == Fail(StepFailed(HookInstall))
    ensures forall ctx | IsContext(ctx, job.profile, job.Config()) ::
      (|| job.profile.displayManager == NoDisplayManager
       || job.profile.displayManager == UnknownDisplayManager
       || !AllVendorDeviceIds(ctx.vfioPciIds))
      ==> r == Fail(HookGenerate)
    ensures r.Pass? && (job.mode.live || job.mode.bashAvailable) ==>
      old(fs.commands) + ["bash -n", "bash -n", "bash -n"] <= fs.commands
    ensures r.Fail? ==> !r.error.Refused?
    ensures run.quiet && old(fs.Calm()) && job.roots.SnapshotDir(job.pending.snapshotId) in old(fs.state).dirs
            && Runnable(job, step, old(fs.state), m) && Permitted(job, step, sha, old(fs.state), m)
            ==> r.Pass?
  {
    hide FileSystem.OnRecord, StepEffect, Keeps, Rewrites, Extends, KeepsEntries, StaysPut, Run.Open, Run.Guarded;
    hide FileSystem.Quiet;
    hide Run.KnowsHostOnly, Installed, AllAllowed, Run.MayWrite, HookPaths, StepDone, StepBounds, WritePaths;
    hide HookWrites, Scriptable, IdsOf, PrimaryPassthroughGpu, IsContext, AllVendorDeviceIds;
    ghost var start := fs.state;
    NoBounds(job, run, step, start, m);
    var gpu := PrimaryPassthroughGpu(job.Config(), job.profile);
    if gpu.None? {
      NoContext(job.profile, job.Config());
      return Fail(StepFailed(HookInstall)), m;
    }
    var ctx := HookContext(job.Config().vmName, job.profile.displayManager, gpu.value.vendor, IdsOf(gpu.value));
    OneContext(job.profile, job.Config(), ctx);
    ScriptableIs(ctx);
    if !Scriptable(ctx) {
      return Fail(HookGenerate), m;
    }
    var scripts := HookWrites(job.Config(), ctx);
    assert StepWrites(job, step) == scripts;
    StepEffectNone(run, start, m, {});
    StaysItself(run, start);
    if job.mode.live || job.mode.bashAvailable {
      r := ValidateScripts(fs, scripts, run, m);
      if r.Fail? {
        StepEffectWiden(run, start, fs.state, m, m, {}, WritePaths(scripts));
        BoundsOf(job, run, step, start, fs.state, m, m);
        return r, m;
      }
      ThreeScripts(job.Config(), ctx);
    }
    ghost var ready := fs.state;
    EffectIsOpen(run, start, ready, m, m, {});
    OwnDirStays(run, start, ready, m, m, {});
    HooksReadyAcross(run, start, ready, m, m, job.Config(), {});
    HooksReady(run, start, job.Config(), ctx);
    NothingChangesNothing(run, start, ready, sha, m, scripts);
    r, mLater := PutScripts(fs, sha, job, ctx, m, run);
    StepEffectTransitive(run, start, ready, fs.state, m, m, mLater, {}, WritePaths(scripts));
    assert {} + WritePaths(scripts) == WritePaths(scripts);
    StaysPutTransitive(run, start, ready, fs.state);
    BoundsOf(job, run, step, start, fs.state, m, mLater);
    if r.Pass? && run.quiet {
      HooksDone(job, run, sha, step, ctx, start, ready, fs.state, m, mLater);
      StepDelivers(job, run, sha, step, start, fs.state, m, mLater);
    }
  }

  /** Installs the scripts, and records how they are removed. */
  method PutScripts(
    fs: FileSystem, sha: Contents -> Digest, job: Job, ctx: HookContext, m: SnapshotManifest, ghost run: Run)
    returns (r: Outcome<Error>, mLater: SnapshotManifest)
    requires run.Uses(fs, sha) && run.Open(fs.state, m) && run.Guarded(fs.journal) && RunFor(job, run)
    requires forall p | p in HookPaths(job.Config()) :: run.MayWrite(fs.state, p)
    modifies fs
    ensures fs.Advances() && run.Uses(fs, sha) && run.Guarded(fs.journal)
    ensures StepEffect(run, old(fs.state), fs.state, m, mLater, WritePaths(HookWrites(job.Config(), ctx)))
    ensures StaysPut(run, old(fs.state), fs.state)
    ensures UndefineLibvirtDomain(job.Config().vmName) in mLater.restoreActions ==>
      UndefineLibvirtDomain(job.Config().vmName) in m.restoreActions
    ensures r.Pass? ==> HasManifest(fs.state, run.roots, run.id) && ManifestOf(fs.state, run.roots, run.id) == mLater
    ensures r.Pass? ==> RemoveHookScripts(job.Config().vmName) in mLater.restoreActions
    ensures r.Pass? && run.quiet ==>
      Installed(run, old(fs.state), fs.state, sha, m, mLater, HookWrites(job.Config(), ctx))
    ensures r.Fail? ==> !r.error.Refused?
    ensures run.quiet && old(fs.Calm()) && job.roots.SnapshotDir(job.pending.snapshotId) in old(fs.state).dirs
            && AllAllowed(old(fs.state), sha, m, HookWrites(job.Config(), ctx))
            ==> r.Pass?
  {
    hide FileSystem.OnRecord, StepEffect, Keeps, Rewrites, Extends, KeepsEntries, StaysPut, Run.Open, Run.Guarded;
    hide FileSystem.Quiet;
    hide Run.KnowsHostOnly, Installed, AllAllowed, Run.MayWrite, HookPaths, HookWrites, WritePaths;
    ghost var start := fs.state;
    var action := RemoveHookScripts(job.Config().vmName);
    HooksReady(run, start, job.Config(), ctx);
    ghost var scripts := HookWrites(job.Config(), ctx);
    r, mLater := InstallScripts(fs, sha, job.Config(), ctx, m, run);
    if r.Fail? {
      return;
    }
    ghost var installed, mInstalled := fs.state, mLater;
    EffectIsOpen(run, start, installed, m, mLater, WritePaths(scripts));
    OwnDirStays(run, start, installed, m, mLater, WritePaths(scripts));
    r, mLater := RecordAction(fs, job, action, mLater, run);
    QuietStepAfter(run, start, installed, fs.state, m, mInstalled, mLater, WritePaths(scripts));
    StaysPutTransitive(run, start, installed, fs.state);
    if r.Pass? && run.quiet {
      InstalledStill(run, start, installed, fs.state, sha, m, mInstalled, mLater, scripts);
    }
  }

  lemma InstalledStill(
    run: Run, start: Disk, d: Disk, later: Disk, sha: Contents -> Digest, m: SnapshotManifest, mMid: SnapshotManifest,
    mLater: SnapshotManifest, writes: seq<Write>)
    requires run.quiet && Ready(run, start, writes) && StepEffect(run, d, later, mMid, mLater, {})
    requires StaysPut(run, d, later) && Installed(run, start, d, sha, m, mMid, writes)
    ensures Installed(run, start, later, sha, m, mLater, writes)
  {
    hide StepEffect, RecordedOne, WriteAllowed, Apply;
    EffectIsOpen(run, d, later, mMid, mLater, {});
    InScopeOf(run, start, writes);
    HostIsKept(run.scope, d, later, Apply(start.files, writes));
    forall w | w in writes ensures RecordedOne(later, sha, mLater, w) && w.path in later.executable {
      assert RecordedOne(d, sha, mMid, w) && w.path in run.Known();
      RecordedAcross(run, d, later, sha, mMid, mLater, {}, w);
    }
  }

  lemma HooksDone(
    job: Job, run: Run, sha: Contents -> Digest, step: PlannedStep, ctx: HookContext, start: Disk, ready: Disk,
    d: Disk, m: SnapshotManifest, mLater: SnapshotManifest)
    requires run.quiet && step.kind == HookInstall && Context(job.profile, job.Config()) == Some(ctx) && Scriptable(ctx)
    requires Ready(run, start, StepWrites(job, step)) && StepEffect(run, start, ready, m, m, {})
    requires Installed(run, ready, d, sha, m, mLater, StepWrites(job, step))
    requires RemoveHookScripts(job.Config().vmName) in mLater.restoreActions
    ensures StepDone(job, run, sha, step, start, d, m, mLater)
  {
    hide StepEffect, RecordedOne, WriteAllowed, Apply, HookWrites;
    var writes := StepWrites(job, step);
    NothingChangesNothing(run, start, ready, sha, m, writes);
    EffectIsOpen(run, start, ready, m, m, {});
    HostIsSooner(run, start, ready, d, writes);
  }

  lemma HostIsSooner(run: Run, start: Disk, ready: Disk, d: Disk, writes: seq<Write>)
    requires run.quiet && ChangesOnly(run.Known(), start, ready, {})
    requires HostIs(run.scope, d, Apply(ready.files, writes))
    ensures HostIs(run.scope, d, Apply(start.files, writes))
  {
    forall p | p in run.scope
      ensures p in d.files <==> p in Apply(start.files, writes)
      ensures p in d.files ==> d.files[p] == Apply(start.files, writes)[p]
    {
      assert p in run.Known();
      assert Same(start, ready, p);
      ApplyDependsOutside(start.files, ready.files, writes, p);
    }
  }

  // ----- the registration step -----

  /** Records the image in the manifest on disk first; only then is it created. */
  method CreateDisk(fs: FileSystem, job: Job, m: SnapshotManifest, ghost run: Run)
    returns (r: Outcome<Error>, mLater: SnapshotManifest, created: Option<Path>)
    requires job.Config().disk.Create? && RunFor(job, run)
    requires run.Uses(fs, run.sha) && run.Open(fs.state, m) && run.Guarded(fs.journal)
    requires run.MayWrite(fs.state, job.Config().disk.path)
    modifies fs
    ensures fs.Advances() && run.Uses(fs, run.sha) && run.Guarded(fs.journal)
    ensures StepEffect(run, old(fs.state), fs.state, m, mLater, DiskPaths(job))
    ensures StaysPut(run, old(fs.state), fs.state)
    ensures mLater.restoreActions == m.restoreActions && (run.covered ==> mLater == m)
    ensures r.Pass? ==> HasManifest(fs.state, run.roots, run.id) && ManifestOf(fs.state, run.roots, run.id) == mLater
    ensures r.Pass? ==> created == if job.mode.live then Some(job.Config().disk.path) else None
    ensures r.Pass? && job.mode.live && run.quiet ==>
      var w := DiskWrite(job.Config()); w.path in fs.state.files && fs.state.files[w.path] == w.content
    ensures r.Fail? ==> !r.error.Refused?
    ensures old(fs.Calm()) && job.roots.SnapshotDir(job.pending.snapshotId) in old(fs.state).dirs ==> r.Pass?
  {
    hide FileSystem.OnRecord, StepEffect, Keeps, Rewrites, Extends, KeepsEntries, StaysPut, Run.Open, Run.Guarded;
    hide FileSystem.Quiet;
    hide Run.KnowsHostOnly, Run.MayWrite;
    ghost var start := fs.state;
    created := None;
    var path := job.Config().disk.path;
    mLater := DeclareTarget(m, path, VmRegister, run, start);
    EffectIsOpen(run, start, start, m, mLater, {});
    r := PersistManifest(fs, job.roots, job.pending.snapshotId, mLater, run);
    ghost var stored := fs.state;
    QuietStepAfter(run, start, start, stored, m, mLater, mLater, {});
    StepEffectWiden(run, start, stored, m, mLater, {}, DiskPaths(job));
    if r.Fail? || !job.mode.live {
      return;
    }
    EffectIsOpen(run, start, stored, m, mLater, {});
    MayWriteAcross(run, start, stored, m, mLater, {}, path);
    r := PlaceDisk(fs, DiskWrite(job.Config()), mLater, run);
    StepEffectTransitive(run, start, stored, fs.state, m, mLater, mLater, {}, {path});
    assert {} + {path} == DiskPaths(job);
    StaysPutTransitive(run, start, stored, fs.state);
    EffectIsOpen(run, start, fs.state, m, mLater, {path});
    created := Some(path);
  }

  /** Makes the image's directory, and the image in it. */
  method PlaceDisk(fs: FileSystem, w: Write, ghost m: SnapshotManifest, ghost run: Run) returns (r: Outcome<Error>)
    requires run.Uses(fs, run.sha) && run.Open(fs.state, m) && run.Guarded(fs.journal) && !run.checks
    requires run.MayWrite(fs.state, w.path)
    modifies fs
    ensures fs.Advances() && run.Uses(fs, run.sha) && run.Guarded(fs.journal)
    ensures StepEffect(run, old(fs.state), fs.state, m, m, {w.path}) && StaysPut(run, old(fs.state), fs.state)
    ensures ManifestOf(fs.state, run.roots, run.id) == ManifestOf(old(fs.state), run.roots, run.id)
    ensures r.Pass? && run.quiet ==> w.path in fs.state.files && fs.state.files[w.path] == w.content
    ensures r.Fail? ==> !r.error.Refused?
    ensures old(fs.Calm()) ==> r.Pass?
  {
    hide FileSystem.OnRecord, StepEffect, Keeps, Rewrites, Extends, KeepsEntries, StaysPut, Run.Open, Run.Guarded;
    hide FileSystem.Quiet;
    hide Run.KnowsHostOnly, Run.MayWrite;
    ghost var start := fs.state;
    StepEffectNone(run, start, m, {});
    StaysItself(run, start);
    if w.path != [] {
      r := MakeDirs(fs, w.path[..|w.path| - 1], run, m);
      if r.Fail? {
        StepEffectWiden(run, start, fs.state, m, m, {}, {w.path});
        return;
      }
    }
    ghost var ready := fs.state;
    EffectIsOpen(run, start, ready, m, m, {});
    MayWriteAcross(run, start, ready, m, m, {}, w.path);
    r := CreateImage(fs, w, m, run);
    StepEffectTransitive(run, start, ready, fs.state, m, m, m, {}, {w.path});
    assert {} + {w.path} == {w.path};
    StaysPutTransitive(run, start, ready, fs.state);
  }

  /** `qemu-img create`: may fail before or after the image file has appeared. */
  method CreateImage(fs: FileSystem, w: Write, ghost m: SnapshotManifest, ghost run: Run) returns (r: Outcome<Error>)
    requires run.Uses(fs, run.sha) && run.Open(fs.state, m) && run.Guarded(fs.journal) && !run.checks
    requires run.MayWrite(fs.state, w.path)
    modifies fs
    ensures fs.Advances() && run.Uses(fs, run.sha) && run.Guarded(fs.journal)
    ensures StepEffect(run, old(fs.state), fs.state, m, m, {w.path}) && StaysPut(run, old(fs.state), fs.state)
    ensures ManifestOf(fs.state, run.roots, run.id) == ManifestOf(old(fs.state), run.roots, run.id)
    ensures r.Pass? && run.quiet ==> w.path in fs.state.files && fs.state.files[w.path] == w.content
    ensures r.Fail? ==> !r.error.Refused?
    ensures old(fs.Calm()) ==> r.Pass?
  {
    hide FileSystem.OnRecord, StepEffect, Keeps, Rewrites, Extends, KeepsEntries, StaysPut, Run.Guarded;
    hide Run.KnowsHostOnly;
    hide Run.MayWrite, Merged, HandsOff;
    ghost var start, journal, found := fs.state, fs.journal, fs.Found();
    OthersStep(run, start, found, m);
    EffectIsOpen(run, start, found, m, m, {});
    MayWriteAcross(run, start, found, m, m, {}, w.path);
    InScope(run, start, w.path);
    r := fs.PlaceImage(w.path, w.content);
    ghost var placed := fs.state;
    KeepsAllEntries(run, found, placed, m, w.path);
    StepEffectTransitive(run, start, found, placed, m, m, m, {}, {w.path});
    assert {} + {w.path} == {w.path};
    ImageStays(run, start, found, placed);
    if r.Fail? {
      QuietEvent(run, journal, found, placed, m);
      return;
    }
    MarkLogged(run, journal, found, placed, w.path);
    EffectIsOpen(run, start, placed, m, m, {w.path});
    r := HostCommand(fs, VmRegister, "qemu-img create", run, m);
    StepEffectTransitive(run, start, placed, fs.state, m, m, m, {w.path}, {});
    assert {w.path} + {} == {w.path};
    StaysPutTransitive(run, start, placed, fs.state);
    EffectIsOpen(run, placed, fs.state, m, m, {});
  }

  lemma ImageStays(run: Run, start: Disk, found: Disk, placed: Disk)
    requires StaysPut(run, start, found) && found.files.Keys <= placed.files.Keys
    requires found.executable == placed.executable && found.domains == placed.domains
    ensures StaysPut(run, start, placed)
  {
  }

  /** Changing a host file without touching the manifest. */
  lemma KeepsAllEntries(run: Run, d: Disk, later: Disk, m: SnapshotManifest, p: Path)
    requires run.Open(d, m) && run.MayWrite(d, p)
    requires d.dirs <= later.dirs && forall q | q != p :: Same(d, later, q)
    ensures StepEffect(run, d, later, m, m, {p})
    ensures ManifestOf(later, run.roots, run.id) == ManifestOf(d, run.roots, run.id)
  {
    hide StepEffect, Keeps, AddsNothing;
    HostFileStep(run, d, later, m, m, p);
  }

  /** Registers the domain and records how to undo that; a refused definition takes a new image with it. */
  method DefineVm(fs: FileSystem, job: Job, created: Option<Path>, m: SnapshotManifest, ghost run: Run)
    returns (r: Outcome<Error>, mLater: SnapshotManifest)
    requires RunFor(job, run) && job.mode.live
    requires run.Uses(fs, run.sha) && run.Open(fs.state, m) && run.Guarded(fs.journal)
    requires created.Some? ==> job.Config().disk.Create? && created.value == job.Config().disk.path
    requires created.Some? ==> run.MayWrite(fs.state, created.value)
    modifies fs
    ensures fs.Advances() && run.Uses(fs, run.sha) && run.Guarded(fs.journal)
    ensures StepEffect(run, old(fs.state), fs.state, m, mLater, DiskPaths(job))
    ensures run.quiet ==>
      Stays(run.Known(), old(fs.state), fs.state, DiskPaths(job)) &&
        DomainsGrow(job, old(fs.state), fs.state, m, mLater)
    ensures r.Pass? ==>
      && mLater == PushAction(m, UndefineLibvirtDomain(job.Config().vmName))
      && HasManifest(fs.state, run.roots, run.id) && ManifestOf(fs.state, run.roots, run.id) == mLater
    ensures r.Pass? && run.quiet ==>
      && job.Config().vmName !in old(fs.state).domains && job.Config().vmName in fs.state.domains
      && ChangesOnly(run.Known(), old(fs.state), fs.state, {})
    ensures r.Fail? ==> !r.error.Refused?
    ensures run.quiet && old(fs.Calm()) && job.Config().vmName !in old(fs.state).domains
            && job.roots.SnapshotDir(job.pending.snapshotId) in old(fs.state).dirs
            ==> r.Pass?
  {
    hide FileSystem.OnRecord, StepEffect, Keeps, Rewrites, Extends, KeepsEntries, StaysPut, Run.Guarded;
    hide Run.KnowsHostOnly;
    hide Run.MayWrite, Merged, HandsOff, Run.Open, Stays, ChangesOnly;
    ghost var start := fs.state;
    var name := job.Config().vmName;
    mLater := m;
    var defined := Define(fs, name, m, run);
    ghost var registered := fs.state;
    EffectIsOpen(run, start, registered, m, m, {});
    OwnDirStays(run, start, registered, m, m, {});
    StepEffectWiden(run, start, registered, m, m, {}, DiskPaths(job));
    if defined.Fail? {
      if created.Some? {
        MayWriteAcross(run, start, registered, m, m, {}, created.value);
        RemoveCreated(fs, created.value, m, run);
        StepEffectTransitive(run, start, registered, fs.state, m, m, m, DiskPaths(job), {created.value});
        assert DiskPaths(job) + {created.value} == DiskPaths(job);
        assert {created.value} == DiskPaths(job);
        if run.quiet {
          StaysButImage(run.Known(), start, registered, DiskPaths(job));
          StaysTransitive(run.Known(), start, registered, fs.state, DiskPaths(job));
        }
      } else if run.quiet {
        StaysButImage(run.Known(), start, registered, DiskPaths(job));
      }
      return Fail(VirshDefine(created)), m;
    }
    var action := UndefineLibvirtDomain(name);
    mLater := PushAction(m, action);
    ActionStep(run, registered, m, action);
    EffectIsOpen(run, registered, registered, m, mLater, {});
    r := PersistManifest(fs, job.roots, job.pending.snapshotId, mLater, run);
    QuietStepAfter(run, registered, registered, fs.state, m, mLater, mLater, {});
    QuietStepAfter(run, start, registered, fs.state, m, m, mLater, {});
    EffectIsOpen(run, start, fs.state, m, mLater, {});
    StepEffectWiden(run, start, fs.state, m, mLater, {}, DiskPaths(job));
    if run.quiet {
      DomainsStay(run, registered, fs.state);
      StaysTransitive(run.Known(), start, registered, fs.state, {});
      StaysButImage(run.Known(), start, fs.state, DiskPaths(job));
    }
  }

  lemma DomainsStay(run: Run, d: Disk, later: Disk)
    requires StaysPut(run, d, later) && run.quiet
    ensures later.domains == d.domains && Stays(run.Known(), d, later, {})
  {
  }

  lemma StaysButImage(known: set<Path>, d: Disk, later: Disk, gone: set<Path>)
    requires Stays(known, d, later, {})
    ensures Stays(known, d, later, gone)
  {
  }

  /** `virsh define` inside a run. */
  method Define(fs: FileSystem, name: string, ghost m: SnapshotManifest, ghost run: Run) returns (r: Outcome<Error>)
    requires run.Uses(fs, run.sha) && run.Open(fs.state, m) && run.Guarded(fs.journal)
    modifies fs
    ensures fs.Advances() && run.Uses(fs, run.sha) && run.Guarded(fs.journal)
    ensures StepEffect(run, old(fs.state), fs.state, m, m, {})
    ensures run.quiet ==>
      && Stays(run.Known(), old(fs.state), fs.state, {})
      && (r.Pass? <==> !old(fs.fails(fs.ops)) && name !in old(fs.state).domains)
      && fs.state.domains == old(fs.state).domains + if r.Pass? then {name} else {}
  {
    hide FileSystem.OnRecord, StepEffect, Keeps, Rewrites, Run.Guarded, Run.KnowsHostOnly, Merged;
    ghost var start, journal, found := fs.state, fs.journal, fs.Found();
    OthersStep(run, start, found, m);
    EffectIsOpen(run, start, found, m, m, {});
    r := fs.DefineDomain(name);
    DirsStep(run, found, fs.state, m);
    TwoEffectsOf(run, start, found, fs.state, m);
    QuietEvent(run, journal, found, fs.state, m);
  }

  lemma TwoEffectsOf(run: Run, a: Disk, b: Disk, c: Disk, m: SnapshotManifest)
    requires StepEffect(run, a, b, m, m, {}) && StepEffect(run, b, c, m, m, {})
    ensures StepEffect(run, a, c, m, m, {})
  {
    hide StepEffect;
    QuietStepAfter(run, a, b, c, m, m, m, {});
  }

  /** Best effort: a failure to remove the image is only logged. */
  method RemoveCreated(fs: FileSystem, path: Path, ghost m: SnapshotManifest, ghost run: Run)
    requires run.Uses(fs, run.sha) && run.Open(fs.state, m) && run.Guarded(fs.journal) && !run.checks
    requires run.MayWrite(fs.state, path)
    modifies fs
    ensures fs.Advances() && run.Uses(fs, run.sha) && run.Guarded(fs.journal)
    ensures StepEffect(run, old(fs.state), fs.state, m, m, {path})
    ensures run.quiet ==>
      Stays(run.Known(), old(fs.state), fs.state, {path}) && fs.state.domains == old(fs.state).domains
  {
    hide FileSystem.OnRecord, StepEffect, Keeps, Rewrites, Run.Guarded, Run.KnowsHostOnly, Merged, Run.MayWrite;
    ghost var start, journal, found := fs.state, fs.journal, fs.Found();
    OthersStep(run, start, found, m);
    EffectIsOpen(run, start, found, m, m, {});
    MayWriteAcross(run, start, found, m, m, {}, path);
    var removed := fs.RemoveFile(path);
    KeepsAllEntries(run, found, fs.state, m, path);
    StepEffectTransitive(run, start, found, fs.state, m, m, m, {}, {path});
    assert {} + {path} == {path};
    if removed.Pass? {
      MarkLogged(run, journal, found, fs.state, path);
    } else {
      QuietEvent(run, journal, found, fs.state, m);
    }
  }

  method RunVmRegisterStep(
    fs: FileSystem, sha: Contents -> Digest, job: Job, step: PlannedStep, m: SnapshotManifest, ghost run: Run)
    returns (r: Outcome<Error>, mLater: SnapshotManifest)
    requires step.kind == VmRegister && CanStart(job, run, step, fs.state, m)
    requires run.Uses(fs, sha) && run.Guarded(fs.journal)
    modifies fs
    ensures fs.Advances() && run.Uses(fs, sha) && run.Guarded(fs.journal)
    ensures StepBounds(job, run, step, old(fs.state), fs.state, m, mLater)
    ensures r.Pass? ==> HasManifest(fs.state, run.roots, run.id) && ManifestOf(fs.state, run.roots, run.id) == mLater
    ensures r.Pass? && run.quiet ==> StepDone(job, run, sha, step, old(fs.state), fs.state, m, mLater)
    ensures r.Pass? && run.quiet ==> Delivered(job, step, fs.state)
    ensures r.Fail? ==> !r.error.Refused?
    ensures run.quiet && old(fs.Calm()) && job.roots.SnapshotDir(job.pending.snapshotId) in old(fs.state).dirs
            && Runnable(job, step, old(fs.state), m) && Permitted(job, step, sha, old(fs.state), m)
            ==> r.Pass?
  {
    hide FileSystem.OnRecord, StepEffect, Keeps, Rewrites, Extends, KeepsEntries, StaysPut, Run.Guarded;
    hide Run.KnowsHostOnly;
    hide Run.MayWrite, Run.Open, Stays, ChangesOnly, HostIs, Apply, FileSystem.Quiet, StepBounds, StepDone, DomainsGrow;
    ghost var start := fs.state;
    NoBounds(job, run, step, start, m);
    StepEffectNone(run, start, m, {});
    StaysItself(run, start);
    if job.Config().disk.Existing? {
      var there := FileExists(fs, job.Config().disk.path, run, m);
      if !there {
        RegisterBounds(job, run, step, start, fs.state, m, m);
        return Fail(StepFailed(VmRegister)), m;
      }
    }
    ghost var ready := fs.state;
    EffectIsOpen(run, start, ready, m, m, {});
    var i := 0;
    while i < |m.entries| && m.entries[i].producedBy != VmXmlGenerate
      invariant 0 <= i <= |m.entries|
      invariant forall j | 0 <= j < i :: m.entries[j].producedBy != VmXmlGenerate
    {
      i := i + 1;
    }
    if i == |m.entries| {
      RegisterBounds(job, run, step, start, fs.state, m, m);
      return Fail(StepFailed(VmRegister)), m;
    }
    r, mLater := Register(fs, job, step, m, run, start);
    if r.Pass? && run.quiet {
      RegisterDone(job, run, sha, step, start, fs.state, m, mLater);
      StepDelivers(job, run, sha, step, start, fs.state, m, mLater);
    }
  }

  /** Registration, once the image and the XML are known to be there: the new image, if any, and the domain. */
  method Register(
    fs: FileSystem, job: Job, step: PlannedStep, m: SnapshotManifest, ghost run: Run, ghost start: Disk)
    returns (r: Outcome<Error>, mLater: SnapshotManifest)
    requires step.kind == VmRegister && CanStart(job, run, step, start, m)
    requires run.Uses(fs, run.sha) && run.Guarded(fs.journal)
    requires StepEffect(run, start, fs.state, m, m, {}) && StaysPut(run, start, fs.state)
    requires ManifestOf(fs.state, run.roots, run.id) == m
    modifies fs
    ensures fs.Advances() && run.Uses(fs, run.sha) && run.Guarded(fs.journal)
    ensures StepBounds(job, run, step, start, fs.state, m, mLater)
    ensures r.Pass? ==> HasManifest(fs.state, run.roots, run.id) && ManifestOf(fs.state, run.roots, run.id) == mLater
    ensures r.Pass? && run.quiet ==> HostIs(run.scope, fs.state, Apply(start.files, StepWrites(job, step)))
    ensures r.Pass? && run.quiet && job.mode.live ==>
      && job.Config().vmName !in start.domains && job.Config().vmName in fs.state.domains
      && UndefineLibvirtDomain(job.Config().vmName) in mLater.restoreActions
    ensures r.Fail? ==> !r.error.Refused?
    ensures run.quiet && old(fs.Calm()) && job.roots.SnapshotDir(job.pending.snapshotId) in start.dirs
            && (job.mode.live ==> job.Config().vmName !in start.domains)
            ==> r.Pass?
  {
    hide FileSystem.OnRecord, StepEffect, Keeps, Rewrites, Extends, KeepsEntries, StaysPut, Run.Guarded;
    hide Run.KnowsHostOnly;
    hide Run.MayWrite, Run.Open, Stays, ChangesOnly, HostIs, Apply, FileSystem.Quiet, StepBounds, DomainsGrow;
    hide StepWrites;
    ghost var ready := fs.state;
    EffectIsOpen(run, start, ready, m, m, {});
    OwnDirStays(run, start, ready, m, m, {});
    var created: Option<Path> := None;
    mLater := m;
    if job.Config().disk.Create? {
      assert job.Config().disk.path in StepPaths(job.Config(), step);
      MayWriteAcross(run, start, ready, m, m, {}, job.Config().disk.path);
      r, mLater, created := CreateDisk(fs, job, m, run);
    } else {
      StepEffectNone(run, ready, m, DiskPaths(job));
      StaysItself(run, ready);
      r := Pass;
    }
    ghost var mid := fs.state;
    StepEffectTransitive(run, start, ready, mid, m, m, mLater, {}, DiskPaths(job));
    assert {} + DiskPaths(job) == DiskPaths(job);
    StaysPutTransitive(run, start, ready, mid);
    RegisterBoundsSoFar(job, run, step, start, mid, m, mLater);
    if r.Fail? {
      return;
    }
    EffectIsOpen(run, start, mid, m, mLater, DiskPaths(job));
    OwnDirStays(run, start, mid, m, mLater, DiskPaths(job));
    if run.quiet {
      DiskIsDone(job, step, run, start, mid);
      DomainsStay(run, start, mid);
    }
    if !job.mode.live {
      return;
    }
    if created.Some? {
      MayWriteAcross(run, start, mid, m, mLater, DiskPaths(job), created.value);
    }
    ghost var mMid := mLater;
    r, mLater := DefineVm(fs, job, created, mLater, run);
    StepEffectTransitive(run, start, mid, fs.state, m, mMid, mLater, DiskPaths(job), DiskPaths(job));
    assert DiskPaths(job) + DiskPaths(job) == DiskPaths(job);
    RegisterBoundsAfter(job, run, step, start, mid, fs.state, m, mMid, mLater);
    if r.Pass? && run.quiet {
      KnownStay(run, mid, fs.state);
      HostIsKept(run.scope, mid, fs.state, Apply(start.files, StepWrites(job, step)));
    }
  }

  lemma DiskPathsAreWrites(job: Job, step: PlannedStep)
    requires step.kind == VmRegister
    ensures WritePaths(StepWrites(job, step)) == DiskPaths(job)
  {
  }

  lemma KnownStay(run: Run, d: Disk, later: Disk)
    requires ChangesOnly(run.Known(), d, later, {})
    ensures forall p | p in run.scope :: Same(d, later, p)
  {
    forall p | p in run.scope ensures Same(d, later, p) {
      assert p in run.Known();
    }
  }

  lemma RegisterBounds(
    job: Job, run: Run, step: PlannedStep, d: Disk, later: Disk, m: SnapshotManifest, mLater: SnapshotManifest)
    requires step.kind == VmRegister && StepEffect(run, d, later, m, mLater, {}) && StaysPut(run, d, later)
    requires mLater.restoreActions == m.restoreActions
    ensures StepBounds(job, run, step, d, later, m, mLater)
  {
    hide StepEffect;
    StepEffectWiden(run, d, later, m, mLater, {}, DiskPaths(job));
    RegisterBoundsSoFar(job, run, step, d, later, m, mLater);
  }

  lemma RegisterBoundsSoFar(
    job: Job, run: Run, step: PlannedStep, d: Disk, later: Disk, m: SnapshotManifest, mLater: SnapshotManifest)
    requires step.kind == VmRegister && StepEffect(run, d, later, m, mLater, DiskPaths(job)) && StaysPut(run, d, later)
    requires mLater.restoreActions == m.restoreActions
    ensures StepBounds(job, run, step, d, later, m, mLater)
  {
    hide StepEffect;
    DiskPathsAreWrites(job, step);
    BoundsOf(job, run, step, d, later, m, mLater);
  }

  lemma RegisterBoundsAfter(
    job: Job, run: Run, step: PlannedStep, start: Disk, mid: Disk, d: Disk, m: SnapshotManifest,
    mMid: SnapshotManifest, mLater: SnapshotManifest)
    requires step.kind == VmRegister && StepEffect(run, start, d, m, mLater, DiskPaths(job))
    requires StaysPut(run, start, mid) && mMid.restoreActions == m.restoreActions
    requires run.quiet ==> Stays(run.Known(), mid, d, DiskPaths(job)) && DomainsGrow(job, mid, d, mMid, mLater)
    ensures StepBounds(job, run, step, start, d, m, mLater)
  {
    hide StepEffect;
    DiskPathsAreWrites(job, step);
    if run.quiet {
      StaysButImage(run.Known(), start, mid, DiskPaths(job));
      StaysTransitive(run.Known(), start, mid, d, DiskPaths(job));
    }
  }

  lemma DiskIsDone(job: Job, step: PlannedStep, run: Run, start: Disk, later: Disk)
    requires step.kind == VmRegister && ChangesOnly(run.Known(), start, later, DiskPaths(job))
    requires job.mode.live && job.Config().disk.Create? ==>
      var w := DiskWrite(job.Config()); w.path in later.files && later.files[w.path] == w.content
    ensures HostIs(run.scope, later, Apply(start.files, StepWrites(job, step)))
  {
    var writes := StepWrites(job, step);
    forall p | p in run.scope && p !in DiskPaths(job) ensures Same(start, later, p) {
      assert p in run.Known();
    }
    if writes == [] {
      HostIsKept(run.scope, start, later, start.files);
    } else {
      HostIsStep(run.scope, start, later, start.files, writes[0]);
      ApplySnoc(start.files, [], writes[0]);
      assert [] + [writes[0]] == writes;
    }
  }

  lemma RegisterDone(
    job: Job, run: Run, sha: Contents -> Digest, step: PlannedStep, start: Disk, d: Disk, m: SnapshotManifest,
    mLater: SnapshotManifest)
    requires step.kind == VmRegister && HostIs(run.scope, d, Apply(start.files, StepWrites(job, step)))
    requires job.Config().disk.Existing? ==> start.Exists(job.Config().disk.path)
    requires HasXmlEntry(m)
    requires job.mode.live ==>
      && job.Config().vmName !in start.domains && job.Config().vmName in d.domains
      && UndefineLibvirtDomain(job.Config().vmName) in mLater.restoreActions
    ensures StepDone(job, run, sha, step, start, d, m, mLater)
  {
  }
}
