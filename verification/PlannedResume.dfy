/** From an applied plan to the end of its resume: what Phase A leaves lets Phase B run, and its hooks verify. */
module PlannedResume {
  import opened Wrappers
  import opened Paths
  import opened Records
  import opened Manifest
  import opened Store
  import opened Layout
  import opened Capture
  import opened AtomicWrite
  import opened HostWrites
  import opened Session
  import opened RoleChecks
  import opened Planner
  import opened PhaseA
  import opened PhaseBInstall
  import opened PhaseB
  import opened PlannedRun
  import opened Resume
  import opened Commands

  /** The job a `resume` works on after an `apply` for `host` and `config`. */
  function JobFor(
    env: Env, host: SystemProfile, config: PassthroughConfig, id: string, profile: SystemProfile, mode: Mode): Job
  {
    Job(env.Roots(), PendingFor(env.home, host, config, id), profile, mode)
  }

  /** The planned disk image, if one is to be created, is not put on a path of Virtu's own. */
  predicate ImageApart(env: Env, config: PassthroughConfig) {
    config.disk.Create? ==> config.disk.path !in HookPaths(config) && config.disk.path != VmXmlPath(env.home, config)
  }

  /** `d` has the records an `apply` left that saw `seen`, whatever else has happened since. */
  ghost predicate LeftBy(
    env: Env, host: SystemProfile, config: PassthroughConfig, id: string, seen: map<Path, Contents>, d: Disk)
  {
    var m := CaptureManifest(seen, env.sha, PlanFor(env.home, host, config), host, id);
    && HasManifest(d, env.Roots(), id)
    && Rewrites(env.Roots(), m, ManifestOf(d, env.Roots(), id)) && SameCount(m, ManifestOf(d, env.Roots(), id))
  }

  lemma AppliedLeaves(
    env: Env, host: SystemProfile, config: PassthroughConfig, id: string, d0: Disk, d1: Disk, journal: seq<Event>,
    n: nat, seen: map<Path, Contents>, d2: Disk)
    requires Applied(env, host, config, id, d0, d1, journal, n, seen) && HasManifest(d1, env.Roots(), id)
    requires OwnFiles(env.Roots(), d1, d2)
    ensures LeftBy(env, host, config, id, seen, d2)
  {
    hide CaptureManifest, Rewrites, SafeEvent, CheckedWrite, Targets, SeenFirst;
    assert Under(env.Roots().snapshots, env.Roots().ManifestPath(id));
    assert Same(d1, d2, env.Roots().ManifestPath(id));
  }

  lemma RemainingSteps(env: Env, host: SystemProfile, config: PassthroughConfig, id: string)
    ensures PendingFor(env.home, host, config, id).remainingSteps == PhaseBPart(env.home, host, config)
    ensures PendingFor(env.home, host, config, id).config == config
    ensures PendingFor(env.home, host, config, id).snapshotId == id
  {
    hide PhaseAPart, PhaseBPart, PhaseBSteps;
    PlanSplits(env.home, host, config, PhaseAPart(env.home, host, config), PhaseBPart(env.home, host, config));
  }

  // ----- the hooks -----

  lemma HooksAreLeft(
    env: Env, host: SystemProfile, config: PassthroughConfig, id: string, seen: map<Path, Contents>, d: Disk)
    requires LeftBy(env, host, config, id, seen, d)
    ensures OnlyHookEntries(ManifestOf(d, env.Roots(), id), config)
    ensures DistinctPaths(ManifestOf(d, env.Roots(), id).entries)
  {
    hide PhaseAPart, PhaseBPart, Targets, RestoreActions, HookPaths;
    var plan := PlanFor(env.home, host, config);
    CapturedHookEntries(env.home, host, config, seen, env.sha, plan, id);
    TargetsAreDistinct(plan.steps);
    HookEntriesKept(
      CaptureManifest(seen, env.sha, plan, host, id), ManifestOf(d, env.Roots(), id), config);
  }

  /**
   * A plan with hooks is applied, and the resume of its record succeeds while others leave its files
   * alone: then the verification of the hook scripts finds nothing.
   */
  lemma PlannedHooksVerify(
    env: Env, host: SystemProfile, config: PassthroughConfig, id: string, d0: Disk, d1: Disk, journal: seq<Event>,
    n: nat, seen: map<Path, Contents>, d2: Disk, profile: SystemProfile, mode: Mode, d3: Disk,
    outcome: PhaseBOutcome, found: seq<Divergence>, at: seq<nat>)
    requires Applied(env, host, config, id, d0, d1, journal, n, seen) && HasManifest(d1, env.Roots(), id)
    requires OwnFiles(env.Roots(), d1, d2) && WantsHooks(host, config) && ImageApart(env, config)
    requires Ran(JobFor(env, host, config, id, profile, mode), env.sha, d2, d3, Success(outcome))
    requires HasManifest(d3, env.Roots(), id)
    requires Complaints(d3, env.sha, ManifestOf(d3, env.Roots(), id).entries, config.vmName, found, at)
    ensures found == []
  {
    hide Applied, Complaints, Ran, WantsHooks, HookPaths, VmXmlPath, PendingFor, LeftBy, DistinctPaths;
    hide OnlyHookEntries, DistinctWrites, AllWrites;
    var job, step := JobFor(env, host, config, id, profile, mode), SingleGpuHookStep(config);
    AppliedLeaves(env, host, config, id, d0, d1, journal, n, seen, d2);
    RemainingSteps(env, host, config, id);
    HookStepPlanned(env, host, config);
    PlannedRunIsPlain(job, env.home, host);
    LeftHasManifest(env, host, config, id, seen, d2);
    HooksAreLeft(env, host, config, id, seen, d2);
    AchievedInPlace(job, env.sha, d2, d3, outcome, step);
    DistinctStays(ManifestOf(d2, env.Roots(), id), ManifestOf(d3, env.Roots(), id));
    HooksVerifyAfterPhaseB(job, env.sha, d2, d3, outcome, step, found, at);
  }

  /**
   * What a planned VM needs is there: its hook scripts where the plan calls for them, its XML under
   * Virtu's own directory, and, in a live run, the domain and the new disk image.
   */
  ghost predicate VmInstalled(
    home: Path, host: SystemProfile, config: PassthroughConfig, profile: SystemProfile, mode: Mode, d: Disk)
  {
    && (Implies(config.gpuRoles, host.gpus, SingleGpu) || config.monitorPlan == OneMonitor(HookHandoff) ==>
          exists ctx :: IsContext(ctx, profile, config) && HooksInstalled(d, config.vmName, ctx))
    && mode.xml.Some? && Holds(d, home + [".virtu", config.vmName + ".xml"], mode.xml.value)
    && (mode.live ==>
          && config.vmName in d.domains
          && (config.disk.Create? ==> Holds(d, config.disk.path, DiskImage(config.disk.sizeGb, config.disk.format))))
  }

  /** A plan is applied, and the resume of its record succeeds while others leave its files alone: then all of it is. */
  lemma PlannedVmIsInstalled(
    env: Env, host: SystemProfile, config: PassthroughConfig, id: string, d: Disk, profile: SystemProfile, mode: Mode,
    later: Disk, outcome: PhaseBOutcome)
    requires ImageApart(env, config)
    requires Ran(JobFor(env, host, config, id, profile, mode), env.sha, d, later, Success(outcome))
    ensures VmInstalled(env.home, host, config, profile, mode, later)
  {
    hide Ran, HookPaths, VmXmlPath, PendingFor, AllWrites, WantsHooks, Implies, IsContext, HooksInstalled;
    hide PhaseBPart;
    var job := JobFor(env, host, config, id, profile, mode);
    RemainingSteps(env, host, config, id);
    PlannedRunIsPlain(job, env.home, host);
    if WantsHooks(host, config) {
      HookStepPlanned(env, host, config);
      RunDelivers(job, env.sha, d, later, outcome, SingleGpuHookStep(config));
    }
    XmlAndRegisterPlanned(env, host, config);
    RunDelivers(job, env.sha, d, later, outcome, VmXmlStep(env.home, config));
    RunDelivers(job, env.sha, d, later, outcome, VmRegisterStep(config));
    HooksWantedIs(host, config);
  }

  lemma HooksWantedIs(host: SystemProfile, config: PassthroughConfig)
    ensures WantsHooks(host, config) <==>
      Implies(config.gpuRoles, host.gpus, SingleGpu) || config.monitorPlan == OneMonitor(HookHandoff)
  {
    hide Implies;
    DerivedModeIff(config.gpuRoles, host.gpus, SingleGpu);
  }

  lemma XmlAndRegisterPlanned(env: Env, host: SystemProfile, config: PassthroughConfig)
    ensures VmXmlStep(env.home, config) in PhaseBPart(env.home, host, config)
    ensures VmRegisterStep(config) in PhaseBPart(env.home, host, config)
    ensures VmXmlStep(env.home, config).touches == [env.home + [".virtu", config.vmName + ".xml"]]
    ensures VmXmlStep(env.home, config).kind == VmXmlGenerate && VmRegisterStep(config).kind == VmRegister
  {
    hide WantsHooks;
    assert VmXmlPath(env.home, config) == env.home + [".virtu", config.vmName + ".xml"];
  }

  lemma LeftHasManifest(
    env: Env, host: SystemProfile, config: PassthroughConfig, id: string, seen: map<Path, Contents>, d: Disk)
    requires LeftBy(env, host, config, id, seen, d)
    ensures HasManifest(d, env.Roots(), id)
  {
  }

  lemma HookStepPlanned(env: Env, host: SystemProfile, config: PassthroughConfig)
    requires WantsHooks(host, config)
    ensures SingleGpuHookStep(config) in PhaseBPart(env.home, host, config)
    ensures SingleGpuHookStep(config).kind == HookInstall
  {
    hide WantsHooks, VmXmlPath;
  }

  lemma DistinctStays(m: SnapshotManifest, later: SnapshotManifest)
    requires Extends(m, later) && DistinctPaths(m.entries)
    ensures DistinctPaths(later.entries)
  {
  }

  // ----- the steps can run -----

  /** Only the XML step touches the XML file before the registration, if the bootloader's file is another. */
  lemma XmlStepOwnsXml(env: Env, host: SystemProfile, config: PassthroughConfig, step: PlannedStep)
    requires IsPlanned(env.home, host, config, step) && VmXmlPath(env.home, config) in step.touches
    requires host.bootloader.configPath != Some(VmXmlPath(env.home, config)) && ImageApart(env, config)
    ensures step.kind == VmXmlGenerate
  {
    var p, n := VmXmlPath(env.home, config), |env.home|;
    var last := config.vmName + ".xml";
    assert p[n] == ".virtu" && p[n + 1] == last && last[|last| - 1] == 'l' && |p| == n + 2;
    assert "snapshots"[8] != 'l' && |"snapshots"| == 9;
    XmlIsNoHook(env.home, config);
    assert RootsOf(env.home).snapshots[n + 1] == "snapshots";
  }

  /** The snapshot of a plan has an entry of the XML step. */
  lemma XmlEntryIsCaptured(
    env: Env, host: SystemProfile, config: PassthroughConfig, id: string, seen: map<Path, Contents>, d: Disk)
    requires LeftBy(env, host, config, id, seen, d)
    requires host.bootloader.configPath != Some(VmXmlPath(env.home, config)) && ImageApart(env, config)
    ensures HasXmlEntry(ManifestOf(d, env.Roots(), id))
  {
    hide PhaseAPart, PhaseBPart, RestoreActions, VmXmlPath, HookPaths, IsPlanned;
    var plan, p := PlanFor(env.home, host, config), VmXmlPath(env.home, config);
    var m, targets := CaptureManifest(seen, env.sha, plan, host, id), Targets(plan.steps);
    var x := XmlStepIndex(env, host, config);
    TouchIsTarget(plan.steps, x, p);
    var i :| 0 <= i < |targets| && targets[i] == p;
    var j := FirstToucher(plan.steps, p);
    assert j <= x && plan.steps[j] in plan.steps;
    StepIsPlanned(env.home, host, config, plan.steps[j]);
    XmlStepOwnsXml(env, host, config, plan.steps[j]);
    assert m.entries[i].producedBy == VmXmlGenerate;
    assert SameCapture(m.entries[i], ManifestOf(d, env.Roots(), id).entries[i]);
  }

  lemma XmlStepIndex(env: Env, host: SystemProfile, config: PassthroughConfig) returns (x: nat)
    ensures var steps := StepsFor(env.home, host, config);
      && x < |steps| && steps[x].kind != Snapshot && VmXmlPath(env.home, config) in steps[x].touches
  {
    hide PhaseAPart, WantsHooks, VmXmlPath;
    var steps := StepsFor(env.home, host, config);
    var xml := VmXmlStep(env.home, config);
    assert xml in PhaseBPart(env.home, host, config);
    assert xml in steps;
    x :| 0 <= x < |steps| && steps[x] == xml;
  }

  /** No file the job writes that the capture saw has another digest now. */
  ghost predicate NotReplaced(env: Env, job: Job, seen: map<Path, Contents>, d: Disk) {
    forall p | p in Scope(job) && p in seen :: p in d.files && env.sha(d.files[p]) == env.sha(seen[p])
  }

  /** The host, the choices and the generators allow the steps. */
  ghost predicate Supported(
    env: Env, host: SystemProfile, config: PassthroughConfig, profile: SystemProfile, mode: Mode, d: Disk)
  {
    && mode.xml.Some?
    && (WantsHooks(host, config) ==>
          Context(profile, config).Some? && Scriptable(Context(profile, config).value))
    && (config.disk.Existing? ==> d.Exists(config.disk.path))
    && (mode.live ==> config.vmName !in d.domains)
  }

  /**
   * The record a planned `apply` leaves can be executed after the reboot: all its steps are runnable
   * as soon as the host supports them and no file captured for them has been replaced.
   */
  lemma PlannedRecordIsRunnable(
    env: Env, host: SystemProfile, config: PassthroughConfig, id: string, d0: Disk, d1: Disk, journal: seq<Event>,
    n: nat, seen: map<Path, Contents>, d2: Disk, profile: SystemProfile, mode: Mode)
    requires Applied(env, host, config, id, d0, d1, journal, n, seen) && HasManifest(d1, env.Roots(), id)
    requires OwnFiles(env.Roots(), d1, d2) && env.Roots().SnapshotDir(id) in d2.dirs
    requires host.bootloader.configPath != Some(VmXmlPath(env.home, config)) && ImageApart(env, config)
    requires Supported(env, host, config, profile, mode, d2)
    requires NotReplaced(env, JobFor(env, host, config, id, profile, mode), seen, d2)
    ensures HasManifest(d2, env.Roots(), id)
    ensures AllRunnable(JobFor(env, host, config, id, profile, mode), env.sha, d2, ManifestOf(d2, env.Roots(), id))
  {
    hide Applied, PendingFor, LeftBy, WantsHooks, HookPaths, VmXmlPath, Runnable, Permitted, DistinctWrites;
    hide Supported, NotReplaced, PhaseBPart, HasXmlEntry;
    var job := JobFor(env, host, config, id, profile, mode);
    AppliedLeaves(env, host, config, id, d0, d1, journal, n, seen, d2);
    LeftHasManifest(env, host, config, id, seen, d2);
    RemainingSteps(env, host, config, id);
    PlannedRunIsPlain(job, env.home, host);
    XmlEntryIsCaptured(env, host, config, id, seen, d2);
    forall s | s in job.pending.remainingSteps
      ensures Runnable(job, s, d2, ManifestOf(d2, env.Roots(), id))
      ensures Permitted(job, s, env.sha, d2, ManifestOf(d2, env.Roots(), id))
    {
      StepIsSupported(env, host, config, job, s, d2, ManifestOf(d2, env.Roots(), id));
      StepIsPermitted(env, host, config, id, seen, job, s, d2);
    }
  }

  lemma StepIsSupported(
    env: Env, host: SystemProfile, config: PassthroughConfig, job: Job, s: PlannedStep, d: Disk, m: SnapshotManifest)
    requires job.pending.config == config && s in PhaseBPart(env.home, host, config)
    requires Supported(env, host, config, job.profile, job.mode, d) && HasXmlEntry(m)
    ensures Runnable(job, s, d, m)
  {
    hide HookPaths, VmXmlPath, HasXmlEntry, Context, Scriptable, WantsHooks, PhaseBPart, IsPlanned;
    PartSteps(env.home, host, config, s);
  }

  lemma PartSteps(home: Path, host: SystemProfile, config: PassthroughConfig, s: PlannedStep)
    requires s in PhaseBPart(home, host, config)
    ensures || (s == SingleGpuHookStep(config) && WantsHooks(host, config))
            || s == LookingGlassStep() || s == VmXmlStep(home, config)
            || s == VmRegisterStep(config) || s == VerifyStep()
  {
    hide HookPaths, VmXmlPath, WantsHooks, SingleGpuHookStep, LookingGlassStep, VmXmlStep, VmRegisterStep, VerifyStep;
  }

  lemma StepIsPermitted(
    env: Env, host: SystemProfile, config: PassthroughConfig, id: string, seen: map<Path, Contents>, job: Job,
    s: PlannedStep, d: Disk)
    requires LeftBy(env, host, config, id, seen, d) && NotReplaced(env, job, seen, d)
    requires job.pending.remainingSteps == PhaseBPart(env.home, host, config) && job.pending.config == config
    requires s in job.pending.remainingSteps
    ensures Permitted(job, s, env.sha, d, ManifestOf(d, env.Roots(), id))
  {
    hide LeftBy, StepWrites, StepPaths, PhaseBPart, Scope;
    WritesInScope(job, s);
    WritesOnStepPaths(job, s);
    LeftHasManifest(env, host, config, id, seen, d);
    forall w | w in StepWrites(job, s) ensures WriteAllowed(d, env.sha, ManifestOf(d, env.Roots(), id), w.path) {
      PathIsTarget(env, host, config, s, w.path);
      CapturedIsAllowed(env, host, config, id, seen, d, w.path);
    }
  }

  lemma PathIsTarget(env: Env, host: SystemProfile, config: PassthroughConfig, s: PlannedStep, p: Path)
    requires s in PhaseBPart(env.home, host, config) && p in StepPaths(config, s)
    ensures p in Targets(StepsFor(env.home, host, config))
  {
    hide PhaseAPart, PhaseBPart, StepPaths, Targets;
    var steps := StepsFor(env.home, host, config);
    var a, b := PhaseAPart(env.home, host, config), PhaseBPart(env.home, host, config);
    PlannedStepsAreDeclared(env.home, host, config);
    PartKinds(env.home, host, config);
    assert Declared(config, s);
    var i :| 0 <= i < |b| && b[i] == s;
    assert steps[|a| + i] == s;
    TouchIsTarget(steps, |a| + i, p);
  }

  /** A captured target with its captured digest may be written, and so may one that was not there. */
  lemma CapturedIsAllowed(
    env: Env, host: SystemProfile, config: PassthroughConfig, id: string, seen: map<Path, Contents>, d: Disk, p: Path)
    requires LeftBy(env, host, config, id, seen, d) && p in Targets(StepsFor(env.home, host, config))
    requires p in seen ==> p in d.files && env.sha(d.files[p]) == env.sha(seen[p])
    ensures WriteAllowed(d, env.sha, ManifestOf(d, env.Roots(), id), p)
  {
    hide RestoreActions, PhaseAPart, PhaseBPart, Targets;
    var plan := PlanFor(env.home, host, config);
    var m, targets := CaptureManifest(seen, env.sha, plan, host, id), Targets(plan.steps);
    var i :| 0 <= i < |targets| && targets[i] == p;
    assert m.entries[i].originalPath == p;
    CoversAt(m, i);
    var k := IndexOf(m.entries, p);
    assert m.entries[k] == CaptureEntry(seen, env.sha, plan.steps, targets[k]);
    ExtendsEntryFor(m, ManifestOf(d, env.Roots(), id), p);
  }
}
