/** Building the ordered plan. */
module Planner {
  import opened Wrappers
  import opened Paths
  import opened Records
  import opened GpuRoles
  import opened KernelParams
  import opened Capture

  const QEMU_D: Path := ["etc", "libvirt", "hooks", "qemu.d"]
  const MODPROBE: Path := ["etc", "modprobe.d", "virtu-vfio.conf"]

  /** `~/.virtu`, where everything Virtu keeps for itself lives. */
  function VirtuHome(home: Path): Path {
    home + [".virtu"]
  }

  function RootsOf(home: Path): Roots {
    Roots(VirtuHome(home) + ["snapshots"], VirtuHome(home) + ["state"])
  }

  // ----- the steps -----

  function SnapshotStep(home: Path): PlannedStep {
    PlannedStep(Snapshot, Pending, [RootsOf(home).snapshots], false)
  }

  function BootloaderStep(profile: SystemProfile, config: PassthroughConfig): Option<PlannedStep> {
    if profile.bootloader.kind == UnknownBootloader || profile.bootloader.configPath.None? then None
    else
      var ids := CanonicalIds(config.gpuRoles, profile.gpus);
      var satisfied := CmdlineSatisfied(profile.kernelCmdline, CpuParam(profile.cpuVendor), ids);
      Some(PlannedStep(
             BootloaderWrite,
             if satisfied then AlreadySatisfied else Pending,
             [profile.bootloader.configPath.value],
             true))
  }

  function VfioStep(profile: SystemProfile, config: PassthroughConfig): Option<PlannedStep> {
    if CanonicalIds(config.gpuRoles, profile.gpus) == [] then None
    else
      var bound := exists g | g in PassthroughGpus(config.gpuRoles, profile.gpus) ::
        g.currentDriver == Some("vfio-pci");
      Some(PlannedStep(
             VfioConfig,
             if "vfio_pci" in profile.loadedModules && bound then AlreadySatisfied else Pending,
             [MODPROBE],
             true))
  }

  function InitramfsTarget(system: InitramfsSystem): Option<Path> {
    match system
    case Mkinitcpio => Some(["etc", "mkinitcpio.conf"])
    case Dracut => Some(["etc", "dracut.conf.d", "virtu-vfio.conf"])
    case UpdateInitramfs => Some(["etc", "initramfs-tools", "modules"])
    case UnknownInitramfs => None
  }

  function InitramfsStep(profile: SystemProfile): Option<PlannedStep> {
    match InitramfsTarget(profile.initramfs)
    case None => None
    case Some(target) =>
      Some(PlannedStep(
             InitramfsWrite,
             if "vfio_pci" in profile.loadedModules then AlreadySatisfied else Pending,
             [target],
             true))
  }

  function SingleGpuHookStep(config: PassthroughConfig): PlannedStep {
    var dispatcher := QEMU_D + [config.vmName];
    var helperDir := QEMU_D + [config.vmName + ".d"];
    PlannedStep(HookInstall, Pending, [dispatcher, helperDir + ["release"], helperDir + ["reattach"]], false)
  }

  function VmXmlPath(home: Path, config: PassthroughConfig): Path {
    VirtuHome(home) + [config.vmName + ".xml"]
  }

  function VmXmlStep(home: Path, config: PassthroughConfig): PlannedStep {
    PlannedStep(VmXmlGenerate, Pending, [VmXmlPath(home, config)], false)
  }

  function VmRegisterStep(config: PassthroughConfig): PlannedStep {
    PlannedStep(VmRegister, Pending, if config.disk.Create? then [config.disk.path] else [], false)
  }

  function LookingGlassStep(): PlannedStep {
    PlannedStep(LookingGlassInstall, Pending, [], false)
  }

  function VerifyStep(): PlannedStep {
    PlannedStep(Verify, Pending, [], false)
  }

  predicate WantsHooks(profile: SystemProfile, config: PassthroughConfig) {
    DerivedMode(config.gpuRoles, profile.gpus) == Some(SingleGpu) || config.monitorPlan == OneMonitor(HookHandoff)
  }

  function Listed(step: Option<PlannedStep>): seq<PlannedStep> {
    if step.Some? then [step.value] else []
  }

  function PhaseAPart(home: Path, profile: SystemProfile, config: PassthroughConfig): seq<PlannedStep> {
    [SnapshotStep(home)] + Listed(BootloaderStep(profile, config)) + Listed(VfioStep(profile, config))
    + Listed(InitramfsStep(profile))
  }

  function PhaseBPart(home: Path, profile: SystemProfile, config: PassthroughConfig): seq<PlannedStep> {
    (if WantsHooks(profile, config) then [SingleGpuHookStep(config)] else [])
    + (if config.lookingGlassEnabled then [LookingGlassStep()] else [])
    + [VmXmlStep(home, config), VmRegisterStep(config), VerifyStep()]
  }

  datatype PlanError = CompatibilityBlocked | ValidationFailed

  /** `blocked` and `invalid` are the verdicts of the compatibility report and the choice validation. */
  method MakePlan(home: Path, profile: SystemProfile, config: PassthroughConfig, blocked: bool, invalid: bool)
    returns (r: Result<Plan, PlanError>)
    ensures r.Success? <==> !blocked && !invalid
    ensures r.Failure? ==> r.error == if blocked then CompatibilityBlocked else ValidationFailed
    ensures r.Success? ==> r.value.steps == PhaseAPart(home, profile, config) + PhaseBPart(home, profile, config)
    ensures r.Success? ==> (r.value.requiresReboot <==> exists s :: s in r.value.steps && s.requiresReboot)
  {
    hide SnapshotStep, BootloaderStep, VfioStep, InitramfsStep, SingleGpuHookStep, LookingGlassStep;
    hide VmXmlStep, VmRegisterStep, VerifyStep, DerivedMode;
    if blocked {
      return Failure(CompatibilityBlocked);
    }
    if invalid {
      return Failure(ValidationFailed);
    }
    var steps := [SnapshotStep(home)];
    steps := steps + Listed(BootloaderStep(profile, config));
    steps := steps + Listed(VfioStep(profile, config));
    steps := steps + Listed(InitramfsStep(profile));
    ghost var phaseA := steps;
    if DerivedMode(config.gpuRoles, profile.gpus) == Some(SingleGpu) || config.monitorPlan == OneMonitor(HookHandoff) {
      steps := steps + [SingleGpuHookStep(config)];
    }
    if config.lookingGlassEnabled {
      steps := steps + [LookingGlassStep()];
    }
    steps := steps + [VmXmlStep(home, config)];
    steps := steps + [VmRegisterStep(config)];
    steps := steps + [VerifyStep()];
    assert steps == phaseA + PhaseBPart(home, profile, config);
    var reboot := exists s | s in steps :: s.requiresReboot;
    return Success(Plan(steps, reboot));
  }

  // ----- the two phases -----

  predicate IsPhaseA(kind: StepKind) {
    kind == Snapshot || kind == BootloaderWrite || kind == VfioConfig || kind == InitramfsWrite
  }

  function PhaseASteps(steps: seq<PlannedStep>): seq<PlannedStep> {
    if steps == [] then []
    else (if IsPhaseA(steps[0].kind) then [steps[0]] else []) + PhaseASteps(steps[1..])
  }

  function PhaseBSteps(steps: seq<PlannedStep>): seq<PlannedStep> {
    if steps == [] then []
    else (if IsPhaseA(steps[0].kind) then [] else [steps[0]]) + PhaseBSteps(steps[1..])
  }

  /** These are the kinds of the steps of the chosen kinds, in plan order. */
  ghost predicate Selects(steps: seq<PlannedStep>, chosen: set<StepKind>, kinds: seq<StepKind>) {
    exists at :: SelectsAt(steps, chosen, kinds, at)
  }

  ghost predicate SelectsAt(steps: seq<PlannedStep>, chosen: set<StepKind>, kinds: seq<StepKind>, at: seq<nat>) {
    && |at| == |kinds|
    && (forall j, k | 0 <= j < k < |at| :: at[j] < at[k])
    && (forall k | 0 <= k < |at| :: at[k] < |steps| && steps[at[k]].kind == kinds[k])
    && forall i: nat | i < |steps| :: i in at <==> steps[i].kind in chosen
  }

  lemma SelectsNone(chosen: set<StepKind>)
    ensures Selects([], chosen, [])
  {
    assert SelectsAt([], chosen, [], []);
  }

  lemma SelectsMore(front: seq<PlannedStep>, last: PlannedStep, chosen: set<StepKind>, kinds: seq<StepKind>)
    requires Selects(front, chosen, kinds)
    ensures Selects(front + [last], chosen, kinds + if last.kind in chosen then [last.kind] else [])
  {
    hide SelectsAt;
    var at :| SelectsAt(front, chosen, kinds, at);
    SelectsAtMore(front, last, chosen, kinds, at);
  }

  lemma SelectsAtMore(
    front: seq<PlannedStep>, last: PlannedStep, chosen: set<StepKind>, kinds: seq<StepKind>, at: seq<nat>)
    requires SelectsAt(front, chosen, kinds, at)
    ensures SelectsAt(
      front + [last], chosen, kinds + if last.kind in chosen then [last.kind] else [],
      at + if last.kind in chosen then [|front|] else [])
  {
    var steps, more := front + [last], at + if last.kind in chosen then [|front|] else [];
    forall i: nat | i < |steps| ensures i in more <==> steps[i].kind in chosen {
      if i < |front| {
        assert steps[i] == front[i];
      }
    }
  }

  lemma {:induction false} PhaseBMember(steps: seq<PlannedStep>, step: PlannedStep)
    ensures step in PhaseBSteps(steps) <==> step in steps && !IsPhaseA(step.kind)
  {
    if steps != [] {
      PhaseBMember(steps[1..], step);
      assert steps == [steps[0]] + steps[1..];
    }
  }

  lemma PhaseUnfold(steps: seq<PlannedStep>)
    ensures PhaseASteps([]) == [] && PhaseBSteps([]) == []
    ensures steps != [] ==>
      && PhaseASteps(steps) == (if IsPhaseA(steps[0].kind) then [steps[0]] else []) + PhaseASteps(steps[1..])
      && PhaseBSteps(steps) == (if IsPhaseA(steps[0].kind) then [] else [steps[0]]) + PhaseBSteps(steps[1..])
  {
    hide IsPhaseA;
  }

  lemma PhaseStepsAppend(a: seq<PlannedStep>, b: seq<PlannedStep>)
    ensures PhaseASteps(a + b) == PhaseASteps(a) + PhaseASteps(b)
    ensures PhaseBSteps(a + b) == PhaseBSteps(a) + PhaseBSteps(b)
  {
    hide IsPhaseA, PhaseASteps, PhaseBSteps;
    PhaseUnfold(a);
    if a == [] {
      assert a + b == b;
    } else {
      PhaseUnfold(a + b);
      assert (a + b)[1..] == a[1..] + b && (a + b)[0] == a[0];
      PhaseStepsAppend(a[1..], b);
    }
  }

  lemma AllOfOnePhase(steps: seq<PlannedStep>)
    ensures (forall s | s in steps :: IsPhaseA(s.kind)) ==> PhaseASteps(steps) == steps && PhaseBSteps(steps) == []
    ensures (forall s | s in steps :: !IsPhaseA(s.kind)) ==> PhaseASteps(steps) == [] && PhaseBSteps(steps) == steps
  {
    if steps != [] {
      AllOfOnePhase(steps[1..]);
      assert steps == [steps[0]] + steps[1..];
    }
  }

  lemma PhaseAKinds(home: Path, profile: SystemProfile, config: PassthroughConfig)
    ensures forall s | s in PhaseAPart(home, profile, config) :: IsPhaseA(s.kind)
    ensures PhaseAPart(home, profile, config) != [] && PhaseAPart(home, profile, config)[0].kind == Snapshot
  {
    hide CanonicalIds, CmdlineSatisfied, CpuParam, PassthroughGpus, InitramfsTarget, RootsOf;
  }

  lemma PartKinds(home: Path, profile: SystemProfile, config: PassthroughConfig)
    ensures forall s | s in PhaseAPart(home, profile, config) :: IsPhaseA(s.kind)
    ensures forall s | s in PhaseBPart(home, profile, config) :: !IsPhaseA(s.kind)
    ensures PhaseAPart(home, profile, config) != [] && PhaseAPart(home, profile, config)[0].kind == Snapshot
  {
    hide PhaseAPart, WantsHooks, VmXmlPath, VirtuHome;
    PhaseAKinds(home, profile, config);
  }

  /**
   * Every plan is its Phase-A steps followed by its Phase-B steps; nothing is lost, repeated or reordered by the
   * split.
   */
  lemma PlanSplits(
    home: Path, profile: SystemProfile, config: PassthroughConfig, a: seq<PlannedStep>, b: seq<PlannedStep>)
    requires a == PhaseAPart(home, profile, config) && b == PhaseBPart(home, profile, config)
    ensures PhaseASteps(a + b) + PhaseBSteps(a + b) == a + b
    ensures PhaseASteps(a + b) == a && PhaseBSteps(a + b) == b && (a + b)[0].kind == Snapshot
  {
    hide PhaseAPart, PhaseBPart, PhaseASteps, PhaseBSteps, IsPhaseA;
    PartKinds(home, profile, config);
    PhaseStepsAppend(a, b);
    AllOfOnePhase(a);
    AllOfOnePhase(b);
    assert a + [] == a && [] + b == b;
  }

  /** `AlreadySatisfied` is claimed for the bootloader exactly when the verifier would miss nothing on the boot line. */
  lemma BootloaderStateIffVerified(profile: SystemProfile, config: PassthroughConfig)
    requires BootloaderStep(profile, config).Some?
    ensures BootloaderStep(profile, config).value.state == AlreadySatisfied <==>
      forall p | p in RequiredCmdlineParams(CpuParam(profile.cpuVendor), CanonicalIds(config.gpuRoles, profile.gpus)) ::
        CmdlineHasParam(profile.kernelCmdline, p)
  {
    PlannerAgreesWithVerifier(profile.kernelCmdline, profile.cpuVendor, CanonicalIds(config.gpuRoles, profile.gpus));
  }

  // ----- planned paths -----

  /** Paths the user or the host detection supplies are the only ones that could meet Virtu's own. */
  predicate SuppliedPathsAreHost(home: Path, profile: SystemProfile, config: PassthroughConfig) {
    var roots := RootsOf(home);
    && (profile.bootloader.configPath.Some? ==> !roots.Protected(profile.bootloader.configPath.value))
    && (config.disk.Create? ==> !roots.Protected(config.disk.path))
  }

  lemma UnderHome(home: Path, name: string, p: Path)
    ensures Under(VirtuHome(home) + [name], p) ==>
      |home| + 1 < |p| && p[|home|] == ".virtu" && p[|home| + 1] == name
  {
    var root := VirtuHome(home) + [name];
    assert root[|home|] == ".virtu" && root[|home| + 1] == name && |root| == |home| + 2;
  }

  lemma NotProtected(home: Path, p: Path)
    requires forall i | 0 <= i < |p| - 1 && p[i] == ".virtu" :: p[i + 1] != "snapshots" && p[i + 1] != "state"
    ensures !RootsOf(home).Protected(p)
  {
    UnderHome(home, "snapshots", p);
    UnderHome(home, "state", p);
  }

  /** No step of a plan but the snapshot step touches Virtu's own bookkeeping. */
  lemma PlannedTargetsAreHost(home: Path, profile: SystemProfile, config: PassthroughConfig)
    requires SuppliedPathsAreHost(home, profile, config)
    ensures var steps := PhaseAPart(home, profile, config) + PhaseBPart(home, profile, config);
      forall t | t in Targets(steps) :: !RootsOf(home).Protected(t)
  {
    var steps := PhaseAPart(home, profile, config) + PhaseBPart(home, profile, config);
    forall t | t in Targets(steps) ensures !RootsOf(home).Protected(t) {
      UniqueMembers(TouchesOf(steps));
      var i := TouchedBy(steps, t);
      assert steps[i] in steps;
      StepIsPlanned(home, profile, config, steps[i]);
      StepTouchesAreHost(home, profile, config, steps[i], t);
    }
  }

  lemma TouchedBy(steps: seq<PlannedStep>, t: Path) returns (i: nat)
    requires t in TouchesOf(steps)
    ensures i < |steps| && steps[i].kind != Snapshot && t in steps[i].touches
  {
    var n := |steps| - 1;
    if steps[n].kind != Snapshot && t in steps[n].touches {
      i := n;
    } else {
      i := TouchedBy(steps[..n], t);
    }
  }

  /** A plan's steps, one by one. */
  ghost predicate IsPlanned(home: Path, profile: SystemProfile, config: PassthroughConfig, step: PlannedStep) {
    || step == SnapshotStep(home)
    || BootloaderStep(profile, config) == Some(step)
    || VfioStep(profile, config) == Some(step)
    || InitramfsStep(profile) == Some(step)
    || step == SingleGpuHookStep(config)
    || step == LookingGlassStep()
    || step == VmXmlStep(home, config)
    || step == VmRegisterStep(config)
    || step == VerifyStep()
  }

  lemma StepIsPlanned(home: Path, profile: SystemProfile, config: PassthroughConfig, step: PlannedStep)
    requires step in PhaseAPart(home, profile, config) || step in PhaseBPart(home, profile, config)
    ensures IsPlanned(home, profile, config, step)
  {
  }

  lemma StepTouchesAreHost(home: Path, profile: SystemProfile, config: PassthroughConfig, step: PlannedStep, t: Path)
    requires SuppliedPathsAreHost(home, profile, config)
    requires IsPlanned(home, profile, config, step)
    requires step.kind != Snapshot && t in step.touches
    ensures !RootsOf(home).Protected(t)
  {
    XmlPathIsHost(home, config);
    HookPathsAreHost(home, config);
    NotProtected(home, MODPROBE);
    if InitramfsTarget(profile.initramfs).Some? {
      NotProtected(home, InitramfsTarget(profile.initramfs).value);
    }
  }

  lemma XmlPathIsHost(home: Path, config: PassthroughConfig)
    ensures !RootsOf(home).Protected(VmXmlPath(home, config))
  {
    var p := VmXmlPath(home, config);
    var last := config.vmName + ".xml";
    assert p[|home| + 1] == last && last[|last| - 1] == 'l';
    UnderHome(home, "snapshots", p);
    UnderHome(home, "state", p);
  }

  lemma HookPathsAreHost(home: Path, config: PassthroughConfig)
    ensures forall t | t in SingleGpuHookStep(config).touches :: !RootsOf(home).Protected(t)
  {
    var touches := SingleGpuHookStep(config).touches;
    var helper := config.vmName + ".d";
    assert helper[|helper| - 1] == 'd';
    NotProtected(home, touches[0]);
    NotProtected(home, touches[1]);
    NotProtected(home, touches[2]);
  }

  /**
   * Planned targets can share a backup name: a disk image to be created where `/etc_default_grub`
   * already is meets `/etc/default/grub`.
   */
  lemma PlannedTargetsCanClash(
    home: Path, profile: SystemProfile, config: PassthroughConfig, seen: map<Path, Contents>, grub: Path, image: Path)
    requires grub == ["etc", "default", "grub"] && image == ["etc_default_grub"]
    requires profile.bootloader.kind == Grub2 && profile.bootloader.configPath == Some(grub)
    requires config.disk.Create? && config.disk.path == image
    requires grub in seen && image in seen && seen[grub] != seen[image]
    ensures !NoClash(seen, Targets(PhaseAPart(home, profile, config) + PhaseBPart(home, profile, config)))
  {
    hide Targets, PhaseAPart, PhaseBPart, Sanitize;
    var a, b := PhaseAPart(home, profile, config), PhaseBPart(home, profile, config);
    var steps := a + b;
    GrubPathCollides(grub, image);
    PlannedAt(home, profile, config);
    assert b[|b| - 2] == steps[|steps| - 2];
    TouchIsTarget(steps, 1, grub);
    TouchIsTarget(steps, |steps| - 2, image);
  }

  lemma GrubPathCollides(grub: Path, image: Path)
    requires grub == ["etc", "default", "grub"] && image == ["etc_default_grub"]
    ensures Sanitize(grub) == Sanitize(image)
  {
    hide Sanitize;
    JoinedCollides("etc", "default", "grub");
    assert "etc" + "_" + "default" + "_" + "grub" == "etc_default_grub";
  }

  /** Where a plan has its bootloader step and its registration. */
  lemma PlannedAt(home: Path, profile: SystemProfile, config: PassthroughConfig)
    requires profile.bootloader.kind != UnknownBootloader && profile.bootloader.configPath.Some?
    ensures var a := PhaseAPart(home, profile, config);
      |a| > 1 && a[1].kind == BootloaderWrite && a[1].touches == [profile.bootloader.configPath.value]
    ensures var b := PhaseBPart(home, profile, config); |b| >= 3 && b[|b| - 2] == VmRegisterStep(config)
  {
    hide VfioStep, InitramfsStep, WantsHooks, VmXmlPath, CanonicalIds, CmdlineSatisfied, RootsOf, SingleGpuHookStep;
  }
}
