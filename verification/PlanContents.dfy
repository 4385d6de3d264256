/** What a plan holds, in terms of the host and the choices alone. */
module PlanContents {
  import opened Wrappers
  import opened Paths
  import opened Records
  import opened GpuRoles
  import opened RoleChecks
  import opened KernelParams
  import opened Planner
  import opened Readiness

  /** The place of a kind of step in every plan. */
  function Order(kind: StepKind): nat {
    match kind
    case Snapshot => 0
    case BootloaderWrite => 1
    case VfioConfig => 2
    case InitramfsWrite => 3
    case HookInstall => 4
    case LookingGlassInstall => 5
    case VmXmlGenerate => 6
    case VmRegister => 7
    case Verify => 8
  }

  /** Which steps the host and the choices call for. */
  ghost predicate CalledFor(kind: StepKind, host: SystemProfile, config: PassthroughConfig) {
    match kind
    case BootloaderWrite => host.bootloader.kind != UnknownBootloader && host.bootloader.configPath.Some?
    case VfioConfig => exists id :: PassesThrough(config.gpuRoles, host.gpus, id)
    case InitramfsWrite => host.initramfs != UnknownInitramfs
    case HookInstall =>
      Implies(config.gpuRoles, host.gpus, SingleGpu) || config.monitorPlan == OneMonitor(HookHandoff)
    case LookingGlassInstall => config.lookingGlassEnabled
    case _ => true
  }

  /** A GPU that a passthrough role names is bound to vfio-pci already. */
  ghost predicate SomeBound(host: SystemProfile, config: PassthroughConfig) {
    exists i, k ::
      && 0 <= i < |config.gpuRoles| && config.gpuRoles[i].role == Passthrough
      && FoundAt(host.gpus, config.gpuRoles[i].pciSlot, k) && host.gpus[k].currentDriver == Some("vfio-pci")
  }

  /** Nothing the verifier will look for is missing on the boot line now. */
  ghost predicate BootsAlready(host: SystemProfile, config: PassthroughConfig) {
    forall ids, param | IdsToPass(host, config, ids) :: !Lacks(host, ids, param)
  }

  /** The files each step changes, whether a reboot must follow, and whether its work is done already. */
  ghost predicate AsPlanned(s: PlannedStep, home: Path, host: SystemProfile, config: PassthroughConfig) {
    var hooks: Path := ["etc", "libvirt", "hooks", "qemu.d"];
    && s.requiresReboot == (s.kind in {BootloaderWrite, VfioConfig, InitramfsWrite})
    && s.touches == (
         match s.kind
         case Snapshot => [home + [".virtu", "snapshots"]]
         case BootloaderWrite => if host.bootloader.configPath.Some? then [host.bootloader.configPath.value] else []
         case VfioConfig => [["etc", "modprobe.d", "virtu-vfio.conf"]]
         case InitramfsWrite =>
           (match host.initramfs
            case Mkinitcpio => [["etc", "mkinitcpio.conf"]]
            case Dracut => [["etc", "dracut.conf.d", "virtu-vfio.conf"]]
            case UpdateInitramfs => [["etc", "initramfs-tools", "modules"]]
            case UnknownInitramfs => [])
         case HookInstall =>
           [hooks + [config.vmName], hooks + [config.vmName + ".d", "release"],
            hooks + [config.vmName + ".d", "reattach"]]
         case VmXmlGenerate => [home + [".virtu", config.vmName + ".xml"]]
         case VmRegister => if config.disk.Create? then [config.disk.path] else []
         case _ => [])
    && (s.state == AlreadySatisfied <==>
          match s.kind
          case BootloaderWrite => BootsAlready(host, config)
          case VfioConfig => "vfio_pci" in host.loadedModules && SomeBound(host, config)
          case InitramfsWrite => "vfio_pci" in host.loadedModules
          case _ => false)
  }

  /** At most one step, of the given kind, there exactly if called for, and as planned. */
  ghost predicate Part(
    part: seq<PlannedStep>, kind: StepKind, home: Path, host: SystemProfile, config: PassthroughConfig)
  {
    && |part| == (if CalledFor(kind, host, config) then 1 else 0)
    && forall s | s in part :: s.kind == kind && AsPlanned(s, home, host, config)
  }

  lemma SnapshotPart(home: Path, host: SystemProfile, config: PassthroughConfig)
    ensures Part([SnapshotStep(home)], Snapshot, home, host, config)
  {
    assert RootsOf(home).snapshots == home + [".virtu", "snapshots"];
  }

  lemma BootloaderPart(home: Path, host: SystemProfile, config: PassthroughConfig)
    ensures Part(Listed(BootloaderStep(host, config)), BootloaderWrite, home, host, config)
  {
    hide CanonicalIds, CmdlineSatisfied, CpuParam, BootsAlready;
    BootsAlreadyIs(host, config);
  }

  lemma BootsAlreadyIs(host: SystemProfile, config: PassthroughConfig)
    ensures CmdlineSatisfied(host.kernelCmdline, CpuParam(host.cpuVendor), CanonicalIds(config.gpuRoles, host.gpus))
      <==> BootsAlready(host, config)
  {
    hide CanonicalIds, CmdlineSatisfied, CpuParam, Lacks, PassesThrough, CmdlineHasParam;
    var ids := CanonicalIds(config.gpuRoles, host.gpus);
    PassthroughIdsAre(config.gpuRoles, host.gpus);
    assert IdsToPass(host, config, ids);
    forall other | IdsToPass(host, config, other) ensures other == ids {
      SameIdList(other, ids);
    }
    PlannerAgreesWithVerifier(host.kernelCmdline, host.cpuVendor, ids);
    forall param
      ensures Lacks(host, ids, param) <==>
        param in RequiredCmdlineParams(CpuParam(host.cpuVendor), ids) && !CmdlineHasParam(host.kernelCmdline, param)
    {
      LacksRequired(host, ids, param);
    }
  }

  lemma VfioPart(home: Path, host: SystemProfile, config: PassthroughConfig)
    ensures Part(Listed(VfioStep(host, config)), VfioConfig, home, host, config)
  {
    hide CanonicalIds, PassesThrough, PassthroughGpus, SomeBound;
    var ids := CanonicalIds(config.gpuRoles, host.gpus);
    PassthroughIdsAre(config.gpuRoles, host.gpus);
    assert ids != [] ==> ids[0] in ids;
    BoundIs(host, config);
  }

  lemma BoundIs(host: SystemProfile, config: PassthroughConfig)
    ensures (exists g :: g in PassthroughGpus(config.gpuRoles, host.gpus) && g.currentDriver == Some("vfio-pci"))
      <==> SomeBound(host, config)
  {
    hide PassthroughGpus, FindGpu;
    forall g
      ensures g in PassthroughGpus(config.gpuRoles, host.gpus) <==>
        exists i, k ::
          && 0 <= i < |config.gpuRoles| && config.gpuRoles[i].role == Passthrough
          && FoundAt(host.gpus, config.gpuRoles[i].pciSlot, k) && host.gpus[k] == g
    {
      PassthroughGpuIff(config.gpuRoles, host.gpus, g);
    }
  }

  lemma InitramfsPart(home: Path, host: SystemProfile, config: PassthroughConfig)
    ensures Part(Listed(InitramfsStep(host)), InitramfsWrite, home, host, config)
  {
  }

  lemma HookPart(home: Path, host: SystemProfile, config: PassthroughConfig)
    ensures Part(
      if WantsHooks(host, config) then [SingleGpuHookStep(config)] else [], HookInstall, home, host, config)
  {
    hide DerivedMode, Implies;
    DerivedModeIff(config.gpuRoles, host.gpus, SingleGpu);
    var hooks: Path := ["etc", "libvirt", "hooks", "qemu.d"];
    var touches := SingleGpuHookStep(config).touches;
    assert touches[1] == hooks + [config.vmName + ".d", "release"];
    assert touches[2] == hooks + [config.vmName + ".d", "reattach"];
  }

  lemma LastParts(home: Path, host: SystemProfile, config: PassthroughConfig)
    ensures Part(
      if config.lookingGlassEnabled then [LookingGlassStep()] else [], LookingGlassInstall, home, host, config)
    ensures Part([VmXmlStep(home, config)], VmXmlGenerate, home, host, config)
    ensures Part([VmRegisterStep(config)], VmRegister, home, host, config)
    ensures Part([VerifyStep()], Verify, home, host, config)
  {
    assert VmXmlPath(home, config) == home + [".virtu", config.vmName + ".xml"];
  }

  /** A stretch of a plan: its steps are of kinds placed in `[lo, hi)`, and all called for are there. */
  ghost predicate Stretch(
    steps: seq<PlannedStep>, lo: nat, hi: nat, home: Path, host: SystemProfile, config: PassthroughConfig)
  {
    && (forall s | s in steps :: lo <= Order(s.kind) < hi && AsPlanned(s, home, host, config))
    && (forall i, j | 0 <= i < j < |steps| :: Order(steps[i].kind) < Order(steps[j].kind))
    && (forall kind | lo <= Order(kind) < hi :: CalledFor(kind, host, config) <==> HasKind(steps, kind))
  }

  ghost predicate HasKind(steps: seq<PlannedStep>, kind: StepKind) {
    exists s :: s in steps && s.kind == kind
  }

  lemma PartIsStretch(
    part: seq<PlannedStep>, kind: StepKind, home: Path, host: SystemProfile, config: PassthroughConfig)
    requires Part(part, kind, home, host, config)
    ensures Stretch(part, Order(kind), Order(kind) + 1, home, host, config)
  {
    hide AsPlanned, CalledFor;
    if part != [] {
      assert part[0] in part;
    }
    assert forall other | Order(other) == Order(kind) :: other == kind;
  }

  lemma Stretches(
    a: seq<PlannedStep>, b: seq<PlannedStep>, lo: nat, mid: nat, hi: nat, home: Path, host: SystemProfile,
    config: PassthroughConfig)
    requires lo <= mid <= hi && Stretch(a, lo, mid, home, host, config) && Stretch(b, mid, hi, home, host, config)
    ensures Stretch(a + b, lo, hi, home, host, config)
  {
    hide AsPlanned, CalledFor, Order;
    var ab := a + b;
    forall i, j | 0 <= i < j < |ab| ensures Order(ab[i].kind) < Order(ab[j].kind) {
      if i < |a| <= j {
        assert ab[i] in a && ab[j] in b;
      }
    }
    forall kind | lo <= Order(kind) < hi ensures CalledFor(kind, host, config) <==> HasKind(ab, kind) {
      HasKindIn(a, b, kind);
      if Order(kind) < mid {
        assert !HasKind(b, kind);
      } else {
        assert !HasKind(a, kind);
      }
    }
  }

  lemma HasKindIn(a: seq<PlannedStep>, b: seq<PlannedStep>, kind: StepKind)
    ensures HasKind(a + b, kind) <==> HasKind(a, kind) || HasKind(b, kind)
  {
    if HasKind(a, kind) {
      var s :| s in a && s.kind == kind;
      assert s in a + b;
    }
    if HasKind(b, kind) {
      var s :| s in b && s.kind == kind;
      assert s in a + b;
    }
  }

  /**
   * Every plan: its steps in their order, each kind once at most and exactly if called for, and each
   * step with the files, the state and the reboot that belong to it.
   */
  lemma PlanIs(home: Path, host: SystemProfile, config: PassthroughConfig)
    ensures var steps := PhaseAPart(home, host, config) + PhaseBPart(home, host, config);
      && (forall i, j | 0 <= i < j < |steps| :: Order(steps[i].kind) < Order(steps[j].kind))
      && (forall kind :: HasKind(steps, kind) <==> CalledFor(kind, host, config))
      && (forall s | s in steps :: AsPlanned(s, home, host, config))
  {
    hide Stretch, Part, SnapshotStep, BootloaderStep, VfioStep, InitramfsStep, SingleGpuHookStep, LookingGlassStep;
    hide VmXmlStep, VmRegisterStep, VerifyStep, WantsHooks, Listed;
    PhaseAIs(home, host, config);
    PhaseBIs(home, host, config);
    var a, b := PhaseAPart(home, host, config), PhaseBPart(home, host, config);
    Stretches(a, b, 0, 4, 9, home, host, config);
    StretchIs(a + b, home, host, config);
  }

  lemma StretchIs(steps: seq<PlannedStep>, home: Path, host: SystemProfile, config: PassthroughConfig)
    requires Stretch(steps, 0, 9, home, host, config)
    ensures forall i, j | 0 <= i < j < |steps| :: Order(steps[i].kind) < Order(steps[j].kind)
    ensures forall kind :: HasKind(steps, kind) <==> CalledFor(kind, host, config)
    ensures forall s | s in steps :: AsPlanned(s, home, host, config)
  {
    hide AsPlanned, CalledFor, HasKind;
    assert forall kind :: 0 <= Order(kind) < 9;
  }

  lemma PhaseAIs(home: Path, host: SystemProfile, config: PassthroughConfig)
    ensures Stretch(PhaseAPart(home, host, config), 0, 4, home, host, config)
  {
    hide Stretch, Part, SnapshotStep, BootloaderStep, VfioStep, InitramfsStep, Listed;
    var snapshot, boot := [SnapshotStep(home)], Listed(BootloaderStep(host, config));
    var vfio, initramfs := Listed(VfioStep(host, config)), Listed(InitramfsStep(host));
    SnapshotPart(home, host, config);
    PartIsStretch(snapshot, Snapshot, home, host, config);
    BootloaderPart(home, host, config);
    PartIsStretch(boot, BootloaderWrite, home, host, config);
    VfioPart(home, host, config);
    PartIsStretch(vfio, VfioConfig, home, host, config);
    InitramfsPart(home, host, config);
    PartIsStretch(initramfs, InitramfsWrite, home, host, config);
    Stretches(snapshot, boot, 0, 1, 2, home, host, config);
    Stretches(snapshot + boot, vfio, 0, 2, 3, home, host, config);
    Stretches(snapshot + boot + vfio, initramfs, 0, 3, 4, home, host, config);
  }

  lemma PhaseBIs(home: Path, host: SystemProfile, config: PassthroughConfig)
    ensures Stretch(PhaseBPart(home, host, config), 4, 9, home, host, config)
  {
    hide Stretch, Part, SingleGpuHookStep, LookingGlassStep, VmXmlStep, VmRegisterStep, VerifyStep, WantsHooks;
    var hooks := if WantsHooks(host, config) then [SingleGpuHookStep(config)] else [];
    var glass := if config.lookingGlassEnabled then [LookingGlassStep()] else [];
    var xml, register, verify := [VmXmlStep(home, config)], [VmRegisterStep(config)], [VerifyStep()];
    HookPart(home, host, config);
    LastParts(home, host, config);
    PartIsStretch(hooks, HookInstall, home, host, config);
    PartIsStretch(glass, LookingGlassInstall, home, host, config);
    PartIsStretch(xml, VmXmlGenerate, home, host, config);
    PartIsStretch(register, VmRegister, home, host, config);
    PartIsStretch(verify, Verify, home, host, config);
    Stretches(hooks, glass, 4, 5, 6, home, host, config);
    Stretches(hooks + glass, xml, 4, 6, 7, home, host, config);
    Stretches(hooks + glass + xml, register, 4, 7, 8, home, host, config);
    Stretches(hooks + glass + xml + register, verify, 4, 8, 9, home, host, config);
    assert PhaseBPart(home, host, config) == hooks + glass + xml + register + verify;
  }
}
