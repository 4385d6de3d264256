/** The values Virtu detects, plans with and persists. */
module Records {
  import opened Wrappers
  import opened Paths

  // ----- plan steps -----

  datatype StepKind =
    | Snapshot
    | BootloaderWrite
    | VfioConfig
    | InitramfsWrite
    | HookInstall
    | VmXmlGenerate
    | VmRegister
    | LookingGlassInstall
    | Verify

  datatype StepState = Pending | AlreadySatisfied

  datatype PlannedStep = PlannedStep(kind: StepKind, state: StepState, touches: seq<Path>, requiresReboot: bool)

  // ----- the detected host -----

  datatype BootloaderKind = Grub2 | SystemdBoot | Refind | Syslinux | Efistub | UnknownBootloader

  datatype BootloaderInfo = BootloaderInfo(
    kind: BootloaderKind, configPath: Option<Path>, updateCommand: Option<string>)

  datatype InitramfsSystem = Mkinitcpio | Dracut | UpdateInitramfs | UnknownInitramfs

  datatype DisplayManager = Gdm | Sddm | LightDm | Greetd | Ly | Lxdm | NoDisplayManager | UnknownDisplayManager

  datatype GpuType = Discrete | Integrated | UnknownType

  datatype CompanionDevice = CompanionDevice(vendorId: string, deviceId: string)

  datatype GpuInfo = GpuInfo(
    pciSlot: string,
    vendor: string,
    gpuType: GpuType,
    vendorId: string,
    deviceId: string,
    currentDriver: Option<string>,
    iommuIsolated: bool,
    companionAudio: Option<CompanionDevice>,
    isBootVga: bool)

  datatype SystemProfile = SystemProfile(
    distroId: string,
    bootloader: BootloaderInfo,
    initramfs: InitramfsSystem,
    cpuVendor: string,
    kernelCmdline: string,
    loadedModules: seq<string>,
    displayManager: DisplayManager,
    iommuActive: bool,
    gpus: seq<GpuInfo>)

  // ----- the user's choices -----

  datatype GpuPassthroughMode = DualGpu | IgpuHost | SingleGpu | MultiGpu

  datatype GpuRole = Host | Passthrough | Ignored

  datatype GpuRoleAssignment = GpuRoleAssignment(pciSlot: string, role: GpuRole)

  datatype SingleMonitorStrategy = LookingGlassOnly | SwitchInputs | HookHandoff

  datatype MonitorPlan =
    | OneMonitor(strategy: SingleMonitorStrategy)
    | TwoMonitors(hostConnector: string, vmConnector: string)

  datatype DiskFormat = Qcow2 | RawFormat

  datatype DiskChoice = Existing(path: Path) | Create(path: Path, sizeGb: nat, format: DiskFormat)

  datatype PassthroughConfig = PassthroughConfig(
    vmName: string,
    gpuMode: GpuPassthroughMode,
    gpuRoles: seq<GpuRoleAssignment>,
    monitorPlan: MonitorPlan,
    lookingGlassEnabled: bool,
    disk: DiskChoice)

  // ----- the snapshot manifest -----

  /** A hex-encoded SHA-256; the hash itself is a parameter of every operation that needs one. */
  type Digest = string

  datatype RestoreAction =
    | RegenerateBootloader(command: string)
    | RebuildInitramfs(command: string)
    | ReloadKernelModules(kernelModule: string)
    | UndefineLibvirtDomain(name: string)
    | RemoveHookScripts(vmName: string)
    | RecommendReboot

  datatype SnapshotEntry = SnapshotEntry(
    originalPath: Path,
    backupPath: Path,
    preEdit: Digest,
    postEdit: Option<Digest>,
    originalExisted: bool,
    producedBy: StepKind)

  datatype SnapshotManifest = SnapshotManifest(
    id: string, entries: seq<SnapshotEntry>, restoreActions: seq<RestoreAction>)

  // ----- the pending record -----

  datatype HostFingerprint = HostFingerprint(
    distroId: string,
    bootloader: BootloaderKind,
    initramfs: InitramfsSystem,
    passthroughPciIds: seq<string>,
    kernelCmdlinePreApply: string)

  datatype PendingPlan = PendingPlan(
    snapshotId: string,
    fingerprint: HostFingerprint,
    remainingSteps: seq<PlannedStep>,
    config: PassthroughConfig)

  // ----- file contents -----

  datatype HookContext = HookContext(
    vmName: string, displayManager: DisplayManager, gpuVendor: string, vfioPciIds: seq<string>)

  datatype ScriptKind = Dispatcher | Release | Reattach

  /**
   * What a file holds. Serialized records are kept as the record they parse to, and generated
   * scripts and images as the values that determine them.
   */
  datatype Contents =
    | Raw(text: string)
    | Script(script: ScriptKind, ctx: HookContext)
    | DiskImage(sizeGb: nat, format: DiskFormat)
    | ManifestFile(manifest: SnapshotManifest)
    | PendingFile(pending: PendingPlan)
  {
    /** Only host configuration files are read as text, and those are `Raw`. */
    function Text(): string {
      if Raw? then text else ""
    }
  }

  // ----- errors -----

  datatype WriterError = MalformedInput(line: nat) | EmptyParams

  datatype IoKind = NotFound | Injected | InvalidData

  datatype Error =
    | Io(path: Path, kind: IoKind)
    | NotASnapshotPlan
    | MissingManifest(id: string)
    | ManifestParse(id: string)
    | HashMismatch(path: Path, expected: Digest, actual: Digest)
    | NoManifestEntry(path: Path)
    | Writer(step: StepKind, writer: WriterError)
    | PlanDefect(step: StepKind)
    | CommandFailed(step: StepKind)
    | Refused(step: StepKind)
    | StepFailed(step: StepKind)
    | XmlGenerate
    | VirshDefine(disk: Option<Path>)
    | HookGenerate
}
