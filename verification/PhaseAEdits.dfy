/** The steps of Phase A: the bootloader, VFIO and initramfs edits. */
module PhaseAEdits {
  import opened Wrappers
  import opened Paths
  import opened Records
  import opened Manifest
  import opened Store
  import opened Layout
  import opened AtomicWrite
  import opened Session
  import opened HostWrites
  import opened Staging
  import opened LineView
  import opened LineRewriter
  import opened KernelParams
  import opened Sorting
  import GrubWriter = Grub
  import SystemdWriter = SystemdBoot
  import MkinitcpioWriter = Mkinitcpio
  import UpdateInitramfsWriter = UpdateInitramfs
  import Text

  const BANNER_FIRST := "# Managed by Virtu " + "(https://github.com/" + "H-Sami/Virtu)."
  const BANNER_SECOND := "# Edit through `virtu` " + "so the snapshot manifest " + "stays consistent."
  const FILE_BANNER := BANNER_FIRST + "\n" + (BANNER_SECOND + "\n")
  const SOFTDEPS: seq<string> := ["nvidia", "nvidia_drm", "nouveau", "amdgpu", "radeon", "i915"]

  // ----- generated files -----

  function SoftdepLines(drivers: seq<string>): string {
    if drivers == [] then "" else "softdep " + drivers[0] + " pre: vfio-pci\n" + SoftdepLines(drivers[1..])
  }

  function FirstInvalid(ids: seq<string>): (i: nat)
    ensures i <= |ids|
    ensures i < |ids| ==> !IsVendorDeviceId(ids[i])
    ensures forall j | 0 <= j < i :: IsVendorDeviceId(ids[j])
  {
    if ids == [] || !IsVendorDeviceId(ids[0]) then 0 else 1 + FirstInvalid(ids[1..])
  }

  function VfioModprobeConf(ids: seq<string>): (r: Result<string, WriterError>)
    ensures r.Success? <==> ids != [] && AllVendorDeviceIds(ids)
  {
    if ids == [] then Failure(EmptyParams)
    else if FirstInvalid(ids) < |ids| then Failure(MalformedInput(FirstInvalid(ids) + 1))
    else
      Success(FILE_BANNER + "\n" + "options vfio-pci ids=" + Text.Join(ids, ",") + "\n"
              + "options vfio-pci disable_vga=1\n\n" + SoftdepLines(SOFTDEPS))
  }

  function DracutConf(): string {
    FILE_BANNER + "\n" + "add_drivers+=\" " + Text.Join(VFIO_MODULES, " ") + " \"\n"
  }

  // ----- what each step writes -----

  function HostParams(host: SystemProfile, config: PassthroughConfig): seq<string> {
    RequiredCmdlineParams(CpuParam(host.cpuVendor), CanonicalIds(config.gpuRoles, host.gpus))
  }

  function BootloaderText(kind: BootloaderKind, text: string, params: seq<string>): Result<string, Error> {
    match kind
    case Grub2 => MapWriter(BootloaderWrite, Rewrite(Dialect.Grub(params), text))
    case SystemdBoot => MapWriter(BootloaderWrite, Rewrite(Dialect.SystemdBoot(params), text))
    case _ => Failure(PlanDefect(BootloaderWrite))
  }

  function MapWriter(step: StepKind, r: Result<string, WriterError>): Result<string, Error> {
    match r
    case Success(text) => Success(text)
    case Failure(e) => Failure(Writer(step, e))
  }

  function InitramfsText(system: InitramfsSystem, text: string): Result<string, Error> {
    match system
    case Mkinitcpio => MapWriter(InitramfsWrite, Rewrite(Dialect.Mkinitcpio, text))
    case Dracut => Success(DracutConf())
    case UpdateInitramfs => Success(UpdateInitramfsWriter.RewriteModules(text, VFIO_MODULES))
    case UnknownInitramfs => Failure(PlanDefect(InitramfsWrite))
  }

  function TextAt(files: map<Path, Contents>, p: Path): string {
    if p in files then files[p].Text() else ""
  }

  /** The text a Phase-A step leaves at its target when the files are as given. */
  function StepText(
    step: PlannedStep, host: SystemProfile, config: PassthroughConfig, files: map<Path, Contents>)
    : Result<string, Error>
  {
    if step.touches == [] then Failure(PlanDefect(step.kind))
    else
      match step.kind
      case BootloaderWrite =>
        BootloaderText(host.bootloader.kind, TextAt(files, step.touches[0]), HostParams(host, config))
      case VfioConfig => MapWriter(VfioConfig, VfioModprobeConf(CanonicalIds(config.gpuRoles, host.gpus)))
      case InitramfsWrite => InitramfsText(host.initramfs, TextAt(files, step.touches[0]))
      case _ => Failure(PlanDefect(step.kind))
  }

  ghost function FirstTouch(step: PlannedStep): set<Path> {
    if step.touches == [] then {} else {step.touches[0]}
  }

  /** The step's target holds the text the writer derives from what was there. */
  ghost predicate Wrote(step: PlannedStep, host: SystemProfile, config: PassthroughConfig, d: Disk, later: Disk) {
    && step.touches != []
    && StepText(step, host, config, d.files).Success?
    && step.touches[0] in later.files
    && later.files[step.touches[0]] == Raw(StepText(step, host, config, d.files).value)
  }

  /** The manifest has the digest of what the step left at its target; `exact` if that text is the derived one. */
  ghost predicate EditDone(
    step: PlannedStep, host: SystemProfile, config: PassthroughConfig, sha: Contents -> Digest, d: Disk, later: Disk,
    mLater: SnapshotManifest, exact: bool)
  {
    && step.touches != [] && step.touches[0] in later.files
    && RecordedOne(later, sha, mLater, Write(step.touches[0], later.files[step.touches[0]]))
    && (exact ==> Wrote(step, host, config, d, later))
  }

  /** The writer must be able to read its target first. */
  predicate NeedsFile(step: PlannedStep, host: SystemProfile) {
    step.kind == BootloaderWrite || (step.kind == InitramfsWrite && host.initramfs == InitramfsSystem.Mkinitcpio)
  }

  /** The writer accepts what it finds, and the file can be put in place. */
  ghost predicate Editable(step: PlannedStep, host: SystemProfile, config: PassthroughConfig, d: Disk) {
    && step.touches != [] && StepText(step, host, config, d.files).Success?
    && (NeedsFile(step, host) ==> step.touches[0] in d.files)
    && HasParent(d, step.touches[0])
  }

  ghost predicate CanEdit(
    step: PlannedStep, host: SystemProfile, config: PassthroughConfig, sha: Contents -> Digest, d: Disk,
    m: SnapshotManifest)
  {
    Editable(step, host, config, d) && WriteAllowed(d, sha, m, step.touches[0])
  }

  /** A missing initramfs modules file and one that cannot be read look the same to the writer. */
  ghost predicate ReadsExactly(host: SystemProfile, calm: bool) {
    calm || host.initramfs != UpdateInitramfs
  }

  /** The writer accepts what is there, and nothing but a changed content can stop it. */
  ghost predicate Workable(
    roots: Roots, id: string, step: PlannedStep, host: SystemProfile, config: PassthroughConfig, d: Disk)
  {
    Editable(step, host, config, d) && Writable(roots, id, d, step.touches[0])
  }

  /** ... as all operations from `n` on found it. */
  ghost predicate AlwaysWorkable(
    run: Run, step: PlannedStep, host: SystemProfile, config: PassthroughConfig, journal: seq<Event>, n: nat)
  {
    forall k | n <= k < |journal| :: Workable(run.roots, run.id, step, host, config, journal[k].before)
  }

  /** There is a state of the host in which the step can be made. */
  ghost predicate Doable(step: PlannedStep, host: SystemProfile, config: PassthroughConfig) {
    exists d :: Editable(step, host, config, d)
  }

  lemma WrittenIsDone(
    step: PlannedStep, host: SystemProfile, config: PassthroughConfig, sha: Contents -> Digest, d: Disk, later: Disk,
    m: SnapshotManifest, mLater: SnapshotManifest, content: Contents, exact: bool)
    requires step.touches != [] && Written(d, later, sha, m, mLater, step.touches[0], content)
    requires exact ==>
      && StepText(step, host, config, d.files).Success?
      && content == Raw(StepText(step, host, config, d.files).value)
    ensures EditDone(step, host, config, sha, d, later, mLater, exact)
  {
    WrittenIsRecorded(d, later, sha, m, mLater, Write(step.touches[0], content));
  }

  /** What the writer reads while others leave the file alone is what was there at the start. */
  lemma ReadIsCurrent(
    run: Run, step: PlannedStep, host: SystemProfile, config: PassthroughConfig, start: Disk, found: Disk,
    m: SnapshotManifest)
    requires StepEffect(run, start, found, m, m, {}) && run.quiet
    requires step.touches != [] && step.touches[0] in run.scope
    ensures Same(start, found, step.touches[0])
    ensures TextAt(found.files, step.touches[0]) == TextAt(start.files, step.touches[0])
    ensures StepText(step, host, config, found.files) == StepText(step, host, config, start.files)
    ensures HasParent(start, step.touches[0]) ==> HasParent(found, step.touches[0])
  {
    assert step.touches[0] in run.Known();
    assert Same(start, found, step.touches[0]);
  }

  /** The part of a step after its text has been settled. */
  method PutText(
    fs: FileSystem, sha: Contents -> Digest, step: PlannedStep, host: SystemProfile, config: PassthroughConfig,
    text: string, m: SnapshotManifest, ghost run: Run, ghost start: Disk, ghost n: nat, ghost exact: bool)
    returns (r: Outcome<Error>, mLater: SnapshotManifest)
    requires step.touches != [] && StepReady(run, start, step)
    requires run.Uses(fs, sha) && run.Open(fs.state, m) && run.Guarded(fs.journal) && run.covered
    requires StepEffect(run, start, fs.state, m, m, {}) && n <= |fs.journal|
    requires ManifestOf(fs.state, run.roots, run.id) == ManifestOf(start, run.roots, run.id)
    requires exact && run.quiet ==>
      StepText(step, host, config, start.files).Success? && StepText(step, host, config, start.files).value == text
    modifies fs
    ensures fs.Advances() && run.Uses(fs, sha) && run.Guarded(fs.journal)
    ensures StepEffect(run, start, fs.state, m, mLater, FirstTouch(step))
    ensures ManifestOf(fs.state, run.roots, run.id) == ManifestOf(start, run.roots, run.id)
    ensures r.Pass? && run.quiet ==> EditDone(step, host, config, sha, start, fs.state, mLater, exact)
    ensures r.Pass? ==> Logged(fs.journal, n, step.touches[0])
    ensures run.quiet && old(fs.Calm()) && CanEdit(step, host, config, sha, start, m) ==> r.Pass?
    ensures old(fs.Calm()) && r.Fail? && AlwaysWorkable(run, step, host, config, fs.journal, n) ==>
      r.error.HashMismatch?
  {
    hide FileSystem.OnRecord, StepEffect, Keeps, Rewrites, Extends, KeepsEntries, AddsNothing, Run.Open, Run.Guarded;
    hide Run.Uses;
    hide Written, RecordedOne, StepText, Run.MayWrite, StaysPut, WriteAllowed, Writable, HasParent;
    var target := step.touches[0];
    assert target in step.touches;
    ghost var before, journal := fs.state, fs.journal;
    EffectIsOpen(run, start, before, m, m, {});
    MayWriteAcross(run, start, before, m, m, {}, target);
    InScope(run, start, target);
    LeavesPermission(run, start, before, sha, m, target);
    if run.quiet {
      ReadIsCurrent(run, step, host, config, start, before, m);
    }
    r, mLater := WriteTarget(fs, sha, m, target, Raw(text), run);
    StepEffectTransitive(run, start, before, fs.state, m, m, mLater, {}, {target});
    assert {} + {target} == FirstTouch(step);
    if r.Pass? {
      LoggedSooner(fs.journal, n, |journal|, target);
      if run.quiet {
        WrittenSooner(run, start, before, fs.state, sha, m, mLater, target, Raw(text));
        WrittenIsDone(step, host, config, sha, start, fs.state, m, mLater, Raw(text), exact);
      }
    }
  }

  lemma LoggedSooner(journal: seq<Event>, n: nat, later: nat, target: Path)
    requires Logged(journal, later, target) && n <= later
    ensures Logged(journal, n, target)
  {
  }

  lemma WrittenSooner(
    run: Run, start: Disk, before: Disk, later: Disk, sha: Contents -> Digest, m: SnapshotManifest,
    mLater: SnapshotManifest, target: Path, content: Contents)
    requires Written(before, later, sha, m, mLater, target, content)
    requires WriteAllowed(start, sha, m, target) <==> WriteAllowed(before, sha, m, target)
    ensures Written(start, later, sha, m, mLater, target, content)
  {
  }

  // ----- the steps -----

  method RunBootloaderStep(
    fs: FileSystem, sha: Contents -> Digest, step: PlannedStep, host: SystemProfile, config: PassthroughConfig,
    m: SnapshotManifest, ghost run: Run)
    returns (r: Outcome<Error>, mLater: SnapshotManifest)
    requires step.kind == BootloaderWrite && StepReady(run, fs.state, step)
    requires run.Uses(fs, sha) && run.Open(fs.state, m) && run.Guarded(fs.journal) && run.covered
    modifies fs
    ensures fs.Advances() && run.Uses(fs, sha) && run.Guarded(fs.journal)
    ensures StepEffect(run, old(fs.state), fs.state, m, mLater, FirstTouch(step))
    ensures ManifestOf(fs.state, run.roots, run.id) == ManifestOf(old(fs.state), run.roots, run.id)
    ensures r.Pass? && run.quiet ==> EditDone(step, host, config, sha, old(fs.state), fs.state, mLater, true)
    ensures r.Pass? ==> step.touches != [] && Logged(fs.journal, |old(fs.journal)|, step.touches[0])
    ensures run.quiet && old(fs.Calm()) && CanEdit(step, host, config, sha, old(fs.state), m) ==> r.Pass?
    ensures old(fs.Calm()) && r.Fail? && Doable(step, host, config)
            && AlwaysWorkable(run, step, host, config, fs.journal, |old(fs.journal)|)
            ==> r.error.HashMismatch?
  {
    hide FileSystem.OnRecord, StepEffect, Keeps, Rewrites, Extends, KeepsEntries, AddsNothing, Run.Open, Run.Guarded;
    hide FileSystem.Quiet;
    hide Written, RecordedOne, Rewrite, PciIds, StaysPut, Writable, EditDone, Run.MayWrite, HasParent, WriteAllowed;
    StepEffectNone(run, fs.state, m, FirstTouch(step));
    if step.touches == [] {
      return Fail(PlanDefect(BootloaderWrite)), m;
    }
    ghost var start, n := fs.state, |fs.journal|;
    var target := step.touches[0];
    assert target in step.touches;
    InScope(run, start, target);
    var params := RequiredKernelParams(host, config);
    var current := ReadFile(fs, target, run, m);
    assert fs.journal[n].before == fs.state;
    StepEffectWiden(run, start, fs.state, m, m, {}, FirstTouch(step));
    EffectIsOpen(run, start, fs.state, m, m, {});
    if run.quiet {
      ReadIsCurrent(run, step, host, config, start, fs.state, m);
    }
    if current.Failure? {
      return Fail(current.error), m;
    }
    var text := current.value.Text();
    var rewritten: Result<string, WriterError>;
    match host.bootloader.kind {
      case Grub2 =>
        rewritten := GrubWriter.RewriteGrubDefault(text, params);
      case SystemdBoot =>
        rewritten := SystemdWriter.RewriteSystemdBootEntry(text, params);
      case _ =>
        return Fail(PlanDefect(BootloaderWrite)), m;
    }
    if rewritten.Failure? {
      return Fail(Writer(BootloaderWrite, rewritten.error)), m;
    }
    r, mLater := PutText(fs, sha, step, host, config, rewritten.value, m, run, start, n, true);
  }

  method RunVfioStep(
    fs: FileSystem, sha: Contents -> Digest, step: PlannedStep, host: SystemProfile, config: PassthroughConfig,
    m: SnapshotManifest, ghost run: Run)
    returns (r: Outcome<Error>, mLater: SnapshotManifest)
    requires step.kind == VfioConfig && StepReady(run, fs.state, step)
    requires run.Uses(fs, sha) && run.Open(fs.state, m) && run.Guarded(fs.journal) && run.covered
    modifies fs
    ensures fs.Advances() && run.Uses(fs, sha) && run.Guarded(fs.journal)
    ensures StepEffect(run, old(fs.state), fs.state, m, mLater, FirstTouch(step))
    ensures ManifestOf(fs.state, run.roots, run.id) == ManifestOf(old(fs.state), run.roots, run.id)
    ensures r.Pass? && run.quiet ==> EditDone(step, host, config, sha, old(fs.state), fs.state, mLater, true)
    ensures r.Pass? ==> step.touches != [] && Logged(fs.journal, |old(fs.journal)|, step.touches[0])
    ensures run.quiet && old(fs.Calm()) && CanEdit(step, host, config, sha, old(fs.state), m) ==> r.Pass?
    ensures old(fs.Calm()) && r.Fail? && Doable(step, host, config)
            && AlwaysWorkable(run, step, host, config, fs.journal, |old(fs.journal)|)
            ==> r.error.HashMismatch?
  {
    hide FileSystem.OnRecord, StepEffect, Keeps, Rewrites, Extends, KeepsEntries, AddsNothing, Run.Open, Run.Guarded;
    hide FileSystem.Quiet;
    hide Written, RecordedOne, Sort, Dedup, PciIds, VfioModprobeConf, StaysPut, Writable, EditDone, Run.MayWrite;
    hide HasParent, WriteAllowed, AlwaysWorkable;
    StepEffectNone(run, fs.state, m, FirstTouch(step));
    StepEffectNone(run, fs.state, m, {});
    if step.touches == [] {
      return Fail(PlanDefect(VfioConfig)), m;
    }
    var target := step.touches[0];
    assert target in step.touches;
    var pciIds := ExecutorPciIds(host, config);
    pciIds := Dedup(Sort(StringLeq, pciIds));
    var content := VfioModprobeConf(pciIds);
    if content.Failure? {
      return Fail(Writer(VfioConfig, content.error)), m;
    }
    var declared := DeclareTarget(m, target, VfioConfig, run, fs.state);
    OpenCoversCovered(run, fs.state, m, target);
    r, mLater := PutText(
      fs, sha, step, host, config, content.value, declared, run, fs.state, |fs.journal|, true);
  }

  /** The text the initramfs step is going to put in place. */
  method InitramfsContent(
    fs: FileSystem, step: PlannedStep, host: SystemProfile, config: PassthroughConfig, ghost m: SnapshotManifest,
    ghost run: Run)
    returns (r: Result<string, Error>)
    requires step.kind == InitramfsWrite && step.touches != [] && step.touches[0] in run.scope
    requires run.Uses(fs, run.sha) && run.Open(fs.state, m) && run.Guarded(fs.journal)
    modifies fs
    ensures fs.Advances() && run.Uses(fs, run.sha) && run.Guarded(fs.journal)
    ensures StepEffect(run, old(fs.state), fs.state, m, m, {})
    ensures ManifestOf(fs.state, run.roots, run.id) == ManifestOf(old(fs.state), run.roots, run.id)
    ensures r.Success? && run.quiet && ReadsExactly(host, old(fs.Calm())) ==>
      StepText(step, host, config, old(fs.state).files) == r
    ensures run.quiet && old(fs.Calm()) && Editable(step, host, config, old(fs.state)) ==> r.Success?
    ensures old(fs.Calm()) && Doable(step, host, config)
            && AlwaysWorkable(run, step, host, config, fs.journal, |old(fs.journal)|)
            ==> r.Success?
  {
    hide FileSystem.OnRecord, StepEffect, Keeps, Rewrites, Extends, KeepsEntries, AddsNothing, Run.Open, Run.Guarded;
    hide FileSystem.Quiet;
    hide Rewrite, DracutConf, StaysPut, Writable, Run.MayWrite, HasParent;
    StepEffectNone(run, fs.state, m, {});
    ghost var start, n := fs.state, |fs.journal|;
    var target := step.touches[0];
    match host.initramfs {
      case Mkinitcpio =>
        var current := ReadFile(fs, target, run, m);
        assert fs.journal[n].before == fs.state;
        if run.quiet {
          ReadIsCurrent(run, step, host, config, start, fs.state, m);
        }
        if current.Failure? {
          return Failure(current.error);
        }
        var rewritten := MkinitcpioWriter.RewriteMkinitcpioConf(current.value.Text());
        if rewritten.Failure? {
          return Failure(Writer(InitramfsWrite, rewritten.error));
        }
        return Success(rewritten.value);
      case Dracut =>
        return Success(DracutConf());
      case UpdateInitramfs =>
        var current := ReadFile(fs, target, run, m);
        if run.quiet {
          ReadIsCurrent(run, step, host, config, start, fs.state, m);
        }
        var text := if current.Success? then current.value.Text() else "";
        var content := UpdateInitramfsWriter.RewriteInitramfsModules(text, VFIO_MODULES);
        return Success(content);
      case UnknownInitramfs =>
        return Failure(PlanDefect(InitramfsWrite));
    }
  }

  method RunInitramfsStep(
    fs: FileSystem, sha: Contents -> Digest, step: PlannedStep, host: SystemProfile, config: PassthroughConfig,
    m: SnapshotManifest, ghost run: Run)
    returns (r: Outcome<Error>, mLater: SnapshotManifest)
    requires step.kind == InitramfsWrite && StepReady(run, fs.state, step)
    requires run.Uses(fs, sha) && run.Open(fs.state, m) && run.Guarded(fs.journal) && run.covered
    modifies fs
    ensures fs.Advances() && run.Uses(fs, sha) && run.Guarded(fs.journal)
    ensures StepEffect(run, old(fs.state), fs.state, m, mLater, FirstTouch(step))
    ensures ManifestOf(fs.state, run.roots, run.id) == ManifestOf(old(fs.state), run.roots, run.id)
    ensures r.Pass? && run.quiet ==>
      EditDone(step, host, config, sha, old(fs.state), fs.state, mLater, ReadsExactly(host, old(fs.Calm())))
    ensures r.Pass? ==> step.touches != [] && Logged(fs.journal, |old(fs.journal)|, step.touches[0])
    ensures run.quiet && old(fs.Calm()) && CanEdit(step, host, config, sha, old(fs.state), m) ==> r.Pass?
    ensures old(fs.Calm()) && r.Fail? && Doable(step, host, config)
            && AlwaysWorkable(run, step, host, config, fs.journal, |old(fs.journal)|)
            ==> r.error.HashMismatch?
  {
    hide FileSystem.OnRecord, StepEffect, Keeps, Rewrites, Extends, KeepsEntries, AddsNothing, Run.Open, Run.Guarded;
    hide FileSystem.Quiet;
    hide Written, RecordedOne, StepText, StaysPut, Workable, EditDone, Run.MayWrite, HasParent, WriteAllowed;
    hide ReadsExactly;
    StepEffectNone(run, fs.state, m, FirstTouch(step));
    if step.touches == [] {
      return Fail(PlanDefect(InitramfsWrite)), m;
    }
    ghost var start, n := fs.state, |fs.journal|;
    var target := step.touches[0];
    assert target in step.touches;
    InScope(run, start, target);
    OpenCoversCovered(run, start, m, target);
    var content := InitramfsContent(fs, step, host, config, m, run);
    ghost var read := fs.journal;
    StepEffectWiden(run, start, fs.state, m, m, {}, FirstTouch(step));
    EffectIsOpen(run, start, fs.state, m, m, {});
    if content.Failure? {
      return Fail(content.error), m;
    }
    var declared := m;
    if host.initramfs == Dracut {
      MayWriteAcross(run, start, fs.state, m, m, {}, target);
      declared := DeclareTarget(m, target, InitramfsWrite, run, fs.state);
    }
    r, mLater := PutText(
      fs, sha, step, host, config, content.value, declared, run, start, n, ReadsExactly(host, old(fs.Calm())));
  }

  lemma OpenCoversCovered(run: Run, d: Disk, m: SnapshotManifest, target: Path)
    requires run.Open(d, m) && run.MayWrite(d, target) && run.covered
    ensures Covers(m, target)
  {
    OpenCovers(run, d, m, target);
  }
}
