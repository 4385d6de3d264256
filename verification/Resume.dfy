/** Checks after the reboot: did Phase A's edits take effect, and are the hook scripts as installed? */
module Resume {
  import opened Wrappers
  import opened Paths
  import opened Records
  import opened Manifest
  import opened Store
  import opened Layout
  import opened Capture
  import opened HostWrites
  import opened Staging
  import opened Planner
  import opened PhaseAEdits
  import opened PhaseA
  import opened PhaseBInstall
  import opened PhaseB
  import opened KernelParams
  import opened LineView
  import opened Requoting
  import opened LineRewriter
  import opened Booting
  import Text

  datatype Divergence =
    | IommuNotActive
    | VfioPciNotBoundTo(pciId: string, currentDriver: Option<string>)
    | KernelCmdlineMissing(param: string)
    | VfioModuleNotLoaded
    | HookScriptMissing(vmName: string, path: Path)
    | HookScriptDivergent(vmName: string, path: Path, expected: Digest, actual: Digest)
    | HookScriptNotExecutable(vmName: string, path: Path)

  datatype HostMismatch =
    | DistroChanged(expectedDistro: string, actualDistro: string)
    | BootloaderChanged(expectedBootloader: BootloaderKind, actualBootloader: BootloaderKind)
    | InitramfsSystemChanged(expectedInitramfs: InitramfsSystem, actualInitramfs: InitramfsSystem)

  datatype ResumeReadiness =
    | Ready
    | NotReady(divergences: seq<Divergence>)
    | WrongHost(reasons: seq<HostMismatch>)

  // ----- did Phase A land? -----

  predicate SameHost(profile: SystemProfile, expected: HostFingerprint) {
    && profile.distroId == expected.distroId
    && profile.bootloader.kind == expected.bootloader
    && profile.initramfs == expected.initramfs
  }

  /** What a mismatch says of the host and the record. */
  ghost predicate Differs(profile: SystemProfile, expected: HostFingerprint, m: HostMismatch) {
    match m
    case DistroChanged(was, now) => was == expected.distroId && now == profile.distroId && was != now
    case BootloaderChanged(was, now) => was == expected.bootloader && now == profile.bootloader.kind && was != now
    case InitramfsSystemChanged(was, now) => was == expected.initramfs && now == profile.initramfs && was != now
  }

  method HostIdentityChanges(profile: SystemProfile, expected: HostFingerprint) returns (changes: seq<HostMismatch>)
    ensures changes == [] <==> SameHost(profile, expected)
    ensures forall m :: m in changes <==> Differs(profile, expected, m)
  {
    changes := [];
    if profile.distroId != expected.distroId {
      changes := changes + [DistroChanged(expected.distroId, profile.distroId)];
    }
    if profile.bootloader.kind != expected.bootloader {
      changes := changes + [BootloaderChanged(expected.bootloader, profile.bootloader.kind)];
    }
    if profile.initramfs != expected.initramfs {
      changes := changes + [InitramfsSystemChanged(expected.initramfs, profile.initramfs)];
    }
  }

  /** The driver of the GPU with the given `vendor:device` id, if one is listed. */
  function DriverOf(gpus: seq<GpuInfo>, pciId: string): Option<Option<string>> {
    var colon := Text.Find(pciId, ':');
    if colon == |pciId| then None
    else FirstDriver(gpus, LowerText(pciId[..colon]), LowerText(pciId[colon + 1..]))
  }

  function FirstDriver(gpus: seq<GpuInfo>, vendor: string, device: string): Option<Option<string>> {
    if gpus == [] then None
    else if LowerText(gpus[0].vendorId) == vendor && LowerText(gpus[0].deviceId) == device then
      Some(gpus[0].currentDriver)
    else FirstDriver(gpus[1..], vendor, device)
  }

  /** A device that is not listed as a GPU is not checked. */
  predicate NotBound(gpus: seq<GpuInfo>, pciId: string) {
    DriverOf(gpus, pciId).Some? && DriverOf(gpus, pciId).value != Some("vfio-pci")
  }

  function ParamsToFind(profile: SystemProfile, pending: PendingPlan): seq<string> {
    RequiredCmdlineParams(CpuParam(profile.cpuVendor), pending.fingerprint.passthroughPciIds)
  }

  /** What a divergence asserts about the host. */
  predicate Observed(profile: SystemProfile, pending: PendingPlan, d: Divergence) {
    match d
    case IommuNotActive => !profile.iommuActive
    case KernelCmdlineMissing(p) => p in ParamsToFind(profile, pending) && !CmdlineHasParam(profile.kernelCmdline, p)
    case VfioModuleNotLoaded => "vfio_pci" !in profile.loadedModules
    case VfioPciNotBoundTo(id, driver) =>
      && id in pending.fingerprint.passthroughPciIds && NotBound(profile.gpus, id)
      && DriverOf(profile.gpus, id) == Some(driver)
    case _ => false
  }

  /** Exactly the divergences that hold of the host are reported, on the right host. */
  method VerifyPhaseALanded(profile: SystemProfile, pending: PendingPlan) returns (r: ResumeReadiness)
    ensures r.WrongHost? <==> !SameHost(profile, pending.fingerprint)
    ensures r.WrongHost? ==> forall m :: m in r.reasons <==> Differs(profile, pending.fingerprint, m)
    ensures r.Ready? <==> SameHost(profile, pending.fingerprint) && forall d :: !Observed(profile, pending, d)
    ensures r.NotReady? ==> forall d :: d in r.divergences <==> Observed(profile, pending, d)
  {
    var mismatches := HostIdentityChanges(profile, pending.fingerprint);
    if mismatches != [] {
      return WrongHost(mismatches);
    }
    var found: seq<Divergence> := [];
    if !profile.iommuActive {
      found := found + [IommuNotActive];
    }
    ghost var first := found;
    var required := ParamsToFind(profile, pending);
    for i := 0 to |required|
      invariant forall d :: d in found <==>
        d in first
        || (d.KernelCmdlineMissing? && d.param in required[..i] && !CmdlineHasParam(profile.kernelCmdline, d.param))
    {
      assert required[..i + 1] == required[..i] + [required[i]];
      if !CmdlineHasParam(profile.kernelCmdline, required[i]) {
        found := found + [KernelCmdlineMissing(required[i])];
      }
    }
    assert required[..|required|] == required;
    if "vfio_pci" !in profile.loadedModules {
      found := found + [VfioModuleNotLoaded];
    }
    var ids := pending.fingerprint.passthroughPciIds;
    ghost var second := found;
    for i := 0 to |ids|
      invariant forall d :: d in found <==>
        d in second || (d.VfioPciNotBoundTo? && d.pciId in ids[..i] && NotBound(profile.gpus, d.pciId)
                        && DriverOf(profile.gpus, d.pciId) == Some(d.currentDriver))
    {
      assert ids[..i + 1] == ids[..i] + [ids[i]];
      var driver := DriverOf(profile.gpus, ids[i]);
      if driver.Some? && driver.value != Some("vfio-pci") {
        found := found + [VfioPciNotBoundTo(ids[i], driver.value)];
      }
    }
    assert ids[..|ids|] == ids;
    assert forall d :: d in found <==> Observed(profile, pending, d);
    if found == [] {
      return Ready;
    }
    assert Observed(profile, pending, found[0]);
    return NotReady(found);
  }

  // ----- write, then verify -----

  /**
   * The rewritten file has all the verifier looks for: always, unless the target line was a blank and
   * then a quote; then only if the words in the quotes had it before.
   */
  ghost predicate KeepsAll(params: seq<string>, x: string) {
    var d, lines := Dialect.Grub(params), Text.Lines(x);
    var t := FirstTarget(d, lines);
    || t == |lines|
    || Steady(d, lines[t])
    || (&& Requoted(lines[t]).Some?
        && forall p | p in params ::
             CmdlineHasParam(Text.Join(Text.Tokens(Requoted(lines[t]).value.inner), " "), p))
  }

  /** The verifier finds the parameters in every boot with the rewritten file, exactly if the file keeps them all. */
  lemma RewrittenFileVerifies(params: seq<string>, x: string)
    requires CleanDialect(Dialect.Grub(params)) && Text.NoCr(x) && Rewrite(Dialect.Grub(params), x).Success?
    requires exists p :: p in params && !(IDS_PREFIX <= p)
    ensures (forall cmdline, p | BootedWith(Rewrite(Dialect.Grub(params), x).value, cmdline) && p in params ::
               CmdlineHasParam(cmdline, p))
      <==> KeepsAll(params, x)
  {
    hide BootedWith, Text.Tokens, Text.Lines, Text.Join, Rewrite, CleanDialect, CmdlineHasParam, WordsLeft, KeepsAll;
    var y, words := Rewrite(Dialect.Grub(params), x).value, WordsLeft(params, x);
    var whole := Text.Join(words, " ");
    AllInWords(params, x);
    WantedAreWords(Dialect.Grub(params));
    forall cmdline
      ensures BootedWith(y, cmdline) <==> forall w | w in words :: w in Text.Tokens(cmdline)
    {
      BootsWithWordsLeft(params, x, cmdline);
    }
    BootsWithWordsLeft(params, x, "");
    Text.TokensOfJoin(words);
    assert BootedWith(y, whole);
    if KeepsAll(params, x) {
      forall cmdline, p | BootedWith(y, cmdline) && p in params ensures CmdlineHasParam(cmdline, p) {
        FoundInMore(words, cmdline, p);
      }
    }
  }

  /** Keeping all is a matter of the words that are left. */
  lemma AllInWords(params: seq<string>, x: string)
    requires CleanDialect(Dialect.Grub(params)) && Text.NoCr(x) && Rewrite(Dialect.Grub(params), x).Success?
    requires exists p :: p in params && !(IDS_PREFIX <= p)
    ensures KeepsAll(params, x) <==>
      forall p | p in params :: CmdlineHasParam(Text.Join(WordsLeft(params, x), " "), p)
  {
    hide BootedWith, Text.Tokens, Text.Lines, Text.Join, Rewrite, CleanDialect, IsTarget, Edit, Requoted;
    hide CmdlineHasParam;
    var d, lines, words := Dialect.Grub(params), Text.Lines(x), WordsLeft(params, x);
    var t := FirstTarget(d, lines);
    AcceptedFile(d, x);
    BootsWithWordsLeft(params, x, "");
    Text.TokensOfJoin(words);
    if t < |lines| {
      EditHasView(d, lines[t]);
      AddMissingMembers(ViewOf(d, lines[t]).value.tokens, params);
    }
    if t == |lines| || Steady(d, lines[t]) {
      forall p | p in params ensures CmdlineHasParam(Text.Join(words, " "), p) {
        WordIsFound(Text.Join(words, " "), p);
      }
    } else if Requoted(lines[t]).None? {
      var p :| p in params && !(IDS_PREFIX <= p);
      NothingFound(p);
    }
  }

  lemma NothingFound(p: string)
    requires !(IDS_PREFIX <= p)
    ensures !CmdlineHasParam(Text.Join([], " "), p)
  {
    Text.TokensOfJoin([]);
  }

  /**
   * For GRUB: Phase A has written the bootloader file. The verifier misses no kernel parameter on any
   * machine booted with the words of that file, exactly if the file keeps all parameters, as can be
   * read off the target line it had before.
   */
  lemma GrubEditIsVerified(
    step: PlannedStep, plan: Plan, host: SystemProfile, config: PassthroughConfig, id: string,
    base: Disk, d: Disk, after: SystemProfile)
    requires step.kind == BootloaderWrite && host.bootloader.kind == Grub2
    requires Wrote(step, host, config, base, d)
    requires AllVendorDeviceIds(CanonicalIds(config.gpuRoles, host.gpus))
    requires Text.NoCr(TextAt(base.files, step.touches[0]))
    requires after.cpuVendor == host.cpuVendor
    ensures var pending := BuildPendingPlan(plan, host, config, id);
      (forall cmdline, param | BootedWith(d.files[step.touches[0]].Text(), cmdline) ::
         !Observed(after.(kernelCmdline := cmdline), pending, KernelCmdlineMissing(param)))
      <==> KeepsAll(HostParams(host, config), TextAt(base.files, step.touches[0]))
  {
    hide BootedWith, Rewrite, KeepsAll, TextAt, CanonicalIds, CpuParam, CmdlineHasParam;
    var params, x := HostParams(host, config), TextAt(base.files, step.touches[0]);
    RequiredParamsAreClean(host.cpuVendor, CanonicalIds(config.gpuRoles, host.gpus));
    CpuParamIsPlain(host.cpuVendor);
    assert params[0] == CpuParam(host.cpuVendor) && params[0] in params;
    RewrittenFileVerifies(params, x);
    assert d.files[step.touches[0]].Text() == Rewrite(Dialect.Grub(params), x).value;
    forall cmdline, param
      ensures Observed(
                after.(kernelCmdline := cmdline), BuildPendingPlan(plan, host, config, id), KernelCmdlineMissing(param))
        <==> param in params && !CmdlineHasParam(cmdline, param)
    {
      assert after.(kernelCmdline := cmdline).cpuVendor == host.cpuVendor;
    }
  }

  // ----- the hook scripts -----

  /** Present with the recorded digest, and executable. */
  ghost predicate Healthy(d: Disk, sha: Contents -> Digest, e: SnapshotEntry) {
    && e.originalPath in d.files
    && e.postEdit == Some(sha(d.files[e.originalPath]))
    && e.originalPath in d.executable
  }

  predicate IsHook(e: SnapshotEntry) {
    e.producedBy == HookInstall
  }

  /** The right kind of complaint about an entry that is not healthy. */
  ghost predicate Explains(d: Disk, sha: Contents -> Digest, e: SnapshotEntry, vmName: string, v: Divergence) {
    var p := e.originalPath;
    match v
    case HookScriptMissing(name, path) => name == vmName && path == p && p !in d.files
    case HookScriptDivergent(name, path, expected, actual) =>
      && name == vmName && path == p
      && (match e.postEdit
          case None => expected == "(not recorded)" && actual == "(unknown)"
          case Some(hash) => expected == hash && p in d.files && actual == sha(d.files[p]) && actual != hash)
    case HookScriptNotExecutable(name, path) =>
      && name == vmName && path == p && p !in d.executable
      && p in d.files && e.postEdit == Some(sha(d.files[p]))
    case _ => false
  }

  ghost predicate Bad(d: Disk, sha: Contents -> Digest, e: SnapshotEntry) {
    IsHook(e) && !Healthy(d, sha, e)
  }

  /** One complaint for each unhealthy hook entry, in manifest order, and no others; `at` says which is whose. */
  ghost predicate Complaints(
    d: Disk, sha: Contents -> Digest, entries: seq<SnapshotEntry>, vmName: string, found: seq<Divergence>,
    at: seq<nat>)
  {
    && |at| == |found|
    && (forall k | 0 <= k < |at| ::
          at[k] < |entries| && Bad(d, sha, entries[at[k]]) && Explains(d, sha, entries[at[k]], vmName, found[k]))
    && (forall j, k | 0 <= j < k < |at| :: at[j] < at[k])
    && (forall i | 0 <= i < |entries| && Bad(d, sha, entries[i]) :: i in at)
  }

  method VerifyHookInstall(fs: FileSystem, sha: Contents -> Digest, m: SnapshotManifest, vmName: string)
    returns (found: seq<Divergence>, ghost at: seq<nat>)
    modifies fs
    ensures fs.Advances() && forall k | |old(fs.journal)| <= k < |fs.journal| :: fs.journal[k].path.None?
    ensures old(fs.Calm() && fs.Idle()) ==>
      fs.state == old(fs.state) && Complaints(fs.state, sha, m.entries, vmName, found, at)
    ensures old(fs.Calm() && fs.Idle()) ==>
      (found == [] <==>
         forall i | 0 <= i < |m.entries| && m.entries[i].producedBy == HookInstall ::
           && m.entries[i].originalPath in fs.state.files && m.entries[i].originalPath in fs.state.executable
           && m.entries[i].postEdit == Some(sha(fs.state.files[m.entries[i].originalPath])))
  {
    hide FileSystem.OnRecord, Healthy, Explains, IsHook;
    found, at := [], [];
    for i := 0 to |m.entries|
      invariant fs.Advances() && forall k | |old(fs.journal)| <= k < |fs.journal| :: fs.journal[k].path.None?
      invariant old(fs.Calm() && fs.Idle()) ==>
        && fs.Calm() && fs.Idle() && fs.state == old(fs.state)
        && Complaints(fs.state, sha, m.entries[..i], vmName, found, at)
    {
      var e := m.entries[i];
      assert m.entries[..i + 1] == m.entries[..i] + [e];
      if IsHook(e) {
        var complaint := CheckHook(fs, sha, e, vmName);
        if complaint.Some? {
          ghost var before := at;
          found := found + [complaint.value];
          at := at + [i];
          assert forall j | 0 <= j < i && j in before :: j in at;
          assert i in at;
        }
      }
    }
    assert m.entries[..|m.entries|] == m.entries;
    if fs.Calm() && fs.Idle() && Complaints(fs.state, sha, m.entries, vmName, found, at) {
      NothingToComplainOf(fs.state, sha, m.entries, vmName, found, at);
    }
  }

  lemma NothingToComplainOf(
    d: Disk, sha: Contents -> Digest, entries: seq<SnapshotEntry>, vmName: string, found: seq<Divergence>,
    at: seq<nat>)
    requires Complaints(d, sha, entries, vmName, found, at)
    ensures found == [] <==>
      forall i | 0 <= i < |entries| && entries[i].producedBy == HookInstall ::
        && entries[i].originalPath in d.files && entries[i].originalPath in d.executable
        && entries[i].postEdit == Some(sha(d.files[entries[i].originalPath]))
  {
    hide Explains;
    if found != [] {
      assert Bad(d, sha, entries[at[0]]);
    }
  }

  method CheckHook(
    fs: FileSystem, sha: Contents -> Digest, e: SnapshotEntry, vmName: string)
    returns (found: Option<Divergence>)
    modifies fs
    ensures fs.Advances() && forall k | |old(fs.journal)| <= k < |fs.journal| :: fs.journal[k].path.None?
    ensures old(fs.Calm() && fs.Idle()) ==>
      && fs.Calm() && fs.Idle() && fs.state == old(fs.state)
      && (found.None? <==> Healthy(fs.state, sha, e))
      && (found.Some? ==> Explains(fs.state, sha, e, vmName, found.value))
  {
    hide FileSystem.OnRecord, Local, Merged, SameOwn;
    var path := e.originalPath;
    var there := fs.Exists(path);
    if !there {
      return Some(HookScriptMissing(vmName, path));
    }
    var live := fs.Read(path);
    match (e.postEdit, live) {
      case (Some(expected), Success(content)) =>
        var actual := sha(content);
        if actual != expected {
          return Some(HookScriptDivergent(vmName, path, expected, actual));
        }
      case (None, _) =>
        return Some(HookScriptDivergent(vmName, path, "(not recorded)", "(unknown)"));
      case (Some(_), Failure(_)) =>
        return Some(HookScriptMissing(vmName, path));
    }
    var marked := fs.IsExecutable(path);
    if !marked {
      return Some(HookScriptNotExecutable(vmName, path));
    }
    return None;
  }

  // ----- after a successful Phase B -----

  /** Every entry that belongs to the hook step is for one of its three scripts. */
  ghost predicate OnlyHookEntries(m: SnapshotManifest, config: PassthroughConfig) {
    forall i | 0 <= i < |m.entries| && IsHook(m.entries[i]) :: m.entries[i].originalPath in HookPaths(config)
  }

  /** A snapshot taken for a plan has hook entries for the plan's hook scripts only. */
  lemma CapturedHookEntries(
    home: Path, profile: SystemProfile, config: PassthroughConfig, seen: map<Path, Contents>, sha: Contents -> Digest,
    plan: Plan, id: string)
    requires plan.steps == PhaseAPart(home, profile, config) + PhaseBPart(home, profile, config)
    ensures OnlyHookEntries(CaptureManifest(seen, sha, plan, profile, id), config)
  {
    var m := CaptureManifest(seen, sha, plan, profile, id);
    forall i | 0 <= i < |m.entries| && IsHook(m.entries[i]) ensures m.entries[i].originalPath in HookPaths(config) {
      var target := Targets(plan.steps)[i];
      var j := FirstToucher(plan.steps, target);
      assert plan.steps[j] in plan.steps;
      StepIsPlanned(home, profile, config, plan.steps[j]);
      assert plan.steps[j] == SingleGpuHookStep(config);
    }
  }

  /** Rewriting a manifest without adding entries keeps them so. */
  lemma HookEntriesKept(m: SnapshotManifest, later: SnapshotManifest, config: PassthroughConfig)
    requires OnlyHookEntries(m, config) && Extends(m, later) && |later.entries| == |m.entries|
    ensures OnlyHookEntries(later, config)
  {
    forall i | 0 <= i < |later.entries| && IsHook(later.entries[i])
      ensures later.entries[i].originalPath in HookPaths(config)
    {
      assert SameCapture(m.entries[i], later.entries[i]);
    }
  }

  lemma InstalledHookIsHealthy(
    job: Job, sha: Contents -> Digest, step: PlannedStep, d: Disk, later: Disk, m0: SnapshotManifest,
    m: SnapshotManifest, i: nat)
    requires InPlace(job, sha, step, d, later, m0, m) && step.kind == HookInstall
    requires DistinctPaths(m.entries) && i < |m.entries| && m.entries[i].originalPath in HookPaths(job.Config())
    ensures Healthy(later, sha, m.entries[i])
  {
    hide HookPaths, HookWrites, Permitted;
    WritesOnPaths(job.Config(), Context(job.profile, job.Config()).value);
    var w :| w in StepWrites(job, step) && w.path == m.entries[i].originalPath;
    assert RecordedOne(later, sha, m, w);
    IndexOfAt(m.entries, i);
  }

  lemma AchievedInPlace(
    job: Job, sha: Contents -> Digest, d: Disk, later: Disk, outcome: PhaseBOutcome, step: PlannedStep)
    requires Ran(job, sha, d, later, Success(outcome)) && step in job.pending.remainingSteps
    requires DistinctWrites(AllWrites(job, job.pending.remainingSteps))
    ensures HasManifest(d, job.roots, job.pending.snapshotId) && HasManifest(later, job.roots, job.pending.snapshotId)
    ensures var m0, m := ManifestOf(d, job.roots, job.pending.snapshotId),
      ManifestOf(later, job.roots, job.pending.snapshotId);
      InPlace(job, sha, step, d, later, m0, m) && Extends(m0, m) && |m.entries| == |m0.entries|
  {
    hide InPlace, Keeps, HostIs, AllWrites, Extends, Contained;
  }

  /** Right after Phase B has installed the hooks, their verification finds nothing. */
  lemma HooksVerifyAfterPhaseB(
    job: Job, sha: Contents -> Digest, d: Disk, later: Disk, outcome: PhaseBOutcome, step: PlannedStep,
    found: seq<Divergence>, at: seq<nat>)
    requires Ran(job, sha, d, later, Success(outcome))
    requires step in job.pending.remainingSteps && step.kind == HookInstall
    requires DistinctWrites(AllWrites(job, job.pending.remainingSteps))
    requires OnlyHookEntries(ManifestOf(d, job.roots, job.pending.snapshotId), job.Config())
    requires DistinctPaths(ManifestOf(later, job.roots, job.pending.snapshotId).entries)
    requires Complaints(
      later, sha, ManifestOf(later, job.roots, job.pending.snapshotId).entries, job.Config().vmName, found, at)
    ensures found == []
  {
    hide Ran, InPlace, Extends, DistinctPaths, DistinctWrites, AllWrites, Healthy, Explains, HookPaths;
    AchievedInPlace(job, sha, d, later, outcome, step);
    var m0, m := ManifestOf(d, job.roots, job.pending.snapshotId), ManifestOf(later, job.roots, job.pending.snapshotId);
    HookEntriesKept(m0, m, job.Config());
    if found != [] {
      var i := at[0];
      InstalledHookIsHealthy(job, sha, step, d, later, m0, m, i);
      assert false;
    }
  }
}
