/** The commands as actions of a history: what each may make of the store is what `Runs` reasons about. */
module Invocations {
  import opened Wrappers
  import opened Paths
  import opened Records
  import opened KernelParams
  import opened Store
  import opened Layout
  import opened Manifest
  import opened Capture
  import opened Restore
  import opened Planner
  import opened PhaseAEdits
  import opened PhaseA
  import opened EditEffects
  import opened PhaseBInstall
  import opened PhaseB
  import opened Resume
  import opened Readiness
  import opened Commands
  import opened Runs
  import Text

  /** One more action, after any history. */
  lemma HistoryGrows(env: Env, disks: seq<Disk>, deeds: seq<Deed>, deed: Deed, later: Disk)
    requires History(env, disks, deeds) && Moves(env, deed, disks[|disks| - 1], later)
    ensures History(env, disks + [later], deeds + [deed])
  {
    hide Moves;
    var allDisks, allDeeds := disks + [later], deeds + [deed];
    forall i | 0 <= i < |allDeeds| ensures Moves(env, allDeeds[i], allDisks[i], allDisks[i + 1]) {
      if i < |deeds| {
        assert Moves(env, deeds[i], disks[i], disks[i + 1]);
      }
    }
  }

  /** A sound disk has no pending record that would write Virtu's own directories. */
  lemma SoundWritesHost(env: Env, d: Disk)
    requires Sound(env, d)
    ensures PendingWritesHost(env.Roots(), d)
  {
    hide ManifestsTidy, StepPaths;
    forall pending, s, p | PendingIs(env.Roots(), d, pending)
        && s in pending.remainingSteps && p in StepPaths(pending.config, s)
      ensures !env.Roots().Protected(p)
    {
      assert PendingPlanOk(env.Roots(), d, pending);
    }
  }

  /** What an invocation has put on record explains what it made of the disk it found. */
  twostate lemma SinceThen(fs: FileSystem)
    requires old(fs.OnRecord()) && fs.Advances()
    ensures fs.OnRecord() && Chained(fs.reserved, old(fs.state), fs.journal, |old(fs.journal)|, fs.state)
  {
    ChainedSince(fs.reserved, fs.origin, old(fs.journal), old(fs.state), fs.journal, fs.state);
  }

  /** Every file edited says what its step is for. */
  ghost predicate EditsSay(
    steps: seq<PlannedStep>, host: SystemProfile, config: PassthroughConfig, d: Disk, later: Disk)
  {
    forall s | s in steps && IsEdit(s.kind) ::
      && s.touches != [] && s.touches[0] in later.files && later.files[s.touches[0]].Raw?
      && var before := if s.touches[0] in d.files then d.files[s.touches[0]].Text() else "";
         Text.NoCr(before) ==> EditSays(s, host, config, before, later.files[s.touches[0]].text)
  }

  lemma AllSay(steps: seq<PlannedStep>, host: SystemProfile, config: PassthroughConfig, d: Disk, later: Disk)
    requires AllWrote(steps, host, config, d, later)
    requires AllVendorDeviceIds(CanonicalIds(config.gpuRoles, host.gpus))
    ensures EditsSay(steps, host, config, d, later)
  {
    hide EditSays, Text.NoCr, StepText, AllVendorDeviceIds, CanonicalIds;
    forall s | s in steps && IsEdit(s.kind)
      ensures s.touches != [] && s.touches[0] in later.files && later.files[s.touches[0]].Raw?
      ensures Text.NoCr(TextAt(d.files, s.touches[0])) ==>
        EditSays(s, host, config, TextAt(d.files, s.touches[0]), later.files[s.touches[0]].text)
    {
      assert Wrote(s, host, config, d, later);
      if Text.NoCr(TextAt(d.files, s.touches[0])) {
        WroteSays(s, host, config, d, later);
      }
    }
  }

  method ApplyNow(
    fs: FileSystem, env: Env, host: SystemProfile, config: PassthroughConfig, id: string,
    blocked: bool, invalid: bool, regenerate: bool)
    returns (r: Result<PhaseAOutcome, ApplyError>, ghost deed: Deed)
    requires fs.reserved == env.Roots() && fs.OnRecord()
    requires FreshId(fs.state, env.Roots(), id) && SuppliedPathsAreHost(env.home, host, config)
    modifies fs
    ensures fs.OnRecord() && old(fs.commands) <= fs.commands && deed.action == Apply(host, config, id)
    ensures Moves(env, deed, old(fs.state), fs.state)
    ensures old(Sound(env, fs.state)) ==> Sound(env, fs.state) && Keeps(env.Roots(), old(fs.state), fs.state)
    ensures r.Success? ==> HasManifest(fs.state, env.Roots(), id)
    ensures r.Success? ==>
      RecordOnDisk(env.Roots(), fs.state, StepsFor(env.home, host, config), host, config, id)
    ensures r.Success? ==> ApplyReport(r.value, env.Roots(), StepsFor(env.home, host, config), id)
    ensures r.Success? && regenerate ==>
      RegeneratedFor(fs.commands[|old(fs.commands)|..], host, StepsFor(env.home, host, config))
    ensures old(fs.Calm()) ==> fs.Calm()
    ensures r.Success? && old(fs.Quiet(TargetSet(StepsFor(env.home, host, config))))
            && DistinctEdits(StepsFor(env.home, host, config)) && (old(fs.Calm()) || host.initramfs != UpdateInitramfs)
            && AllVendorDeviceIds(CanonicalIds(config.gpuRoles, host.gpus))
            ==> EditsSay(StepsFor(env.home, host, config), host, config, old(fs.state), fs.state)
  {
    hide FileSystem.OnRecord, Sound, Keeps, Applied, Chained, FreshId, SuppliedPathsAreHost, AllLogged, CanApply;
    hide ApplyReport, RegeneratedFor, RecordOnDisk, AllWrote, StepsFor, TargetSet, DistinctEdits, AllVendorDeviceIds;
    hide CanonicalIds, EditsSay;
    ghost var start, journal := fs.state, fs.journal;
    ghost var seen;
    r, seen := RunApply(fs, env, host, config, id, blocked, invalid, regenerate);
    SinceThen(fs);
    deed := Deed(Apply(host, config, id), fs.journal, |journal|, seen);
    if AllVendorDeviceIds(CanonicalIds(config.gpuRoles, host.gpus))
       && AllWrote(StepsFor(env.home, host, config), host, config, start, fs.state) {
      AllSay(StepsFor(env.home, host, config), host, config, start, fs.state);
    }
    if Sound(env, start) {
      ActionKeepsSound(env, deed, start, fs.state);
    }
  }

  method ResumeNow(fs: FileSystem, env: Env, profile: SystemProfile, mode: Mode)
    returns (r: Result<PhaseBOutcome, ResumeError>, ghost deed: Deed)
    requires fs.reserved == env.Roots() && fs.OnRecord() && Sound(env, fs.state)
    modifies fs
    ensures fs.OnRecord() && deed.action == ResumeOn(profile, mode)
    ensures Moves(env, deed, old(fs.state), fs.state)
    ensures Sound(env, fs.state) && Keeps(env.Roots(), old(fs.state), fs.state)
    ensures r.Failure? && r.error.PhaseBFailed? ==> !r.error.error.Refused?
    ensures r.Failure? && r.error.NotResumable? ==>
      && JobOn(env, profile, mode, old(fs.state)).Some? && !r.error.readiness.Ready?
      && IsVerdict(profile, JobOn(env, profile, mode, old(fs.state)).value.pending, r.error.readiness)
    ensures r.Success? ==>
      && JobOn(env, profile, mode, old(fs.state)).Some?
      && IsVerdict(profile, JobOn(env, profile, mode, old(fs.state)).value.pending, Ready)
    ensures r.Success? ==>
      ResumeReport(JobOn(env, profile, mode, old(fs.state)).value.pending, old(fs.state), env.Roots(), r.value)
    ensures old(fs.Calm()) && JobOn(env, profile, mode, old(fs.state)).Some? ==>
      (r.Failure? && r.error.NotResumable?
       <==> !IsVerdict(profile, JobOn(env, profile, mode, old(fs.state)).value.pending, Ready))
  {
    hide FileSystem.OnRecord, Keeps, Resumed, Chained, PendingOk, PendingWritesHost, ManifestsTidy, SteeredPending, Ran;
    hide CanResume, JobOn, IsVerdict, ResumeReport;
    ghost var start, journal := fs.state, fs.journal;
    SoundWritesHost(env, start);
    ghost var from;
    r, from := RunResume(fs, env, profile, mode);
    SinceThen(fs);
    deed := Deed(ResumeOn(profile, mode), fs.journal, |journal|, map[]);
    ActionKeepsSound(env, deed, start, fs.state);
  }

  method RollbackNow(fs: FileSystem, env: Env, id: string)
    returns (r: Result<RestoreSummary, Error>, ghost deed: Deed)
    requires fs.reserved == env.Roots() && fs.OnRecord()
    modifies fs
    ensures fs.OnRecord() && deed.action == RollbackTo(id)
    ensures Moves(env, deed, old(fs.state), fs.state)
    ensures old(Sound(env, fs.state)) ==> Sound(env, fs.state) && Keeps(env.Roots(), old(fs.state), fs.state)
    ensures r.Success? ==>
      && HasManifest(old(fs.state), env.Roots(), id)
      && var entries := ManifestOf(old(fs.state), env.Roots(), id).entries;
         SettledSoFar(env.sha, entries, |entries|, deed.journal, deed.start)
    ensures r.Success? ==>
      var m := ManifestOf(old(fs.state), env.Roots(), id);
      Reported(r.value, id, m, |m.entries|, deed.journal, deed.start)
    ensures old(fs.Idle() && fs.Calm()) && HasManifest(old(fs.state), env.Roots(), id)
            && CanRollBack(
                 old(fs.state), env.Roots(), env.sha, id, ManifestOf(old(fs.state), env.Roots(), id).entries)
            ==> r.Success?
    ensures old(fs.Idle()) && r.Success? ==>
      fs.state.files == Restored(
        old(fs.state).files, env.Roots(), env.sha, id, ManifestOf(old(fs.state), env.Roots(), id).entries)
  {
    hide FileSystem.OnRecord, Sound, Keeps, RolledBackTo, Chained, SettledSoFar, CanRollBack, Restored, Reported;
    ghost var start, journal := fs.state, fs.journal;
    r := RunRollback(fs, env, id);
    SinceThen(fs);
    deed := Deed(RollbackTo(id), fs.journal, |journal|, map[]);
    if Sound(env, start) {
      ActionKeepsSound(env, deed, start, fs.state);
    }
  }

  /**
   * First among the actions are those that follow from the plan's steps, in plan order, and after them,
   * if a step needs a reboot, the hint to reboot.
   */
  ghost predicate Promised(actions: seq<RestoreAction>, steps: seq<PlannedStep>, host: SystemProfile) {
    exists n: nat, from ::
      && n <= |actions| && Derived(actions[..n], steps, host, from)
      && ((exists s :: s in steps && s.requiresReboot) ==> n < |actions| && actions[n] == RecommendReboot)
  }

  lemma CaptureIsPromised(
    seen: map<Path, Contents>, sha: Contents -> Digest, plan: Plan, host: SystemProfile, id: string,
    actions: seq<RestoreAction>)
    requires plan.requiresReboot <==> exists s :: s in plan.steps && s.requiresReboot
    requires CaptureManifest(seen, sha, plan, host, id).restoreActions <= actions
    ensures Promised(actions, plan.steps, host)
  {
    hide RestoreActions, Derived, CaptureEntries;
    var own := RestoreActions(plan.steps, host);
    var from := RestoreActionsFollow(plan.steps, host);
    var n := |own|;
    assert actions[..n] == own;
  }

  /** Whatever comes after the apply, its actions stay in the manifest. */
  lemma ActionsStay(
    env: Env, disks: seq<Disk>, deeds: seq<Deed>, i: nat, k: nat, host: SystemProfile, config: PassthroughConfig,
    id: string)
    requires History(env, disks, deeds) && Sound(env, disks[0]) && i < k < |disks|
    requires deeds[i].action == Apply(host, config, id) && HasManifest(disks[i + 1], env.Roots(), id)
    ensures HasManifest(disks[k], env.Roots(), id)
    ensures Promised(ManifestOf(disks[k], env.Roots(), id).restoreActions, StepsFor(env.home, host, config), host)
  {
    hide Keeps, Sound, NoClash, Targets, SafeEvent, Backs, CaptureManifest, AddsOnlyIn, SeenFirst;
    hide Chained, StepsFor, Promised;
    var plan := PlanFor(env.home, host, config);
    assert Moves(env, deeds[i], disks[i], disks[i + 1]);
    AlwaysSound(env, disks, deeds, i + 1, k);
    KeepsManifest(env.Roots(), disks[i + 1], disks[k], id);
    var captured := CaptureManifest(deeds[i].seen, env.sha, plan, host, id);
    var first, last := ManifestOf(disks[i + 1], env.Roots(), id), ManifestOf(disks[k], env.Roots(), id);
    ExtendsTransitive(captured, first, last);
    CaptureIsPromised(deeds[i].seen, env.sha, plan, host, id, last.restoreActions);
  }

  // ----- where the record on disk comes from -----

  /** After an action the record is as it was before, gone, or that of an apply. */
  lemma RecordStep(env: Env, deed: Deed, d: Disk, later: Disk)
    requires Sound(env, d) && Moves(env, deed, d, later)
    ensures var p := env.Roots().PendingPath();
      || p !in later.files
      || Same(d, later, p)
      || (&& deed.action.Apply?
          && RecordOnDisk(
               env.Roots(), later, StepsFor(env.home, deed.action.host, deed.action.config), deed.action.host,
               deed.action.config, deed.action.id))
  {
    hide Chained, PhaseABounds, FreshId, SuppliedPathsAreHost, StepsFor, Remembers, Resumed, RolledBackTo;
    hide ManifestsTidy, PendingOk;
    var roots := env.Roots();
    assert Under(roots.state, roots.PendingPath()) && roots.Protected(roots.PendingPath());
    match deed.action
    case Apply(host, config, id) => RecordRemembers(PlanFor(env.home, host, config), host, config, id);
    case ResumeOn(profile, mode) => ResumeKeeps(env, profile, mode, d, later, deed.journal, deed.start);
    case RollbackTo(id) => RollbackLeavesRecords(env, id, d, later, deed.journal, deed.start);
    case Elsewhere =>
  }

  /**
   * A record found at any point of a history that began without one is that of an apply of the
   * history: it names that apply's snapshot, choices and host, and the steps it left.
   */
  lemma RecordIsFromApply(env: Env, disks: seq<Disk>, deeds: seq<Deed>, k: nat) returns (j: nat)
    requires History(env, disks, deeds) && Sound(env, disks[0]) && k < |disks|
    requires env.Roots().PendingPath() !in disks[0].files && env.Roots().PendingPath() in disks[k].files
    ensures j < k && deeds[j].action.Apply?
    ensures var a := deeds[j].action;
      RecordOnDisk(env.Roots(), disks[k], StepsFor(env.home, a.host, a.config), a.host, a.config, a.id)
  {
    hide Sound, Moves, StepsFor, Remembers;
    var p := env.Roots().PendingPath();
    AlwaysSound(env, disks, deeds, 0, k - 1);
    RecordStep(env, deeds[k - 1], disks[k - 1], disks[k]);
    if Same(disks[k - 1], disks[k], p) {
      j := RecordIsFromApply(env, disks, deeds, k - 1);
    } else {
      j := k - 1;
    }
  }

  ghost predicate OtherHost(profile: SystemProfile, host: SystemProfile) {
    || profile.distroId != host.distroId
    || profile.bootloader.kind != host.bootloader.kind
    || profile.initramfs != host.initramfs
  }

  /**
   * The verdict on a host for the record of an apply: it is the wrong one exactly if it differs from
   * the host of the apply in distribution, bootloader kind or initramfs system, and otherwise ready
   * exactly if all that the apply asked for is in effect for the devices it passes through.
   */
  lemma VerdictAfterApply(
    roots: Roots, d: Disk, steps: seq<PlannedStep>, host: SystemProfile, config: PassthroughConfig, id: string,
    profile: SystemProfile, verdict: ResumeReadiness, ids: seq<string>)
    requires RecordOnDisk(roots, d, steps, host, config, id)
    requires IsVerdict(profile, d.files[roots.PendingPath()].pending, verdict)
    requires IdsToPass(host, config, ids)
    ensures verdict.WrongHost? <==> OtherHost(profile, host)
    ensures verdict.Ready? <==> !OtherHost(profile, host) && InEffect(profile, ids)
  {
    hide InEffect, Diverges, Differs, PassesThrough, Leaves;
    SameIdList(d.files[roots.PendingPath()].pending.fingerprint.passthroughPciIds, ids);
  }

  lemma ReadyAfterApply(
    roots: Roots, d: Disk, steps: seq<PlannedStep>, host: SystemProfile, config: PassthroughConfig, id: string,
    profile: SystemProfile, ids: seq<string>)
    requires RecordOnDisk(roots, d, steps, host, config, id) && IdsToPass(host, config, ids)
    ensures IsVerdict(profile, d.files[roots.PendingPath()].pending, Ready) <==>
      !OtherHost(profile, host) && InEffect(profile, ids)
  {
    hide InEffect, Diverges, Differs, PassesThrough, Leaves;
    SameIdList(d.files[roots.PendingPath()].pending.fingerprint.passthroughPciIds, ids);
  }

  /**
   * `apply`, and at some time after it `resume` on a host found as `profile`. A host that differs in
   * distribution, bootloader kind or initramfs system is refused, and one that does not is refused
   * only while something the apply asked for is not in effect.
   */
  method ApplyThenResume(
    fs: FileSystem, env: Env, host: SystemProfile, config: PassthroughConfig, id: string,
    blocked: bool, invalid: bool, regenerate: bool, profile: SystemProfile, mode: Mode, ghost ids: seq<string>)
    returns (applied: Result<PhaseAOutcome, ApplyError>, resumed: Result<PhaseBOutcome, ResumeError>)
    requires fs.reserved == env.Roots() && fs.OnRecord() && Sound(env, fs.state)
    requires FreshId(fs.state, env.Roots(), id) && SuppliedPathsAreHost(env.home, host, config)
    requires IdsToPass(host, config, ids)
    modifies fs
    ensures applied.Success? && resumed.Failure? && resumed.error.NotResumable? ==>
      && (resumed.error.readiness.WrongHost? <==> OtherHost(profile, host))
      && (resumed.error.readiness.NotReady? <==> !OtherHost(profile, host) && !InEffect(profile, ids))
    ensures applied.Success? && resumed.Success? ==> !OtherHost(profile, host) && InEffect(profile, ids)
    ensures applied.Success? && old(fs.Calm()) ==>
      (resumed.Failure? && resumed.error.NotResumable? <==> OtherHost(profile, host) || !InEffect(profile, ids))
  {
    hide FileSystem.OnRecord, Sound, Moves, FreshId, SuppliedPathsAreHost, RecordOnDisk, IsVerdict, Keeps, IdsToPass;
    hide InEffect, OtherHost, FileSystem.Calm;
    ghost var first, second;
    applied, first := ApplyNow(fs, env, host, config, id, blocked, invalid, regenerate);
    ghost var d := fs.state;
    resumed, second := ResumeNow(fs, env, profile, mode);
    if applied.Success? {
      RecordIsJob(env, d, host, config, id, profile, mode);
      ghost var pending := JobOn(env, profile, mode, d).value.pending;
      forall verdict | IsVerdict(profile, pending, verdict)
        ensures verdict.WrongHost? <==> OtherHost(profile, host)
        ensures verdict.Ready? <==> !OtherHost(profile, host) && InEffect(profile, ids)
      {
        VerdictAfterApply(
          env.Roots(), d, StepsFor(env.home, host, config), host, config, id, profile, verdict, ids);
      }
      ReadyAfterApply(env.Roots(), d, StepsFor(env.home, host, config), host, config, id, profile, ids);
    }
  }

  lemma RecordIsJob(
    env: Env, d: Disk, host: SystemProfile, config: PassthroughConfig, id: string, profile: SystemProfile, mode: Mode)
    requires RecordOnDisk(env.Roots(), d, StepsFor(env.home, host, config), host, config, id)
    ensures JobOn(env, profile, mode, d).Some?
    ensures env.Roots().PendingPath() in d.files && d.files[env.Roots().PendingPath()].PendingFile?
    ensures JobOn(env, profile, mode, d).value.pending == d.files[env.Roots().PendingPath()].pending
  {
  }

  /** The snapshot of the apply is still there, and can be rolled back to unless a target is in the way. */
  lemma CanBeUndone(
    env: Env, disks: seq<Disk>, deeds: seq<Deed>, i: nat, host: SystemProfile, config: PassthroughConfig, id: string)
    returns (entries: seq<SnapshotEntry>)
    requires History(env, disks, deeds) && Sound(env, disks[0]) && i < |deeds|
    requires deeds[i].action == Apply(host, config, id) && HasManifest(disks[i + 1], env.Roots(), id)
    requires NoClash(deeds[i].seen, Targets(PlanFor(env.home, host, config).steps))
    ensures |disks| == |deeds| + 1 && Sound(env, disks[|deeds|])
    ensures HasManifest(disks[|deeds|], env.Roots(), id)
    ensures entries == ManifestOf(disks[|deeds|], env.Roots(), id).entries
    ensures Clear(disks[|deeds|], entries) ==> CanRollBack(disks[|deeds|], env.Roots(), env.sha, id, entries)
    ensures Promised(
      ManifestOf(disks[|deeds|], env.Roots(), id).restoreActions, StepsFor(env.home, host, config), host)
  {
    hide Sound, Moves, NoClash, Targets, Clear, Keeps, Promised;
    ActionsStay(env, disks, deeds, i, |deeds|, host, config, id);
    AlwaysSound(env, disks, deeds, 0, |deeds|);
    AppliedIsBacked(env, disks, deeds, i, |deeds|, host, config, id);
    entries := ManifestOf(disks[|deeds|], env.Roots(), id).entries;
  }

  /** What the rollback has then done to the targets. */
  lemma Undone(
    env: Env, disks: seq<Disk>, deeds: seq<Deed>, i: nat, host: SystemProfile, config: PassthroughConfig, id: string,
    entries: seq<SnapshotEntry>, deed: Deed, later: Disk, whole: bool)
    requires History(env, disks, deeds) && Sound(env, disks[0]) && i < |deeds| < |disks|
    requires deeds[i].action == Apply(host, config, id) && HasManifest(disks[i + 1], env.Roots(), id)
    requires NoClash(deeds[i].seen, Targets(PlanFor(env.home, host, config).steps))
    requires HasManifest(disks[|deeds|], env.Roots(), id)
    requires entries == ManifestOf(disks[|deeds|], env.Roots(), id).entries
    requires deed.action == RollbackTo(id) && History(env, disks + [later], deeds + [deed])
    requires whole ==> SettledSoFar(env.sha, entries, |entries|, deed.journal, deed.start)
    ensures forall target | target in Targets(PlanFor(env.home, host, config).steps) ::
      && (later.files == Restored(disks[|deeds|].files, env.Roots(), env.sha, id, entries) ==>
            BroughtBack(env, id, deeds[i].seen, disks[|deeds|], later, target))
      && (whole ==> exists o ::
            deed.start <= o < |deed.journal|
            && SameDigest(deeds[i].seen, deed.journal[o].after.files, env.sha, target))
  {
    hide Sound, Moves, NoClash, Targets, Clear, Keeps, SettledSoFar, Restored, BroughtBack, SameDigest, CanRollBack;
    var k := |deeds|;
    var allDisks, allDeeds := disks + [later], deeds + [deed];
    assert allDisks[0] == disks[0] && allDisks[i + 1] == disks[i + 1] && allDisks[k] == disks[k];
    assert allDeeds[i] == deeds[i] && allDeeds[k] == deed;
    forall target | target in Targets(PlanFor(env.home, host, config).steps)
      ensures later.files == Restored(disks[k].files, env.Roots(), env.sha, id, entries) ==>
        BroughtBack(env, id, deeds[i].seen, disks[k], later, target)
      ensures whole ==> exists o ::
        deed.start <= o < |deed.journal|
        && SameDigest(deeds[i].seen, deed.journal[o].after.files, env.sha, target)
    {
      RollbackUndoesApply(env, disks, deeds, i, k, host, config, id, target, later);
      if whole {
        var o := RollbackReachesTargets(env, allDisks, allDeeds, i, k, host, config, id, target);
      }
    }
  }

  lemma ReportsActions(
    s: RestoreSummary, id: string, m: SnapshotManifest, done: nat, journal: seq<Event>, n: nat)
    requires Reported(s, id, m, done, journal, n)
    ensures s.id == id && s.postRestoreActions == m.restoreActions
  {
  }

  /**
   * The promise, at the command line. A plan was applied somewhere in a history, completely or not.
   * Rolling back to its snapshot at the end succeeds without faults and interference unless a target
   * has become a bare directory, and a success without interference gives every target what the
   * apply saw there.
   */
  method UndoApply(
    fs: FileSystem, env: Env, ghost disks: seq<Disk>, ghost deeds: seq<Deed>, ghost i: nat,
    ghost host: SystemProfile, ghost config: PassthroughConfig, id: string)
    returns (r: Result<RestoreSummary, Error>, ghost deed: Deed)
    requires fs.reserved == env.Roots() && fs.OnRecord()
    requires History(env, disks, deeds) && Sound(env, disks[0]) && i < |deeds| && fs.state == disks[|deeds|]
    requires deeds[i].action == Apply(host, config, id) && HasManifest(disks[i + 1], env.Roots(), id)
    requires NoClash(deeds[i].seen, Targets(PlanFor(env.home, host, config).steps))
    modifies fs
    ensures fs.OnRecord() && History(env, disks + [fs.state], deeds + [deed]) && Sound(env, fs.state)
    ensures HasManifest(old(fs.state), env.Roots(), id)
    ensures old(fs.Idle() && fs.Calm()) && Clear(old(fs.state), ManifestOf(old(fs.state), env.Roots(), id).entries)
            ==> r.Success?
    ensures old(fs.Idle()) && r.Success? ==>
      forall target | target in Targets(PlanFor(env.home, host, config).steps) ::
        BroughtBack(env, id, deeds[i].seen, old(fs.state), fs.state, target)
    ensures r.Success? ==>
      forall target | target in Targets(PlanFor(env.home, host, config).steps) ::
        exists o :: deed.start <= o < |deed.journal|
          && SameDigest(deeds[i].seen, deed.journal[o].after.files, env.sha, target)
    ensures r.Success? ==>
      && Reported(
           r.value, id, ManifestOf(old(fs.state), env.Roots(), id),
           |ManifestOf(old(fs.state), env.Roots(), id).entries|, deed.journal, deed.start)
      && Promised(r.value.postRestoreActions, StepsFor(env.home, host, config), host)
  {
    hide FileSystem.OnRecord, Sound, Moves, NoClash, Targets, SettledSoFar, CanRollBack, Restored, BroughtBack, Clear;
    hide SameDigest, Keeps, History, FileSystem.Idle, FileSystem.Calm, Promised, Reported, StepsFor, PlanFor;
    ghost var start := fs.state;
    ghost var entries := CanBeUndone(env, disks, deeds, i, host, config, id);
    r, deed := RollbackNow(fs, env, id);
    HistoryGrows(env, disks, deeds, deed, fs.state);
    Undone(env, disks, deeds, i, host, config, id, entries, deed, fs.state, r.Success?);
    if r.Success? {
      ReportsActions(r.value, id, ManifestOf(start, env.Roots(), id), |entries|, deed.journal, deed.start);
    }
  }
}
