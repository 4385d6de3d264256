/** The `apply`, `resume` and `rollback` commands, and what each may do to the disk. */
module Commands {
  import opened Wrappers
  import opened Paths
  import opened Records
  import opened Manifest
  import opened Store
  import opened Layout
  import opened Capture
  import opened Restore
  import opened Planner
  import opened PhaseAEdits
  import opened PhaseA
  import opened PhaseBInstall
  import opened PhaseB
  import opened Resume
  import opened Readiness
  import opened AtomicWrite
  import opened Session
  import opened Staging

  /** The home directory Virtu lives in, and the hash it uses. */
  datatype Env = Env(home: Path, sha: Contents -> Digest) {
    function Roots(): Roots {
      RootsOf(home)
    }
  }

  lemma RootsAreApart(home: Path)
    ensures RootsOf(home).Apart()
  {
    var roots, n := RootsOf(home), |VirtuHome(home)|;
    assert roots.snapshots[n] == "snapshots" && roots.state[n] == "state";
    assert "snapshots"[1] != "state"[1];
  }

  function StepsFor(home: Path, host: SystemProfile, config: PassthroughConfig): seq<PlannedStep> {
    PhaseAPart(home, host, config) + PhaseBPart(home, host, config)
  }

  /** The plan for `host` and `config`. */
  function PlanFor(home: Path, host: SystemProfile, config: PassthroughConfig): Plan {
    Plan(StepsFor(home, host, config), exists s | s in StepsFor(home, host, config) :: s.requiresReboot)
  }

  lemma StepsAre(home: Path, host: SystemProfile, config: PassthroughConfig)
    ensures StepsFor(home, host, config) == PhaseAPart(home, host, config) + PhaseBPart(home, host, config)
    ensures PlanFor(home, host, config).steps == StepsFor(home, host, config)
    ensures PlanFor(home, host, config).requiresReboot <==>
      exists s :: s in StepsFor(home, host, config) && s.requiresReboot
  {
  }

  // ----- apply -----

  datatype ApplyError = AlreadyPending | PlanRefused(plan: PlanError) | PhaseAFailed(error: Error)

  /** Nothing from `n` on has changed a file. */
  ghost predicate NothingWritten(journal: seq<Event>, n: nat) {
    forall k | n <= k < |journal| :: journal[k].path.None?
  }

  /** `apply` for `host` and `config`, however far it got and whatever others did meanwhile; it saw `seen`. */
  ghost predicate Applied(
    env: Env, host: SystemProfile, config: PassthroughConfig, id: string, d: Disk, later: Disk,
    journal: seq<Event>, n: nat, seen: map<Path, Contents>)
  {
    var roots := env.Roots();
    && PhaseABounds(roots, env.sha, PlanFor(env.home, host, config), host, id, d, later, journal, n, seen)
    && (d.Exists(roots.PendingPath()) ==> NothingWritten(journal, n))
    && (!Same(d, later, roots.PendingPath()) ==>
          HasManifest(later, roots, id) && PendingIs(roots, later, PendingFor(env.home, host, config, id)))
  }

  ghost predicate TargetsCovered(roots: Roots, d: Disk, id: string, targets: seq<Path>)
    requires HasManifest(d, roots, id)
  {
    forall t | t in targets :: Covers(ManifestOf(d, roots, id), t)
  }

  ghost predicate PendingIs(roots: Roots, d: Disk, pending: PendingPlan) {
    roots.PendingPath() in d.files && d.files[roots.PendingPath()] == PendingFile(pending)
  }

  /** The pending record Phase A leaves for a plan. */
  function PendingFor(home: Path, host: SystemProfile, config: PassthroughConfig, id: string): PendingPlan {
    BuildPendingPlan(PlanFor(home, host, config), host, config, id)
  }

  /** The record on disk is that of an apply with these steps. */
  ghost predicate RecordOnDisk(
    roots: Roots, d: Disk, steps: seq<PlannedStep>, host: SystemProfile, config: PassthroughConfig, id: string)
  {
    var p := roots.PendingPath();
    p in d.files && d.files[p].PendingFile? && Remembers(d.files[p].pending, steps, host, config, id)
  }

  /** The manifest of an applied plan covers its targets, with tidy entries, one for each. */
  lemma AppliedManifest(
    roots: Roots, d: Disk, id: string, plan: Plan, host: SystemProfile, seen: map<Path, Contents>,
    sha: Contents -> Digest)
    requires HasManifest(d, roots, id) && forall t | t in Targets(plan.steps) :: !roots.Protected(t)
    requires HoldsSeen(roots, sha, id, Targets(plan.steps), CaptureManifest(seen, sha, plan, host, id), seen, d)
    ensures TargetsCovered(roots, d, id, Targets(plan.steps)) && Tidy(roots, ManifestOf(d, roots, id))
    ensures |ManifestOf(d, roots, id).entries| == |Targets(plan.steps)|
  {
    hide NoClash, Backs, RestoreActions;
    var m, later, targets := CaptureManifest(seen, sha, plan, host, id), ManifestOf(d, roots, id), Targets(plan.steps);
    CaptureIsTidy(seen, roots, sha, plan, host, id);
    forall t | t in targets ensures Covers(later, t) {
      var i :| 0 <= i < |targets| && targets[i] == t;
      assert m.entries[i].originalPath == t;
      CoversAt(m, i);
      ExtendsCovers(m, later, t);
    }
    forall i | 0 <= i < |later.entries| ensures TidyEntry(roots, later.entries[i]) {
      assert SameCapture(m.entries[i], later.entries[i]) && TidyEntry(roots, m.entries[i]);
    }
  }

  /** What an apply reports: its snapshot, its record, and the steps it has made, in plan order. */
  ghost predicate ApplyReport(outcome: PhaseAOutcome, roots: Roots, steps: seq<PlannedStep>, id: string) {
    && outcome.snapshotId == id && outcome.pendingPlanPath == roots.PendingPath()
    && outcome.completedSteps != [] && outcome.completedSteps[0] == Snapshot
    && Selects(steps, {BootloaderWrite, VfioConfig, InitramfsWrite}, outcome.completedSteps[1..])
  }

  /** The boot loader and the initramfs have been told of the edits the steps make to their files. */
  ghost predicate RegeneratedFor(commands: seq<string>, host: SystemProfile, steps: seq<PlannedStep>) {
    Regenerated(
      commands, host, exists s :: s in steps && s.kind == BootloaderWrite,
      exists s :: s in steps && s.kind == InitramfsWrite)
  }

  lemma ReportIs(
    plan: Plan, roots: Roots, id: string, host: SystemProfile, earlier: seq<string>, before: seq<string>,
    after: seq<string>, regenerate: bool)
    requires earlier <= before <= after
    requires regenerate ==>
      Regenerated(
        after[|before|..], host, BootloaderWrite in EditKinds(plan.steps), InitramfsWrite in EditKinds(plan.steps))
    ensures ApplyReport(
      PhaseAOutcome(id, roots.PendingPath(), [Snapshot] + EditKinds(plan.steps)), roots, plan.steps, id)
    ensures regenerate ==> RegeneratedFor(after[|earlier|..], host, plan.steps)
  {
    hide Regenerated, EditKinds, Selects;
    EditKindsAre(plan.steps);
    assert ([Snapshot] + EditKinds(plan.steps))[1..] == EditKinds(plan.steps);
    if regenerate {
      RegeneratedLater(
        earlier, before, after, after, host, BootloaderWrite in EditKinds(plan.steps),
        InitramfsWrite in EditKinds(plan.steps));
    }
  }

  /** Every edit has left the text its writer makes of what was there before. */
  ghost predicate AllWrote(
    steps: seq<PlannedStep>, host: SystemProfile, config: PassthroughConfig, d: Disk, later: Disk)
  {
    forall s | s in steps && IsEdit(s.kind) :: Wrote(s, host, config, d, later)
  }

  lemma EditsWrote(
    steps: seq<PlannedStep>, host: SystemProfile, config: PassthroughConfig, sha: Contents -> Digest, start: Disk,
    found: Disk, d: Disk, m: SnapshotManifest)
    requires HandsOff(TargetSet(steps), start, found) && AllDone(steps, host, config, sha, found, d, m, true)
    ensures AllWrote(steps, host, config, start, d)
  {
    hide StepText, Wrote;
    forall s | s in steps && IsEdit(s.kind) ensures Wrote(s, host, config, start, d) {
      var j :| 0 <= j < |steps| && steps[j] == s;
      assert EditDone(steps[j], host, config, sha, found, d, m, true);
      TouchIsTarget(steps, j, s.touches[0]);
      assert s.touches[0] in TargetSet(steps);
      WroteLater(s, host, config, start, found, d, d);
    }
  }

  /** Every target can be captured and every planned edit can be made. */
  ghost predicate CanApply(env: Env, host: SystemProfile, config: PassthroughConfig, id: string, d: Disk) {
    PhaseAPossible(PlanFor(env.home, host, config), host, config, env.Roots(), id, d)
  }

  method RunApply(
    fs: FileSystem, env: Env, host: SystemProfile, config: PassthroughConfig, id: string,
    blocked: bool, invalid: bool, regenerate: bool)
    returns (r: Result<PhaseAOutcome, ApplyError>, ghost seen: map<Path, Contents>)
    requires fs.reserved == env.Roots()
    requires FreshId(fs.state, env.Roots(), id) && SuppliedPathsAreHost(env.home, host, config)
    modifies fs
    ensures fs.Advances()
    ensures Applied(env, host, config, id, old(fs.state), fs.state, fs.journal, |old(fs.journal)|, seen)
    ensures r.Success? ==> PendingIs(env.Roots(), fs.state, PendingFor(env.home, host, config, id))
    ensures r.Success? ==>
      RecordOnDisk(env.Roots(), fs.state, StepsFor(env.home, host, config), host, config, id)
    ensures r.Success? ==>
      AllLogged(StepsFor(env.home, host, config), fs.journal, |old(fs.journal)|) &&
        HasManifest(fs.state, env.Roots(), id)
    ensures r.Success? && old(fs.Quiet(TargetSet(StepsFor(env.home, host, config))))
            && DistinctEdits(StepsFor(env.home, host, config)) && (old(fs.Calm()) || host.initramfs != UpdateInitramfs)
            ==> AllWrote(StepsFor(env.home, host, config), host, config, old(fs.state), fs.state)
    ensures r.Success? ==> ApplyReport(r.value, env.Roots(), StepsFor(env.home, host, config), id)
    ensures r.Success? && regenerate ==>
      RegeneratedFor(fs.commands[|old(fs.commands)|..], host, StepsFor(env.home, host, config))
    ensures old(fs.state).Exists(env.Roots().PendingPath()) ==> r == Failure(AlreadyPending)
    ensures blocked || invalid ==> r.Failure? && NothingWritten(fs.journal, |old(fs.journal)|)
    ensures old(fs.Calm()) && old(fs.Quiet(TargetSet(StepsFor(env.home, host, config))))
            && !old(fs.state).Exists(env.Roots().PendingPath()) && !blocked && !invalid
            && CanApply(env, host, config, id, old(fs.state))
            ==> r.Success?
  {
    hide FileSystem.OnRecord, PhaseABounds, PhaseAPossible, BuildPendingPlan, SuppliedPathsAreHost, FreshId, Targets;
    hide TargetSet;
    hide PhaseAPart, PhaseBPart, Merged, SameOwn, Same, Roots.Protected, AllLogged, DistinctEdits, ChangedSince, Logged;
    hide AllDone, WorkableOnceTaken, HandsOff, Remembers, AllWrote, Regenerated, EditKinds, ApplyReport, RegeneratedFor;
    hide StepsFor, PlanFor;
    ghost var exact := fs.Calm() || host.initramfs != UpdateInitramfs;
    seen := map[];
    StepsAre(env.home, host, config);
    ghost var start, n, journal, found, roots := fs.state, |fs.journal|, fs.journal, fs.Found(), env.Roots();
    RootsAreApart(env.home);
    ghost var plan := PlanFor(env.home, host, config);
    ghost var quiet := fs.Quiet(TargetSet(plan.steps));
    BeforePhaseA(roots, env.sha, plan, host, id, start, found, journal);
    var there := fs.Exists(RootsOf(env.home).PendingPath());
    if there {
      return Failure(AlreadyPending), seen;
    }
    var planned := MakePlan(env.home, host, config, blocked, invalid);
    if planned.Failure? {
      return Failure(PlanRefused(planned.error)), seen;
    }
    assert planned.value == plan;
    PlannedTargetsAreHost(env.home, host, config);
    if quiet && PhaseAPossible(plan, host, config, roots, id, start) {
      StillPossible(plan, host, config, roots, id, start, found);
    }
    var ran;
    ghost var commands := fs.commands;
    ran, seen := ExecutePhaseA(fs, RootsOf(env.home), env.sha, planned.value, host, config, id, regenerate);
    BoundsFromEarlier(roots, env.sha, plan, host, id, start, found, fs.state, fs.journal, n, seen);
    match ran {
      case Success(outcome) =>
        AllLoggedSooner(plan.steps, fs.journal, n + 1, n);
        RecordRemembers(plan, host, config, id);
        ReportIs(plan, roots, id, host, old(fs.commands), commands, fs.commands, regenerate);
        if quiet && exact && DistinctEdits(plan.steps) {
          EditsWrote(
            plan.steps, host, config, env.sha, start, found, fs.state, ManifestOf(fs.state, roots, id));
        }
        return Success(outcome), seen;
      case Failure(e) =>
        PendingStays(roots, start, found, fs.state);
        return Failure(PhaseAFailed(e)), seen;
    }
  }

  /** The look at the pending record before anything else. */
  lemma BeforePhaseA(
    roots: Roots, sha: Contents -> Digest, plan: Plan, host: SystemProfile, id: string, start: Disk, found: Disk,
    journal: seq<Event>)
    requires roots.Apart() && SameOwn(roots, start, found) && FreshId(start, roots, id)
    ensures FreshId(found, roots, id) && Same(start, found, roots.PendingPath())
    ensures start.Exists(roots.PendingPath()) <==> found.Exists(roots.PendingPath())
    ensures var more := journal + [Event(found, found, None)];
      && NothingWritten(more, |journal|)
      && PhaseABounds(roots, sha, plan, host, id, start, found, more, |journal|, map[])
  {
    hide CaptureManifest, Targets, Rewrites;
    PendingIsApart(roots, id);
    NoManifestThere(roots, id, start, found);
    OthersKeep(roots, start, found);
    forall p | Under(roots.snapshots, p) && p in found.files ensures p in start.files {
      assert roots.Protected(p);
    }
    assert OwnOutside(roots, roots.SnapshotDir(id), start, found);
  }

  lemma NoManifestThere(roots: Roots, id: string, start: Disk, found: Disk)
    requires SameOwn(roots, start, found) && FreshId(start, roots, id)
    ensures !HasManifest(start, roots, id) && !HasManifest(found, roots, id) && FreshId(found, roots, id)
  {
    assert Under(roots.SnapshotDir(id), roots.ManifestPath(id)) && Under(roots.snapshots, roots.SnapshotDir(id));
    forall p | Under(roots.SnapshotDir(id), p) ensures p !in found.files {
      assert roots.Protected(p);
    }
  }

  lemma PendingStays(roots: Roots, start: Disk, found: Disk, d: Disk)
    requires Same(start, found, roots.PendingPath()) && Same(found, d, roots.PendingPath())
    ensures Same(start, d, roots.PendingPath())
  {
  }

  lemma StillPossible(
    plan: Plan, host: SystemProfile, config: PassthroughConfig, roots: Roots, id: string, start: Disk, found: Disk)
    requires PhaseAPossible(plan, host, config, roots, id, start) && HandsOff(TargetSet(plan.steps), start, found)
    ensures PhaseAPossible(plan, host, config, roots, id, found)
  {
    hide AllEditable, Targets;
    forall t | t in Targets(plan.steps) ensures Same(start, found, t) && (t in found.dirs <==> t in start.dirs) {
      assert t in TargetSet(plan.steps);
    }
    EditableAfterCapture(plan.steps, host, config, start, found);
  }

  /** What the phase did, seen from before the look at the pending record. */
  lemma BoundsFromEarlier(
    roots: Roots, sha: Contents -> Digest, plan: Plan, host: SystemProfile, id: string, start: Disk, found: Disk,
    d: Disk, journal: seq<Event>, n: nat, seen: map<Path, Contents>)
    requires roots.Apart() && SameOwn(roots, start, found) && FreshId(start, roots, id)
    requires n < |journal| && journal[n] == Event(found, found, None)
    requires PhaseABounds(roots, sha, plan, host, id, found, d, journal, n + 1, seen)
    ensures PhaseABounds(roots, sha, plan, host, id, start, d, journal, n, seen)
  {
    hide CaptureManifest, Targets, Rewrites, Keeps, HoldsSeen;
    var targets, m := Targets(plan.steps), CaptureManifest(seen, sha, plan, host, id);
    PendingIsApart(roots, id);
    NoManifestThere(roots, id, start, found);
    OthersKeep(roots, start, found);
    KeepsTransitive(roots, start, found, d);
    forall k | n <= k < |journal|
      ensures SafeEvent(roots, sha, id, targets, m, seen, start, journal[k])
      ensures CheckedWrite(roots, sha, id, journal, n, k)
    {
      if k == n {
        NothingHeld(roots, sha, id, targets, m, seen, found);
      } else {
        assert SafeEvent(roots, sha, id, targets, m, seen, found, journal[k]);
        assert CheckedWrite(roots, sha, id, journal, n + 1, k);
        KeepsTransitive(roots, start, found, journal[k].before);
      }
    }
    OwnFromEarlier(roots, id, start, found, d);
    if HasManifest(d, roots, id) {
      forall t | t in targets ensures SeenFirst(roots, journal, n, seen, t) {
        SeenEarlier(roots, journal, n, seen, t);
      }
    }
  }

  lemma SeenEarlier(roots: Roots, journal: seq<Event>, n: nat, seen: map<Path, Contents>, t: Path)
    requires n < |journal| && journal[n].path.None? && SeenFirst(roots, journal, n + 1, seen, t)
    ensures SeenFirst(roots, journal, n, seen, t)
  {
    var k :| n + 1 <= k < |journal| && Agree(seen, journal[k].before.files, t)
      && forall i | n + 1 <= i < k && journal[i].path.Some? :: roots.Protected(journal[i].path.value);
    assert n <= k < |journal|;
  }

  lemma OwnFromEarlier(roots: Roots, id: string, start: Disk, found: Disk, d: Disk)
    requires SameOwn(roots, start, found)
    ensures AddsOnlyIn(roots, id, found, d) ==> AddsOnlyIn(roots, id, start, d)
    ensures OwnOutside(roots, roots.SnapshotDir(id), found, d) ==> OwnOutside(roots, roots.SnapshotDir(id), start, d)
    ensures (forall p | Under(roots.state, p) && p != roots.PendingPath() :: Same(found, d, p)) ==>
      forall p | Under(roots.state, p) && p != roots.PendingPath() :: Same(start, d, p)
  {
    forall p | roots.Protected(p) ensures Same(found, d, p) ==> Same(start, d, p) {
      assert Same(start, found, p);
    }
    if AddsOnlyIn(roots, id, found, d) {
      forall p | Under(roots.snapshots, p) && !Under(roots.SnapshotDir(id), p) && p in d.files
        ensures p in start.files
      {
        assert roots.Protected(p) && Same(start, found, p);
      }
    }
    if forall p | Under(roots.state, p) && p != roots.PendingPath() :: Same(found, d, p) {
      forall p | Under(roots.state, p) && p != roots.PendingPath() ensures Same(start, d, p) {
        assert roots.Protected(p);
      }
    }
  }

  // ----- resume -----

  /** The pending record on disk, if there is one, can be executed and will not be refused. */
  ghost predicate PendingOk(roots: Roots, d: Disk) {
    forall pending | PendingIs(roots, d, pending) :: PendingPlanOk(roots, d, pending)
  }

  ghost predicate PendingPlanOk(roots: Roots, d: Disk, pending: PendingPlan) {
    && HasManifest(d, roots, pending.snapshotId)
    && (forall s | s in pending.remainingSteps :: !IsPhaseA(s.kind))
    && forall s, p | s in pending.remainingSteps && p in StepPaths(pending.config, s) ::
         !roots.Protected(p) && Covers(ManifestOf(d, roots, pending.snapshotId), p)
  }

  /** The steps of the pending record on disk, if there is one, write host files only. */
  ghost predicate PendingWritesHost(roots: Roots, d: Disk) {
    forall pending, s, p | PendingIs(roots, d, pending)
        && s in pending.remainingSteps && p in StepPaths(pending.config, s) ::
      !roots.Protected(p)
  }

  lemma PendingOkIsResumable(roots: Roots, d: Disk, job: Job)
    requires PendingPlanOk(roots, d, job.pending) && job.roots == roots
    ensures Resumable(job, d) && WritesHostOnly(job)
    ensures forall s | s in job.pending.remainingSteps :: !IsPhaseA(s.kind)
  {
  }

  /** Phase A took effect on the host the record was made for. */
  ghost predicate Landed(profile: SystemProfile, pending: PendingPlan) {
    SameHost(profile, pending.fingerprint) && forall v :: !Observed(profile, pending, v)
  }

  /** `resume` on a host detected as `profile`, however far it got and whatever others did meanwhile. */
  ghost predicate Resumed(
    env: Env, profile: SystemProfile, mode: Mode, d: Disk, later: Disk, journal: seq<Event>, n: nat)
  {
    || (NothingWritten(journal, n) && OwnFiles(env.Roots(), d, later))
    || (exists pending, r :: PendingIs(env.Roots(), d, pending) && Landed(profile, pending)
          && Executed(Job(env.Roots(), pending, profile, mode), d, later, r)
          && GuardedSince(Job(env.Roots(), pending, profile, mode), d, journal, n))
  }

  datatype ResumeError = NothingPending | NotResumable(readiness: ResumeReadiness) | PhaseBFailed(error: Error)

  /** Phase A took effect, and nothing stands in the way of the remaining steps. */
  ghost predicate CanResume(env: Env, profile: SystemProfile, mode: Mode, d: Disk) {
    exists pending :: PendingIs(env.Roots(), d, pending) && Landed(profile, pending)
      && HasManifest(d, env.Roots(), pending.snapshotId)
      && AllRunnable(
           Job(env.Roots(), pending, profile, mode), env.sha, d, ManifestOf(d, env.Roots(), pending.snapshotId))
  }

  /** The job a `resume` works on, if the record can be read and is for this host. */
  ghost function JobOn(env: Env, profile: SystemProfile, mode: Mode, d: Disk): Option<Job> {
    var p := env.Roots().PendingPath();
    if p in d.files && d.files[p].PendingFile? then
      Some(Job(env.Roots(), d.files[p].pending, profile, mode))
    else
      None
  }

  /** Nothing happens around the record that is pending: see `Steered`. */
  ghost predicate SteeredPending(fs: FileSystem, env: Env, profile: SystemProfile, mode: Mode)
    reads fs
  {
    JobOn(env, profile, mode, fs.state).Some? ==> Steered(fs, JobOn(env, profile, mode, fs.state).value)
  }

  /** `from` is the disk Phase B started from: the records are those at the beginning. */
  method RunResume(fs: FileSystem, env: Env, profile: SystemProfile, mode: Mode)
    returns (r: Result<PhaseBOutcome, ResumeError>, ghost from: Disk)
    requires fs.reserved == env.Roots() && PendingWritesHost(env.Roots(), fs.state)
    modifies fs
    ensures fs.Advances() && OwnFiles(env.Roots(), old(fs.state), from)
    ensures Resumed(env, profile, mode, old(fs.state), fs.state, fs.journal, |old(fs.journal)|)
    ensures PendingOk(env.Roots(), old(fs.state)) && r.Failure? && r.error.PhaseBFailed? ==> !r.error.error.Refused?
    ensures r.Failure? && !r.error.PhaseBFailed? ==>
      NothingWritten(fs.journal, |old(fs.journal)|) && OwnFiles(env.Roots(), old(fs.state), fs.state)
    ensures r.Success? ==> env.Roots().PendingPath() !in fs.state.files
    ensures r.Failure? && r.error.NotResumable? ==>
      && JobOn(env, profile, mode, old(fs.state)).Some? && !r.error.readiness.Ready?
      && IsVerdict(profile, JobOn(env, profile, mode, old(fs.state)).value.pending, r.error.readiness)
    ensures r.Success? ==>
      && JobOn(env, profile, mode, old(fs.state)).Some?
      && IsVerdict(profile, JobOn(env, profile, mode, old(fs.state)).value.pending, Ready)
    ensures r.Success? ==>
      ResumeReport(
        JobOn(env, profile, mode, old(fs.state)).value.pending, old(fs.state), env.Roots(), r.value)
    ensures old(fs.Calm()) && JobOn(env, profile, mode, old(fs.state)).Some? ==>
      (r.Failure? && r.error.NotResumable?
       <==> !IsVerdict(profile, JobOn(env, profile, mode, old(fs.state)).value.pending, Ready))
    ensures !old(fs.state).Exists(env.Roots().PendingPath()) ==> r == Failure(NothingPending)
    ensures r.Success? && old(SteeredPending(fs, env, profile, mode)) ==>
      && JobOn(env, profile, mode, old(fs.state)).Some?
      && Ran(JobOn(env, profile, mode, old(fs.state)).value, env.sha, from, fs.state, Success(r.value))
    ensures old(fs.Calm()) && old(SteeredPending(fs, env, profile, mode))
            && CanResume(env, profile, mode, old(fs.state))
            ==> r.Success?
  {
    hide FileSystem.OnRecord, Executed, Resumable, Merged, SameOwn, OwnFiles, Ran, GuardedSince, PendingWritesHost;
    hide PendingOk, Same, Scope;
    hide WritesHostOnly, AllRunnable, HandsOff, Inputs, SameHost, Observed, IsVerdict;
    hide ResumeReport;
    ghost var start, journal, first := fs.state, fs.journal, fs.Found();
    ghost var second := fs.Others(fs.ops + 1, first);
    from := start;
    var roots, pendingPath := RootsOf(env.home), RootsOf(env.home).PendingPath();
    RootsAreApart(env.home);
    RecordStays(roots, start, first);
    RecordStays(roots, first, second);
    OwnFilesStart(roots, start);
    OwnFilesMore(roots, start, first, second);
    var there := fs.Exists(pendingPath);
    assert fs.journal == journal + [Event(first, first, None)];
    if !there {
      return Failure(NothingPending), from;
    }
    var raw := fs.Read(pendingPath);
    assert fs.journal == journal + [Event(first, first, None), Event(second, second, None)];
    if raw.Failure? {
      return Failure(PhaseBFailed(raw.error)), from;
    }
    if !raw.value.PendingFile? {
      return Failure(PhaseBFailed(Io(pendingPath, InvalidData))), from;
    }
    var pending := raw.value.pending;
    var readiness := VerifyPhaseALanded(profile, pending);
    VerdictIs(profile, pending, readiness);
    OneVerdict(profile, pending, readiness);
    if !readiness.Ready? {
      return Failure(NotResumable(readiness)), from;
    }
    from := second;
    var job := Job(roots, pending, profile, mode);
    assert PendingIs(roots, start, pending) && JobOn(env, profile, mode, start) == Some(job);
    JobWritesHost(roots, start, job);
    ghost var known := Scope(job) + Inputs(job);
    ResumableStays(job, start, second);
    if old(Steered(fs, job)) {
      HandsOffTwice(known, start, first, second);
      RunnableStays(job, env.sha, start, second);
    }
    ghost var read := fs.journal;
    var ran := ExecutePhaseB(fs, env.sha, job);
    ExecutedSooner(job, start, second, fs.state, ran);
    GuardedSooner(job, start, second, journal, read, fs.journal);
    ExecutedFacts(job, start, fs.state, ran);
    match ran {
      case Success(outcome) => return Success(outcome), from;
      case Failure(e) => return Failure(PhaseBFailed(e)), from;
    }
  }

  lemma RecordStays(roots: Roots, d: Disk, found: Disk)
    requires SameOwn(roots, d, found)
    ensures OwnFiles(roots, d, found) && Same(d, found, roots.PendingPath())
    ensures d.Exists(roots.PendingPath()) <==> found.Exists(roots.PendingPath())
    ensures roots.PendingPath() in d.files <==> roots.PendingPath() in found.files
    ensures roots.PendingPath() in d.files ==> found.files[roots.PendingPath()] == d.files[roots.PendingPath()]
  {
    assert Under(roots.state, roots.PendingPath()) && roots.Protected(roots.PendingPath());
  }

  lemma OwnFilesStart(roots: Roots, d: Disk)
    ensures OwnFiles(roots, d, d)
  {
  }

  lemma JobWritesHost(roots: Roots, d: Disk, job: Job)
    requires job.roots == roots && PendingIs(roots, d, job.pending)
    ensures PendingWritesHost(roots, d) ==> WritesHostOnly(job)
    ensures PendingOk(roots, d) ==> forall s | s in job.pending.remainingSteps :: !IsPhaseA(s.kind)
  {
    hide StepPaths;
  }

  lemma ResumableStays(job: Job, d: Disk, later: Disk)
    requires OwnFiles(job.roots, d, later)
    ensures HasManifest(d, job.roots, job.pending.snapshotId) <==> HasManifest(later, job.roots, job.pending.snapshotId)
    ensures HasManifest(d, job.roots, job.pending.snapshotId) ==>
      ManifestOf(later, job.roots, job.pending.snapshotId) == ManifestOf(d, job.roots, job.pending.snapshotId)
    ensures Resumable(job, d) <==> Resumable(job, later)
  {
    hide StepPaths;
    assert Under(job.roots.snapshots, job.roots.ManifestPath(job.pending.snapshotId));
    assert Same(d, later, job.roots.ManifestPath(job.pending.snapshotId));
  }

  lemma HandsOffTwice(known: set<Path>, a: Disk, b: Disk, c: Disk)
    requires HandsOff(known, a, b) && HandsOff(known, b, c)
    ensures HandsOff(known, a, c)
  {
    forall p | p in known ensures Same(a, c, p) {
      SameTransitive(a, b, c, p);
    }
  }

  /** While others leave alone what a job is about, it stays as runnable as it was. */
  lemma RunnableStays(job: Job, sha: Contents -> Digest, d: Disk, later: Disk)
    requires OwnFiles(job.roots, d, later) && HandsOff(Scope(job) + Inputs(job), d, later) && Resumable(job, d)
    ensures HasManifest(later, job.roots, job.pending.snapshotId)
    ensures AllRunnable(job, sha, d, ManifestOf(d, job.roots, job.pending.snapshotId)) ==>
      AllRunnable(job, sha, later, ManifestOf(later, job.roots, job.pending.snapshotId))
  {
    hide StepWrites, WriteAllowed, StepPaths, HasXmlEntry;
    ResumableStays(job, d, later);
    var m := ManifestOf(d, job.roots, job.pending.snapshotId);
    if AllRunnable(job, sha, d, m) {
      forall s | s in job.pending.remainingSteps
        ensures Runnable(job, s, later, m) && Permitted(job, s, sha, later, m)
      {
        WritesInScope(job, s);
        forall w | w in StepWrites(job, s)
          ensures WriteAllowed(d, sha, m, w.path) <==> WriteAllowed(later, sha, m, w.path)
        {
          assert Same(d, later, w.path);
          SamePermission(d, later, sha, m, w.path);
        }
        if job.Config().disk.Existing? {
          assert Same(d, later, job.Config().disk.path);
        }
      }
    }
  }

  lemma ExecutedSooner(job: Job, start: Disk, found: Disk, later: Disk, r: Result<PhaseBOutcome, Error>)
    requires job.roots.Apart() && OwnFiles(job.roots, start, found) && Executed(job, found, later, r)
    ensures Executed(job, start, later, r)
  {
    hide Keeps, Rewrites, Resumable;
    var roots := job.roots;
    PendingIsApart(roots, job.pending.snapshotId);
    ResumableStays(job, start, found);
    OwnFilesKeep(roots, start, found);
    KeepsTransitive(roots, start, found, later);
    forall p | Under(roots.state, p) ensures Same(start, found, p) {
      assert roots.Protected(p);
    }
    forall p | Under(roots.state, p) && p != roots.PendingPath() ensures Same(start, later, p) {
      SameTransitive(start, found, later, p);
    }
    if r.Failure? {
      SameTransitive(start, found, later, roots.PendingPath());
    }
  }

  lemma OwnFilesKeep(roots: Roots, d: Disk, later: Disk)
    requires OwnFiles(roots, d, later)
    ensures Keeps(roots, d, later) && AddsNothing(roots, d, later)
  {
    forall p | Under(roots.snapshots, p) ensures Same(d, later, p) {
      assert roots.Protected(p);
    }
  }

  lemma GuardedSooner(
    job: Job, start: Disk, found: Disk, journal: seq<Event>, read: seq<Event>, more: seq<Event>)
    requires journal <= read <= more && OwnFiles(job.roots, start, found)
    requires forall k | |journal| <= k < |read| :: read[k].path.None? && OwnFiles(job.roots, start, read[k].before)
    requires GuardedSince(job, found, more, |read|)
    ensures GuardedSince(job, start, more, |journal|)
  {
    hide Keeps, Resumable, Scope;
    ResumableStays(job, start, found);
    OwnFilesKeep(job.roots, start, found);
    forall k | |journal| <= k < |more| ensures GuardedEvent(job, start, more[k]) {
      if k < |read| {
        assert more[k] == read[k];
        OwnFilesKeep(job.roots, start, read[k].before);
      } else {
        assert GuardedEvent(job, found, more[k]);
        KeepsTransitive(job.roots, start, found, more[k].before);
      }
    }
  }

  lemma ExecutedFacts(job: Job, d: Disk, later: Disk, r: Result<PhaseBOutcome, Error>)
    requires Executed(job, d, later, r)
    ensures r.Failure? && r.error.Refused? ==> exists s :: s in job.pending.remainingSteps && IsPhaseA(s.kind)
    ensures r.Success? ==> job.roots.PendingPath() !in later.files
    ensures r.Success? ==> ResumeReport(job.pending, d, job.roots, r.value)
  {
    hide ResumeReport, Finished;
    if r.Success? {
      FinishedReport(job, d, later, r.value);
      FinishedClears(job, d, later, r.value);
    }
  }

  lemma FinishedClears(job: Job, d: Disk, later: Disk, outcome: PhaseBOutcome)
    requires Finished(job, d, later, outcome)
    ensures job.roots.PendingPath() !in later.files
  {
  }

  // ----- rollback -----

  /** `rollback` to snapshot `id`, however far it got and whatever others did meanwhile. */
  ghost predicate RolledBackTo(env: Env, id: string, d: Disk, later: Disk, journal: seq<Event>, n: nat) {
    var roots := env.Roots();
    if HasManifest(d, roots, id) then
      && RestoringSince(roots, env.sha, id, ManifestOf(d, roots, id).entries, journal, n)
      && (HostEntries(roots, ManifestOf(d, roots, id).entries) ==> OwnFiles(roots, d, later))
    else
      NothingWritten(journal, n) && OwnFiles(roots, d, later)
  }

  method RunRollback(fs: FileSystem, env: Env, id: string) returns (r: Result<RestoreSummary, Error>)
    requires fs.reserved == env.Roots()
    modifies fs
    ensures fs.Advances()
    ensures RolledBackTo(env, id, old(fs.state), fs.state, fs.journal, |old(fs.journal)|)
    ensures r.Success? ==>
      && HasManifest(old(fs.state), env.Roots(), id)
      && var entries := ManifestOf(old(fs.state), env.Roots(), id).entries;
         SettledSoFar(env.sha, entries, |entries|, fs.journal, |old(fs.journal)|)
    ensures r.Success? ==>
      var m := ManifestOf(old(fs.state), env.Roots(), id);
      Reported(r.value, id, m, |m.entries|, fs.journal, |old(fs.journal)|)
    ensures old(fs.Idle() && fs.Calm()) && HasManifest(old(fs.state), env.Roots(), id)
            && CanRollBack(
                 old(fs.state), env.Roots(), env.sha, id, ManifestOf(old(fs.state), env.Roots(), id).entries)
            ==> r.Success?
    ensures old(fs.Idle()) && r.Success? ==>
      fs.state.files == Restored(
        old(fs.state).files, env.Roots(), env.sha, id, ManifestOf(old(fs.state), env.Roots(), id).entries)
  {
    hide FileSystem.OnRecord, RestoringSince, SettledSoFar, HostEntries, CanRollBack, Reported;
    ghost var start := fs.state;
    ghost var done;
    r, done := Rollback(fs, RootsOf(env.home), env.sha, id);
    if HasManifest(start, env.Roots(), id) {
      var entries := ManifestOf(start, env.Roots(), id).entries;
      assert entries[..|entries|] == entries;
    }
  }
}
