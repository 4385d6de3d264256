/** Whole histories: any number of commands, stopped anywhere, with others at work before and between all operations. */
module Runs {
  import opened Wrappers
  import opened Paths
  import opened Records
  import opened Manifest
  import opened Store
  import opened Layout
  import opened Capture
  import opened Session
  import opened Restore
  import opened Planner
  import opened PhaseA
  import opened PhaseBInstall
  import opened PhaseB
  import opened Commands

  /** `Elsewhere` is anything other programs and users do outside Virtu's own directories. */
  datatype Action =
    | Apply(host: SystemProfile, config: PassthroughConfig, id: string)
    | ResumeOn(profile: SystemProfile, mode: Mode)
    | RollbackTo(snapshot: string)
    | Elsewhere

  /** An action with its operations, those of `journal` from `start` on, and, for an apply, what its capture saw. */
  datatype Deed = Deed(action: Action, journal: seq<Event>, start: nat, seen: map<Path, Contents>)

  /** What a deed may make of the disk. A plan's supplied paths must be host paths, and its snapshot id fresh. */
  ghost predicate Moves(env: Env, deed: Deed, d: Disk, later: Disk) {
    match deed.action
    case Apply(host, config, id) =>
      && Chained(env.Roots(), d, deed.journal, deed.start, later)
      && FreshId(d, env.Roots(), id) && SuppliedPathsAreHost(env.home, host, config)
      && Applied(env, host, config, id, d, later, deed.journal, deed.start, deed.seen)
    case ResumeOn(profile, mode) =>
      && Chained(env.Roots(), d, deed.journal, deed.start, later)
      && Resumed(env, profile, mode, d, later, deed.journal, deed.start)
    case RollbackTo(id) =>
      && Chained(env.Roots(), d, deed.journal, deed.start, later)
      && RolledBackTo(env, id, d, later, deed.journal, deed.start)
    case Elsewhere => deed.start == |deed.journal| && OwnFiles(env.Roots(), d, later)
  }

  ghost predicate ManifestsTidy(env: Env, d: Disk) {
    forall id | HasManifest(d, env.Roots(), id) :: Tidy(env.Roots(), ManifestOf(d, env.Roots(), id))
  }

  /** Every manifest on disk is tidy, and a pending record can be executed. */
  ghost predicate Sound(env: Env, d: Disk) {
    ManifestsTidy(env, d) && PendingOk(env.Roots(), d)
  }

  // ----- each action keeps the invariant, and every snapshot -----

  lemma ManifestsStayTidy(env: Env, d: Disk, later: Disk)
    requires ManifestsTidy(env, d) && Keeps(env.Roots(), d, later) && AddsNothing(env.Roots(), d, later)
    ensures ManifestsTidy(env, later)
  {
    forall id | HasManifest(later, env.Roots(), id) ensures Tidy(env.Roots(), ManifestOf(later, env.Roots(), id)) {
      var p := env.Roots().ManifestPath(id);
      assert Under(env.Roots().snapshots, p) && p in d.files;
      assert HasManifest(d, env.Roots(), id);
      TidyKept(env.Roots(), d, later, id);
    }
  }

  lemma PendingPlanStaysOk(roots: Roots, d: Disk, later: Disk, pending: PendingPlan)
    requires PendingPlanOk(roots, d, pending) && Keeps(roots, d, later)
    ensures PendingPlanOk(roots, later, pending)
  {
    hide StepPaths;
    KeepsManifest(roots, d, later, pending.snapshotId);
    var m, n := ManifestOf(d, roots, pending.snapshotId), ManifestOf(later, roots, pending.snapshotId);
    forall s, p | s in pending.remainingSteps && p in StepPaths(pending.config, s) ensures Covers(n, p) {
      ExtendsCovers(m, n, p);
    }
  }

  /** With the pending record as it was, or gone, the invariant of the record carries over. */
  lemma PendingStaysOk(env: Env, d: Disk, later: Disk)
    requires PendingOk(env.Roots(), d) && Keeps(env.Roots(), d, later)
    requires Same(d, later, env.Roots().PendingPath()) || env.Roots().PendingPath() !in later.files
    ensures PendingOk(env.Roots(), later)
  {
    hide PendingPlanOk, Keeps;
    forall pending | PendingIs(env.Roots(), later, pending) ensures PendingPlanOk(env.Roots(), later, pending) {
      assert PendingIs(env.Roots(), d, pending);
      PendingPlanStaysOk(env.Roots(), d, later, pending);
    }
  }

  /** A disk that has the same records. */
  lemma SameRecordsKeep(env: Env, d: Disk, later: Disk)
    requires OwnFiles(env.Roots(), d, later)
    ensures Keeps(env.Roots(), d, later) && AddsNothing(env.Roots(), d, later)
    ensures Same(d, later, env.Roots().PendingPath())
  {
    RootsAreApart(env.home);
    PendingIsApart(env.Roots(), "");
    OwnFilesKeep(env.Roots(), d, later);
  }

  lemma RollbackLeavesRecords(env: Env, id: string, d: Disk, later: Disk, journal: seq<Event>, n: nat)
    requires ManifestsTidy(env, d) && RolledBackTo(env, id, d, later, journal, n)
    ensures OwnFiles(env.Roots(), d, later)
  {
    if HasManifest(d, env.Roots(), id) {
      TidyIsHost(env, d, id);
    }
  }

  lemma TidyIsHost(env: Env, d: Disk, id: string)
    requires ManifestsTidy(env, d) && HasManifest(d, env.Roots(), id)
    ensures HostEntries(env.Roots(), ManifestOf(d, env.Roots(), id).entries)
  {
    var m := ManifestOf(d, env.Roots(), id);
    assert Tidy(env.Roots(), m);
    forall i | 0 <= i < |m.entries| ensures !env.Roots().Protected(m.entries[i].originalPath) {
      assert TidyEntry(env.Roots(), m.entries[i]);
    }
  }

  lemma ResumeKeeps(
    env: Env, profile: SystemProfile, mode: Mode, d: Disk, later: Disk, journal: seq<Event>, n: nat)
    requires Resumed(env, profile, mode, d, later, journal, n)
    ensures Keeps(env.Roots(), d, later) && AddsNothing(env.Roots(), d, later)
    ensures Same(d, later, env.Roots().PendingPath()) || env.Roots().PendingPath() !in later.files
  {
    hide Keeps, AddsNothing, Rewrites, Resumable;
    if OwnFiles(env.Roots(), d, later) {
      SameRecordsKeep(env, d, later);
    } else {
      var pending, r :| PendingIs(env.Roots(), d, pending)
        && Executed(Job(env.Roots(), pending, profile, mode), d, later, r);
      assert Safe(Job(env.Roots(), pending, profile, mode), d, later);
    }
  }

  lemma KeepsItself(roots: Roots, d: Disk)
    ensures Keeps(roots, d, d) && AddsNothing(roots, d, d)
  {
  }

  lemma TargetsAreHost(env: Env, host: SystemProfile, config: PassthroughConfig)
    requires SuppliedPathsAreHost(env.home, host, config)
    ensures forall t | t in Targets(PlanFor(env.home, host, config).steps) :: !env.Roots().Protected(t)
  {
    hide Targets, PhaseAPart, PhaseBPart;
    PlannedTargetsAreHost(env.home, host, config);
  }

  lemma ApplyKeepsTidy(
    env: Env, host: SystemProfile, config: PassthroughConfig, deed: Deed, id: string, d: Disk, later: Disk)
    requires deed.action == Apply(host, config, id) && ManifestsTidy(env, d) && Moves(env, deed, d, later)
    ensures ManifestsTidy(env, later)
  {
    hide Targets, CaptureManifest, SafeEvent, CheckedWrite, Keeps, AddsOnlyIn, SeenAt, SuppliedPathsAreHost, FreshId;
    hide HoldsSeen;
    var roots := env.Roots();
    TargetsAreHost(env, host, config);
    forall other | HasManifest(later, roots, other) ensures Tidy(roots, ManifestOf(later, roots, other)) {
      if other == id {
        AppliedManifest(roots, later, id, PlanFor(env.home, host, config), host, deed.seen, env.sha);
      } else {
        OtherManifest(roots, id, other, d, later);
        TidyKept(roots, d, later, other);
      }
    }
  }

  lemma OtherManifest(roots: Roots, id: string, other: string, d: Disk, later: Disk)
    requires other != id && Keeps(roots, d, later) && AddsOnlyIn(roots, id, d, later) &&
      HasManifest(later, roots, other)
    ensures HasManifest(d, roots, other)
  {
    var p := roots.ManifestPath(other);
    assert Under(roots.snapshots, p) && p[|roots.snapshots|] == other && roots.SnapshotDir(id)[|roots.snapshots|] == id;
  }

  /** The record Phase A writes can be executed: it lists Phase-B steps only, and the snapshot covers them. */
  lemma NewPendingIsOk(env: Env, host: SystemProfile, config: PassthroughConfig, id: string, d: Disk)
    requires SuppliedPathsAreHost(env.home, host, config) && HasManifest(d, env.Roots(), id)
    requires TargetsCovered(env.Roots(), d, id, Targets(StepsFor(env.home, host, config)))
    ensures PendingPlanOk(env.Roots(), d, PendingFor(env.home, host, config, id))
  {
    hide PhaseAPart, PhaseBPart, Targets, SuppliedPathsAreHost, PhaseBSteps, StepsFor, StepPaths;
    var steps := StepsFor(env.home, host, config);
    var a, b := PhaseAPart(env.home, host, config), PhaseBPart(env.home, host, config);
    StepsAre(env.home, host, config);
    PlanSplits(env.home, host, config, a, b);
    PlannedStepsAreDeclared(env.home, host, config);
    PlannedTargetsAreHost(env.home, host, config);
    PartKinds(env.home, host, config);
    forall s, p | s in b && p in StepPaths(config, s)
      ensures !env.Roots().Protected(p) && Covers(ManifestOf(d, env.Roots(), id), p)
    {
      assert Declared(config, s) && p in s.touches;
      var i :| 0 <= i < |b| && b[i] == s;
      assert steps[|a| + i] == s;
      TouchIsTarget(steps, |a| + i, p);
    }
  }

  lemma ApplyKeepsPending(
    env: Env, host: SystemProfile, config: PassthroughConfig, deed: Deed, id: string, d: Disk, later: Disk)
    requires deed.action == Apply(host, config, id) && PendingOk(env.Roots(), d) && Moves(env, deed, d, later)
    ensures PendingOk(env.Roots(), later) && Keeps(env.Roots(), d, later)
  {
    hide Targets, CaptureManifest, SafeEvent, CheckedWrite, Keeps, AddsOnlyIn, SeenAt, SuppliedPathsAreHost, FreshId;
    hide HoldsSeen, PendingFor, StepsFor, PendingPlanOk;
    var roots := env.Roots();
    if Same(d, later, roots.PendingPath()) {
      PendingStaysOk(env, d, later);
    } else {
      TargetsAreHost(env, host, config);
      AppliedManifest(roots, later, id, PlanFor(env.home, host, config), host, deed.seen, env.sha);
      NewPendingIsOk(env, host, config, id, later);
      forall pending | PendingIs(roots, later, pending) ensures PendingPlanOk(roots, later, pending) {
        assert PendingIs(roots, later, PendingFor(env.home, host, config, id));
      }
    }
  }

  /** Every action keeps every snapshot and the invariant, whatever others do during it. */
  lemma ActionKeepsSound(env: Env, deed: Deed, d: Disk, later: Disk)
    requires Sound(env, d) && Moves(env, deed, d, later)
    ensures Sound(env, later) && Keeps(env.Roots(), d, later)
  {
    hide Keeps, AddsNothing, ManifestsTidy, PendingOk, Applied, Resumed, RolledBackTo, FreshId, SuppliedPathsAreHost;
    hide Chained, OwnFiles;
    match deed.action
    case Apply(host, config, id) =>
      ApplyKeepsTidy(env, host, config, deed, id, d, later);
      ApplyKeepsPending(env, host, config, deed, id, d, later);
    case ResumeOn(profile, mode) =>
      ResumeKeeps(env, profile, mode, d, later, deed.journal, deed.start);
      ManifestsStayTidy(env, d, later);
      PendingStaysOk(env, d, later);
    case RollbackTo(id) =>
      RollbackLeavesRecords(env, id, d, later, deed.journal, deed.start);
      SameRecordsKeep(env, d, later);
      ManifestsStayTidy(env, d, later);
      PendingStaysOk(env, d, later);
    case Elsewhere =>
      SameRecordsKeep(env, d, later);
      ManifestsStayTidy(env, d, later);
      PendingStaysOk(env, d, later);
  }

  // ----- histories -----

  ghost predicate History(env: Env, disks: seq<Disk>, deeds: seq<Deed>) {
    && |disks| == |deeds| + 1
    && forall i | 0 <= i < |deeds| :: Moves(env, deeds[i], disks[i], disks[i + 1])
  }

  /** Before Virtu has written anything the invariant holds. */
  lemma NothingThereIsSound(env: Env, d: Disk)
    requires forall p | p in d.files :: !env.Roots().Protected(p)
    ensures Sound(env, d)
  {
    RootsAreApart(env.home);
    PendingIsApart(env.Roots(), "");
    forall id ensures !HasManifest(d, env.Roots(), id) {
      assert Under(env.Roots().snapshots, env.Roots().ManifestPath(id));
    }
  }

  /**
   * Over any history, at every point: every manifest on disk is tidy, a pending record is
   * executable, and snapshots once taken are still there with only legitimate additions.
   */
  lemma AlwaysSound(env: Env, disks: seq<Disk>, deeds: seq<Deed>, i: nat, k: nat)
    requires History(env, disks, deeds) && Sound(env, disks[0]) && i <= k < |disks|
    ensures Sound(env, disks[i]) && Sound(env, disks[k])
    ensures Keeps(env.Roots(), disks[i], disks[k])
    decreases k
  {
    hide Keeps, Sound, Moves;
    if k == 0 {
      KeepsItself(env.Roots(), disks[0]);
    } else {
      AlwaysSound(env, disks, deeds, if i < k then i else 0, k - 1);
      ActionKeepsSound(env, deeds[k - 1], disks[k - 1], disks[k]);
      if i < k {
        KeepsTransitive(env.Roots(), disks[i], disks[k - 1], disks[k]);
      } else {
        KeepsItself(env.Roots(), disks[k]);
      }
    }
  }

  // ----- inside a deed -----

  /** As long as only host files have been written, the records are those of the start. */
  lemma OwnUntil(roots: Roots, start: Disk, journal: seq<Event>, n: nat, k: nat, d: Disk)
    requires Chained(roots, start, journal, n, d) && n <= k < |journal|
    requires forall i | n <= i < k && journal[i].path.Some? :: !roots.Protected(journal[i].path.value)
    ensures OwnFiles(roots, start, journal[k].before)
  {
    hide Same, Local;
    forall p | roots.Protected(p) ensures Same(start, journal[k].before, p) {
      assert forall i | n <= i <= k :: OwnFiles(roots, Left(start, journal, n, i), journal[i].before);
      UnchangedUpTo(start, journal, n, k, p);
    }
  }

  lemma RestoringIsHost(
    roots: Roots, sha: Contents -> Digest, id: string, entries: seq<SnapshotEntry>, journal: seq<Event>, n: nat)
    requires RestoringSince(roots, sha, id, entries, journal, n) && HostEntries(roots, entries)
    ensures forall k | n <= k < |journal| && journal[k].path.Some? :: !roots.Protected(journal[k].path.value)
  {
    forall k | n <= k < |journal| && journal[k].path.Some? ensures !roots.Protected(journal[k].path.value) {
      var i :| 0 <= i < |entries| && Restoring(roots, sha, id, entries[i], journal[k]);
    }
  }

  /** Every operation of every action finds every snapshot kept. */
  lemma OperationKeeps(env: Env, deed: Deed, d: Disk, later: Disk, k: nat)
    requires Sound(env, d) && Moves(env, deed, d, later) && deed.start <= k < |deed.journal|
    ensures Keeps(env.Roots(), d, deed.journal[k].before)
  {
    hide Keeps, FreshId, SuppliedPathsAreHost, Targets, CaptureManifest, HoldsSeen, Executed, Restoring, Chained;
    var roots, journal, n := env.Roots(), deed.journal, deed.start;
    match deed.action
    case Apply(host, config, id) =>
      var plan := PlanFor(env.home, host, config);
      assert SafeEvent(
        roots, env.sha, id, Targets(plan.steps), CaptureManifest(deed.seen, env.sha, plan, host, id), deed.seen, d,
        journal[k]);
    case ResumeOn(profile, mode) =>
      if NothingWritten(journal, n) {
        OwnUntil(roots, d, journal, n, k, later);
        OwnFilesKeep(roots, d, journal[k].before);
      } else {
        var pending, r :| PendingIs(roots, d, pending)
          && Executed(Job(roots, pending, profile, mode), d, later, r)
          && GuardedSince(Job(roots, pending, profile, mode), d, journal, n);
        assert GuardedEvent(Job(roots, pending, profile, mode), d, journal[k]);
      }
    case RollbackTo(id) =>
      if HasManifest(d, roots, id) {
        TidyIsHost(env, d, id);
        RestoringIsHost(roots, env.sha, id, ManifestOf(d, roots, id).entries, journal, n);
      }
      OwnUntil(roots, d, journal, n, k, later);
      OwnFilesKeep(roots, d, journal[k].before);
    case Elsewhere =>
      assert false;
  }

  /**
   * A snapshot that can be restored from at some point can be restored from at every later point and
   * at every operation in between, whoever acts and wherever an action stops.
   */
  lemma AlwaysRestorable(env: Env, disks: seq<Disk>, deeds: seq<Deed>, i: nat, k: nat, id: string)
    requires History(env, disks, deeds) && Sound(env, disks[0]) && i <= k < |disks|
    requires HasManifest(disks[i], env.Roots(), id) && Restorable(disks[i], env.Roots(), env.sha, id)
    ensures HasManifest(disks[k], env.Roots(), id) && Restorable(disks[k], env.Roots(), env.sha, id)
    ensures k < |deeds| ==> forall j | deeds[k].start <= j < |deeds[k].journal| ::
      var d := deeds[k].journal[j].before;
      HasManifest(d, env.Roots(), id) && Restorable(d, env.Roots(), env.sha, id)
  {
    hide Keeps, Sound, Moves, Restorable;
    AlwaysSound(env, disks, deeds, i, k);
    RestorableKept(env.Roots(), env.sha, disks[i], disks[k], id);
    if k < |deeds| {
      forall j | deeds[k].start <= j < |deeds[k].journal|
        ensures var d := deeds[k].journal[j].before;
          HasManifest(d, env.Roots(), id) && Restorable(d, env.Roots(), env.sha, id)
      {
        OperationKeeps(env, deeds[k], disks[k], disks[k + 1], j);
        RestorableKept(env.Roots(), env.sha, disks[k], deeds[k].journal[j].before, id);
      }
    }
  }

  // ----- the rollback theorem -----

  /** Where others left a target alone, what an apply saw of it is what was there before the apply. */
  lemma SeenIsEarlier(
    env: Env, host: SystemProfile, config: PassthroughConfig, deed: Deed, id: string, d: Disk, later: Disk,
    target: Path)
    requires deed.action == Apply(host, config, id) && Moves(env, deed, d, later)
    requires HasManifest(later, env.Roots(), id) && target in Targets(PlanFor(env.home, host, config).steps)
    requires LeftAlone(d, deed.journal, deed.start, |deed.journal|, target)
    ensures Agree(deed.seen, d.files, target)
  {
    hide Targets, SafeEvent, CheckedWrite, HoldsSeen, Keeps, AddsOnlyIn, CaptureManifest, SuppliedPathsAreHost, FreshId;
    hide Local;
    TargetsAreHost(env, host, config);
    var journal, n := deed.journal, deed.start;
    assert SeenFirst(env.Roots(), journal, n, deed.seen, target);
    var k :| n <= k < |journal| && Agree(deed.seen, journal[k].before.files, target)
      && forall i | n <= i < k && journal[i].path.Some? :: env.Roots().Protected(journal[i].path.value);
    UnchangedUpTo(d, journal, n, k, target);
  }

  /** The snapshot of an apply whose existing targets do not share a backup holds what it saw, from then on. */
  lemma AppliedIsBacked(
    env: Env, disks: seq<Disk>, deeds: seq<Deed>, i: nat, k: nat, host: SystemProfile, config: PassthroughConfig,
    id: string)
    requires History(env, disks, deeds) && Sound(env, disks[0]) && i < k < |disks|
    requires deeds[i].action == Apply(host, config, id) && HasManifest(disks[i + 1], env.Roots(), id)
    requires NoClash(deeds[i].seen, Targets(PlanFor(env.home, host, config).steps))
    ensures Backs(
      disks[k], env.Roots(), env.sha, id, Targets(PlanFor(env.home, host, config).steps), deeds[i].seen)
  {
    hide Keeps, Sound, NoClash, Targets, SafeEvent, CheckedWrite, Backs, CaptureManifest, AddsOnlyIn, SeenFirst;
    hide Chained;
    assert Moves(env, deeds[i], disks[i], disks[i + 1]);
    AlwaysSound(env, disks, deeds, i + 1, k);
    BacksKept(
      env.Roots(), env.sha, disks[i + 1], disks[k], id, Targets(PlanFor(env.home, host, config).steps), deeds[i].seen);
  }

  /** `later` has what was seen at `target`: presence and digest, and the content unless contents collide. */
  ghost predicate BroughtBack(
    env: Env, id: string, seen: map<Path, Contents>, d: Disk, later: Disk, target: Path)
    requires HasManifest(d, env.Roots(), id)
  {
    && SameDigest(seen, later.files, env.sha, target)
    && ((forall e | e in ManifestOf(d, env.Roots(), id).entries :: NoCollision(d, env.Roots(), env.sha, id, e)) ==>
          Get(later.files, target) == Get(seen, target))
  }

  /**
   * The rollback theorem. Take any history in which a plan was applied, completely or not, far
   * enough to leave a snapshot, and whose existing targets did not share a backup. However the
   * history went on, a rollback to that snapshot that runs to its end alone gives each target what
   * the apply saw there, which is what was there before, if nobody else touched the target during
   * the apply; and such a rollback is possible whenever no target has become a bare directory.
   */
  lemma RollbackUndoesApply(
    env: Env, disks: seq<Disk>, deeds: seq<Deed>, i: nat, k: nat,
    host: SystemProfile, config: PassthroughConfig, id: string, target: Path, later: Disk)
    requires History(env, disks, deeds) && Sound(env, disks[0]) && i < k < |disks|
    requires deeds[i].action == Apply(host, config, id) && HasManifest(disks[i + 1], env.Roots(), id)
    requires NoClash(deeds[i].seen, Targets(PlanFor(env.home, host, config).steps))
    requires target in Targets(PlanFor(env.home, host, config).steps)
    ensures HasManifest(disks[k], env.Roots(), id)
    ensures var entries := ManifestOf(disks[k], env.Roots(), id).entries;
      && (Clear(disks[k], entries) ==> CanRollBack(disks[k], env.Roots(), env.sha, id, entries))
      && (later.files == Restored(disks[k].files, env.Roots(), env.sha, id, entries) ==>
            BroughtBack(env, id, deeds[i].seen, disks[k], later, target))
    ensures LeftAlone(disks[i], deeds[i].journal, deeds[i].start, |deeds[i].journal|, target) ==>
      Agree(deeds[i].seen, disks[i].files, target)
  {
    hide Keeps, Sound, NoCollision, NoClash, Targets, Moves, Clear, Agree;
    var targets := Targets(PlanFor(env.home, host, config).steps);
    assert Moves(env, deeds[i], disks[i], disks[i + 1]);
    AppliedIsBacked(env, disks, deeds, i, k, host, config, id);
    var j :| 0 <= j < |targets| && targets[j] == target;
    RollbackRestoresBase(disks[k], env.Roots(), env.sha, id, targets, deeds[i].seen, j);
    if LeftAlone(disks[i], deeds[i].journal, deeds[i].start, |deeds[i].journal|, target) {
      SeenIsEarlier(env, host, config, deeds[i], id, disks[i], disks[i + 1], target);
    }
  }

  /**
   * A rollback others interfere with still brings every target back for a moment: once it has dealt
   * with all entries, some operation of it has left the target with the presence and digest the
   * apply saw.
   */
  lemma RollbackReachesTargets(
    env: Env, disks: seq<Disk>, deeds: seq<Deed>, i: nat, k: nat,
    host: SystemProfile, config: PassthroughConfig, id: string, target: Path)
    returns (o: nat)
    requires History(env, disks, deeds) && Sound(env, disks[0]) && i < k < |deeds|
    requires deeds[i].action == Apply(host, config, id) && HasManifest(disks[i + 1], env.Roots(), id)
    requires NoClash(deeds[i].seen, Targets(PlanFor(env.home, host, config).steps))
    requires target in Targets(PlanFor(env.home, host, config).steps)
    requires deeds[k].action == RollbackTo(id) && HasManifest(disks[k], env.Roots(), id)
    requires var entries := ManifestOf(disks[k], env.Roots(), id).entries;
      SettledSoFar(env.sha, entries, |entries|, deeds[k].journal, deeds[k].start)
    ensures deeds[k].start <= o < |deeds[k].journal|
    ensures SameDigest(deeds[i].seen, deeds[k].journal[o].after.files, env.sha, target)
  {
    hide Keeps, Sound, NoClash, Targets, Moves;
    var targets := Targets(PlanFor(env.home, host, config).steps);
    AppliedIsBacked(env, disks, deeds, i, k, host, config, id);
    var entries := ManifestOf(disks[k], env.Roots(), id).entries;
    var j :| 0 <= j < |targets| && targets[j] == target;
    assert EntryBacks(disks[k], env.Roots(), env.sha, id, entries[j], deeds[i].seen);
    assert SettledAt(deeds[k].journal, deeds[k].start, env.sha, entries[j]);
    o :| deeds[k].start <= o < |deeds[k].journal| && Settled(deeds[k].journal[o].after.files, env.sha, entries[j]);
  }

  // ----- what is never touched -----

  /** Some snapshot on disk has an entry for the path. */
  ghost predicate Tracked(env: Env, d: Disk, p: Path) {
    exists id :: HasManifest(d, env.Roots(), id) && Covers(ManifestOf(d, env.Roots(), id), p)
  }

  lemma TrackedStays(env: Env, d: Disk, later: Disk, p: Path)
    requires Keeps(env.Roots(), d, later) && Tracked(env, d, p)
    ensures Tracked(env, later, p)
  {
    var id :| HasManifest(d, env.Roots(), id) && Covers(ManifestOf(d, env.Roots(), id), p);
    KeepsManifest(env.Roots(), d, later, id);
    ExtendsCovers(ManifestOf(d, env.Roots(), id), ManifestOf(later, env.Roots(), id), p);
  }

  /** Virtu writes a host file only if a snapshot then on disk has an entry for it, and one at the end does. */
  lemma WrittenMeansTracked(env: Env, deed: Deed, d: Disk, later: Disk, k: nat, p: Path)
    requires Sound(env, d) && Moves(env, deed, d, later) && deed.start <= k < |deed.journal|
    requires deed.journal[k].path == Some(p) && !env.Roots().Protected(p)
    ensures Tracked(env, deed.journal[k].before, p) && Tracked(env, later, p)
  {
    match deed.action
    case Apply(host, config, id) =>
      ApplyWritesTracked(env, host, config, deed, id, d, later, k, p);
    case ResumeOn(profile, mode) =>
      ResumeWritesTracked(env, profile, mode, d, later, deed.journal, deed.start, k, p);
    case RollbackTo(id) =>
      RollbackWritesTracked(env, id, d, later, deed.journal, deed.start, k, p);
    case Elsewhere =>
      assert false;
  }

  lemma ApplyWritesTracked(
    env: Env, host: SystemProfile, config: PassthroughConfig, deed: Deed, id: string, d: Disk, later: Disk, k: nat,
    p: Path)
    requires deed.action == Apply(host, config, id) && Moves(env, deed, d, later)
    requires deed.start <= k < |deed.journal| && deed.journal[k].path == Some(p) && !env.Roots().Protected(p)
    ensures Tracked(env, deed.journal[k].before, p) && Tracked(env, later, p)
  {
    hide Targets, CaptureManifest, CheckedWrite, Keeps, AddsOnlyIn, SeenFirst, SuppliedPathsAreHost, FreshId, HoldsSeen;
    hide OwnOutside, Chained;
    var roots, plan, e := env.Roots(), PlanFor(env.home, host, config), deed.journal[k];
    assert SafeEvent(
      roots, env.sha, id, Targets(plan.steps), CaptureManifest(deed.seen, env.sha, plan, host, id), deed.seen, d, e);
    assert HasManifest(e.before, roots, id) && Covers(ManifestOf(e.before, roots, id), p);
    assert HasManifest(later, roots, id);
    TargetsAreHost(env, host, config);
    AppliedManifest(roots, later, id, plan, host, deed.seen, env.sha);
    assert Covers(ManifestOf(later, roots, id), p);
  }

  lemma ResumeWritesTracked(
    env: Env, profile: SystemProfile, mode: Mode, d: Disk, later: Disk, journal: seq<Event>, n: nat, k: nat, p: Path)
    requires PendingOk(env.Roots(), d) && Resumed(env, profile, mode, d, later, journal, n)
    requires n <= k < |journal| && journal[k].path == Some(p) && !env.Roots().Protected(p)
    ensures Tracked(env, journal[k].before, p) && Tracked(env, later, p)
  {
    hide Keeps, AddsNothing, Rewrites, StepPaths, WritesHostOnly;
    var roots := env.Roots();
    var pending, r :| PendingIs(roots, d, pending)
      && Executed(Job(roots, pending, profile, mode), d, later, r)
      && GuardedSince(Job(roots, pending, profile, mode), d, journal, n);
    var job := Job(roots, pending, profile, mode);
    PendingOkIsResumable(roots, d, job);
    assert GuardedEvent(job, d, journal[k]);
    assert Covers(ManifestOf(journal[k].before, roots, pending.snapshotId), p);
    assert Covers(ManifestOf(d, roots, pending.snapshotId), p);
    TrackedStays(env, d, later, p);
  }

  lemma RollbackWritesTracked(
    env: Env, id: string, d: Disk, later: Disk, journal: seq<Event>, n: nat, k: nat, p: Path)
    requires ManifestsTidy(env, d) && RolledBackTo(env, id, d, later, journal, n)
    requires Chained(env.Roots(), d, journal, n, later)
    requires n <= k < |journal| && journal[k].path == Some(p) && !env.Roots().Protected(p)
    ensures Tracked(env, journal[k].before, p) && Tracked(env, later, p)
  {
    hide Keeps, Chained;
    var roots := env.Roots();
    var m := ManifestOf(d, roots, id);
    TidyIsHost(env, d, id);
    RestoringIsHost(roots, env.sha, id, m.entries, journal, n);
    OwnUntil(roots, d, journal, n, k, later);
    OwnFilesKeep(roots, d, journal[k].before);
    OwnFilesKeep(roots, d, later);
    var i :| 0 <= i < |m.entries| && Restoring(roots, env.sha, id, m.entries[i], journal[k]);
    CoversAt(m, i);
    assert Tracked(env, d, p);
    TrackedStays(env, d, journal[k].before, p);
    TrackedStays(env, d, later, p);
  }

  /** A host path that changed during an action, and that others left alone, is tracked afterwards. */
  lemma ChangedMeansTracked(env: Env, deed: Deed, d: Disk, later: Disk, p: Path)
    requires Sound(env, d) && Moves(env, deed, d, later) && deed.action != Elsewhere
    requires !env.Roots().Protected(p) && !Same(d, later, p)
    requires LeftAlone(d, deed.journal, deed.start, |deed.journal|, p)
    ensures Tracked(env, later, p)
  {
    hide Sound, Applied, Resumed, RolledBackTo, Tracked, Same, Local, FreshId, SuppliedPathsAreHost;
    if k: nat :| deed.start <= k < |deed.journal| && deed.journal[k].path == Some(p) {
      WrittenMeansTracked(env, deed, d, later, k, p);
    } else {
      UnchangedThroughout(env.Roots(), d, deed.journal, deed.start, later, p);
      assert false;
    }
  }

  /** A host path no snapshot at the end of a history mentions was never written by Virtu along the way. */
  lemma UntrackedIsUntouched(env: Env, disks: seq<Disk>, deeds: seq<Deed>, i: nat, p: Path)
    requires History(env, disks, deeds) && Sound(env, disks[0]) && i < |deeds|
    requires !env.Roots().Protected(p) && !Tracked(env, disks[|deeds|], p)
    ensures !Logged(deeds[i].journal, deeds[i].start, p)
  {
    hide Keeps, Sound, Moves, Tracked;
    AlwaysSound(env, disks, deeds, i, |deeds|);
    AlwaysSound(env, disks, deeds, i + 1, |deeds|);
    assert Moves(env, deeds[i], disks[i], disks[i + 1]);
    if Logged(deeds[i].journal, deeds[i].start, p) {
      var k :| deeds[i].start <= k < |deeds[i].journal| && deeds[i].journal[k].path == Some(p);
      WrittenMeansTracked(env, deeds[i], disks[i], disks[i + 1], k, p);
      TrackedStays(env, disks[i + 1], disks[|deeds|], p);
      assert false;
    }
  }
}
